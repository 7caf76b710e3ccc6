/** Exactly which removals can lose an agent, decided by what the remover finds. */
module TaskOrphans {
  import opened Types
  import opened TaskLifecycle
  import opened TaskSafety
  import opened TaskLookups
  import opened TaskPromises

  predicate OrphanIn(s: State, slot: Slot, a: Agent) { Orphaned(s, a) && s.builds[a].slot == slot }

  /** Some continuation builds an agent in `slot` that nobody owns. */
  ghost predicate CanOrphan(s: State, slot: Slot) {
    exists es: seq<Event>, a: Agent :: IsRun(s, es) && OrphanIn(Exec(s, es), slot, a)
  }

  ghost predicate WaitedFor(s: State, slot: Slot) {
    exists d: Caller :: s.PcOf(d).Waiting? && s.PcOf(d).slot == slot
  }

  /**
   The slot holds no value and somebody may still build in it: the running initialiser, when the remover will not
   wait for it, or a caller that looked the slot up and has yet to enter.
   */
  ghost predicate AtRisk(s: State, slot: Slot, next: Next) {
    && slot in s.cells && !s.cells[slot].Set?
    && ((s.cells[slot].Initialising? && !next.AfterKillAndWait?) || WaitedFor(s, slot))
  }

  // ---------------------------------------------------------------- an agent gets lost

  lemma CanOrphanBefore(s: State, e: Event, slot: Slot)
    requires Enabled(s, e) && CanOrphan(Step(s, e), slot)
    ensures CanOrphan(s, slot)
  {
    var es: seq<Event>, a: Agent :| IsRun(Step(s, e), es) && OrphanIn(Exec(Step(s, e), es), slot, a);
    RunCons(s, e, es);
  }

  lemma CanOrphanNow(s: State, slot: Slot, a: Agent)
    requires OrphanIn(s, slot, a)
    ensures CanOrphan(s, slot)
  {
    assert IsRun(s, []) && Exec(s, []) == s;
  }

  lemma UnusedAgent(builds: map<Agent, Build>) returns (a: Agent)
    ensures a !in builds
  {
    a := Above(builds.Keys);
  }

  lemma {:induction false} Above(used: set<nat>) returns (a: nat)
    ensures forall x :: x in used ==> x < a
    decreases |used|
  {
    a := 0;
    if used != {} {
      var x :| x in used;
      var b := Above(used - {x});
      assert forall y :: y in used ==> y == x || y in used - {x};
      a := if x < b then b else x + 1;
    }
  }

  lemma BuilderOrphans(s: State, d: Caller, slot: Slot)
    requires s.PcOf(d).Building? && s.PcOf(d).slot == slot && slot in s.abandoned
    ensures CanOrphan(s, slot)
  {
    var a := UnusedAgent(s.builds);
    CanOrphanNow(Step(s, FactoryOk(d, a)), slot, a);
    CanOrphanBefore(s, FactoryOk(d, a), slot);
  }

  lemma WaiterOrphans(s: State, d: Caller, slot: Slot)
    requires s.PcOf(d).Waiting? && s.PcOf(d).slot == slot && slot in s.abandoned
    requires slot in s.cells && s.cells[slot].Empty?
    ensures CanOrphan(s, slot)
  {
    BuilderOrphans(Step(s, Enter(d)), d, slot);
    CanOrphanBefore(s, Enter(d), slot);
  }

  /** A remover that stops waiting while the cell is empty leaves the slot to the next caller. */
  lemma PendingOrphans(s: State, c: Caller, d: Caller, slot: Slot)
    requires s.PcOf(c) == KillPending(slot) && slot in s.cells && s.cells[slot].Empty?
    requires s.PcOf(d).Waiting? && s.PcOf(d).slot == slot
    ensures CanOrphan(s, slot)
  {
    var t := Step(s, Resolve(c));
    assert t.PcOf(d) == s.PcOf(d) && slot in t.abandoned && t.cells == s.cells;
    WaiterOrphans(t, d, slot);
    CanOrphanBefore(s, Resolve(c), slot);
  }

  lemma BusyPendingOrphans(s: State, c: Caller, r: Caller, d: Caller, slot: Slot)
    requires s.PcOf(c) == KillPending(slot) && s.PcOf(r).Building? && s.PcOf(r).slot == slot
    requires s.PcOf(d).Waiting? && s.PcOf(d).slot == slot
    ensures CanOrphan(s, slot)
  {
    var t := Step(s, FactoryErr(r));
    assert t.PcOf(c) == s.PcOf(c) && t.PcOf(d) == s.PcOf(d) && t.cells[slot].Empty?;
    PendingOrphans(t, c, d, slot);
    CanOrphanBefore(s, FactoryErr(r), slot);
  }

  /** The remover looks at a cell without a value: it gives the slot up, or goes on waiting. */
  lemma InspectLeaves(s: State, c: Caller, slot: Slot, next: Next, t: State)
    requires s.PcOf(c) == Inspecting(slot, next) && slot in s.cells && !s.cells[slot].Set?
    requires t == InspectStep(s, c, slot, next, true)
    ensures t.cells == s.cells && t.builds == s.builds && forall d :: d != c ==> t.PcOf(d) == s.PcOf(d)
    ensures if next.AfterKillAndWait? then t.PcOf(c) == KillPending(slot) else slot in t.abandoned
  {
  }

  lemma RemoverOrphans(s: State, c: Caller, slot: Slot, next: Next)
    requires BuildersOk(s) && s.PcOf(c) == Inspecting(slot, next) && AtRisk(s, slot, next)
    ensures CanOrphan(s, slot)
  {
    var t := InspectStep(s, c, slot, next, true);
    InspectLeaves(s, c, slot, next, t);
    assert CellOk(s, slot);
    if next.AfterKillAndWait? {
      var d: Caller :| s.PcOf(d).Waiting? && s.PcOf(d).slot == slot;
      if s.cells[slot].Empty? {
        PendingOrphans(t, c, d, slot);
      } else {
        BusyPendingOrphans(t, c, s.cells[slot].runner, d, slot);
      }
    } else if s.cells[slot].Initialising? {
      BuilderOrphans(t, s.cells[slot].runner, slot);
    } else {
      var d: Caller :| s.PcOf(d).Waiting? && s.PcOf(d).slot == slot;
      WaiterOrphans(t, d, slot);
    }
    CanOrphanBefore(s, Inspect(c, true), slot);
  }

  // ---------------------------------------------------------------- no agent can get lost

  /** A removed slot that nobody waits for: no caller will ever enter it again. */
  ghost predicate Sealed(s: State, slot: Slot) { slot in s.taken && !WaitedFor(s, slot) }

  /** All that can still happen to a sealed cell: the running attempt ends. */
  ghost predicate EndsOnly(s: State, t: State, slot: Slot) {
    && slot in s.cells && slot in t.cells
    && (forall a :: a in s.builds ==> a in t.builds && t.builds[a] == s.builds[a])
    && match s.cells[slot]
       case Initialising(n, _) =>
         var now := t.cells[slot];
         now == s.cells[slot] || now.Empty? || (now.Set? && now.agent in t.builds && t.builds[now.agent].attempt == n)
       case was => t.cells[slot] == was
  }

  lemma EndsOnlyTransitive(s: State, t: State, u: State, slot: Slot)
    requires EndsOnly(s, t, slot) && EndsOnly(t, u, slot)
    ensures EndsOnly(s, u, slot)
  {
  }

  lemma TakeKeepsTaken(s: State, c: Caller, conv: ConvId, next: Next, slot: Slot)
    requires SlotsOk(s) && slot in s.taken
    ensures var t := TakeStep(s, c, conv, next); slot in t.taken && t.taken[slot] == s.taken[slot]
  {
    assert conv in s.tasks ==> TaskOk(s, conv) && SlotOk(s, s.tasks[conv]);
  }

  /** A removal is remembered as it was. */
  lemma TakenStays(s: State, e: Event, slot: Slot)
    requires SlotsOk(s) && Enabled(s, e) && slot in s.taken
    ensures slot in Step(s, e).taken && Step(s, e).taken[slot] == s.taken[slot]
  {
    if e.Take? {
      TakeKeepsTaken(s, e.caller, s.PcOf(e.caller).conv, s.PcOf(e.caller).next, slot);
    } else {
      RemovalsStay(s, e);
    }
  }

  lemma {:induction false} TakenForever(s: State, es: seq<Event>, slot: Slot)
    requires Inv(s) && IsRun(s, es) && slot in s.taken
    ensures slot in Exec(s, es).taken && Exec(s, es).taken[slot] == s.taken[slot]
    decreases |es|
  {
    if es != [] {
      TakenStays(s, es[0], slot);
      StepInv(s, es[0]);
      TakenForever(Step(s, es[0]), es[1..], slot);
    }
  }

  /** A lookup yields a slot that has not been removed. */
  lemma LookupIsCurrent(s: State, c: Caller, conv: ConvId, want: RuntimeCapabilities, slot: Slot)
    requires SlotsOk(s) && slot in s.taken
    ensures var t := LocateStep(s, c, conv, want);
            && t.PcOf(c).Waiting? && t.PcOf(c).slot != slot
            && slot in t.cells && t.cells[slot] == s.cells[slot]
  {
    if conv in s.tasks {
      assert TaskOk(s, conv) && SlotOk(s, s.tasks[conv]);
    } else {
      MintIsFresh(s, conv);
    }
  }

  lemma StaysUnwaited(s: State, e: Event, t: State, slot: Slot)
    requires SlotsOk(s) && Enabled(s, e) && t == Step(s, e) && Sealed(s, slot) && Tracks(s, e, t)
    ensures !WaitedFor(t, slot)
  {
    if e.Locate? { LookupIsCurrent(s, e.caller, s.PcOf(e.caller).conv, s.PcOf(e.caller).want, slot); }
    forall d: Caller ensures !(t.PcOf(d).Waiting? && t.PcOf(d).slot == slot) {
      if d != e.caller { assert t.PcOf(d) == s.PcOf(d); }
    }
  }

  lemma CellEnds(s: State, e: Event, t: State, slot: Slot)
    requires SlotsOk(s) && BuildersOk(s) && Enabled(s, e) && t == Step(s, e) && Sealed(s, slot) && Records(s, e, t)
    ensures EndsOnly(s, t, slot)
  {
    var pc := s.PcOf(e.caller);
    if e.FactoryOk? || e.FactoryErr? {
      assert CallerOk(s, e.caller);
    } else if e.Locate? {
      LookupIsCurrent(s, e.caller, pc.conv, pc.want, slot);
    } else if e.Enter? {
      assert pc.slot != slot;
    } else {
      CellsStay(s, e);
    }
  }

  lemma {:induction false} SealedForever(s: State, es: seq<Event>, slot: Slot)
    requires Inv(s) && IsRun(s, es) && Sealed(s, slot)
    ensures EndsOnly(s, Exec(s, es), slot)
    decreases |es|
  {
    if es != [] {
      var t := Step(s, es[0]);
      StepInv(s, es[0]);
      StepTracks(s, es[0], t);
      StepRecords(s, es[0], t);
      TakenStays(s, es[0], slot);
      StaysUnwaited(s, es[0], t, slot);
      CellEnds(s, es[0], t, slot);
      SealedForever(t, es[1..], slot);
      EndsOnlyTransitive(s, t, Exec(s, es), slot);
    }
  }

  /** Without risk no continuation loses an agent. */
  lemma NoRiskNoOrphan(s: State, es: seq<Event>, slot: Slot, a: Agent)
    requires Inv(s) && IsRun(s, es) && slot in s.taken && slot in s.cells && s.taken[slot].found == s.cells[slot]
    requires !AtRisk(s, slot, s.taken[slot].next)
    ensures !OrphanIn(Exec(s, es), slot, a)
  {
    var u := Exec(s, es);
    RunInv(s, es);
    TakenForever(s, es, slot);
    if a in u.builds && u.builds[a].slot == slot {
      assert BuildOk(u, a) && TakenOk(u, slot);
      if !s.cells[slot].Set? { SealedForever(s, es, slot); }
    }
  }

  // ---------------------------------------------------------------- the exact condition

  /** What a take that finds its conversation leaves behind. */
  lemma TakeLeaves(s: State, c: Caller, conv: ConvId, next: Next, t: State)
    requires conv in s.tasks && s.tasks[conv] in s.cells && t == TakeStep(s, c, conv, next)
    ensures var slot := s.tasks[conv];
            && t.PcOf(c) == Inspecting(slot, next) && t.cells == s.cells
            && slot in t.taken && t.taken[slot] == Removal(c, next, s.cells[slot])
            && forall d :: d != c ==> t.PcOf(d) == s.PcOf(d)
  {
  }

  /**
   A removal can lose an agent exactly when the slot it takes holds no value and either its initialiser is running
   and the remover will not wait for it, or some caller is about to enter the slot.
   */
  lemma RemovalCanOrphanIff(es: seq<Event>, c: Caller)
    requires IsRun(INIT, es) && Enabled(Exec(INIT, es), Take(c))
    requires Exec(INIT, es).PcOf(c).conv in Exec(INIT, es).tasks
    ensures var s := Exec(INIT, es);
            var slot := s.tasks[s.PcOf(c).conv];
            CanOrphan(Step(s, Take(c)), slot) <==> AtRisk(s, slot, s.PcOf(c).next)
  {
    InitInv();
    RunInv(INIT, es);
    var s := Exec(INIT, es);
    var conv, next, t := s.PcOf(c).conv, s.PcOf(c).next, Step(s, Take(c));
    var slot := s.tasks[conv];
    assert TaskOk(s, conv);
    StepInv(s, Take(c));
    TakeLeaves(s, c, conv, next, t);
    TakeKeepsRisk(s, c, t, slot, next);
    if AtRisk(s, slot, next) {
      RemoverOrphans(t, c, slot, next);
    } else if CanOrphan(t, slot) {
      var more: seq<Event>, a: Agent :| IsRun(t, more) && OrphanIn(Exec(t, more), slot, a);
      NoRiskNoOrphan(t, more, slot, a);
    }
  }

  /** The take itself does not change the risk. */
  lemma TakeKeepsRisk(s: State, c: Caller, t: State, slot: Slot, next: Next)
    requires !s.PcOf(c).Waiting? && !t.PcOf(c).Waiting? && t.cells == s.cells
    requires forall d :: d != c ==> t.PcOf(d) == s.PcOf(d)
    ensures AtRisk(t, slot, next) <==> AtRisk(s, slot, next)
  {
    forall d: Caller | s.PcOf(d).Waiting? && s.PcOf(d).slot == slot ensures WaitedFor(t, slot) {
      assert t.PcOf(d) == s.PcOf(d);
    }
    forall d: Caller | t.PcOf(d).Waiting? && t.PcOf(d).slot == slot ensures WaitedFor(s, slot) {
      assert t.PcOf(d) == s.PcOf(d);
    }
  }
}
