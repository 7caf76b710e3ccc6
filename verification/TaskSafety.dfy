/** What every interleaving of builders, kills, awaited kills and clears guarantees. */
module TaskSafety {
  import opened Common
  import opened Types
  import opened TaskLifecycle

  // ---------------------------------------------------------------- where an agent can be

  /** The agent is the value of the slot now in the map. */
  predicate Current(s: State, a: Agent) {
    a in s.builds && s.builds[a].slot.conv in s.tasks && s.tasks[s.builds[a].slot.conv] == s.builds[a].slot
  }

  predicate Killed(s: State, a: Agent) { s.kills[a] > 0 }

  /** The caller that removed the agent's slot has not decided yet, or is its pending future. */
  predicate OwedKill(s: State, a: Agent) { a in s.builds && Owed(s, s.builds[a].slot) }

  /** The agent sits in a slot whose remover gave up on it while the cell held no value. */
  predicate Orphaned(s: State, a: Agent) { a in s.builds && s.builds[a].slot in s.abandoned }

  function Bit(b: bool): nat { if b then 1 else 0 }

  /** Each agent ever built is in exactly one of the four places, and is killed at most once. */
  lemma EveryAgentAccountedFor(es: seq<Event>, a: Agent)
    requires IsRun(INIT, es) && a in Exec(INIT, es).builds
    ensures var s := Exec(INIT, es);
            && Bit(Current(s, a)) + Bit(Killed(s, a)) + Bit(OwedKill(s, a)) + Bit(Orphaned(s, a)) == 1
            && s.kills[a] <= 1
            && s.builds[a].slot in s.cells && s.cells[s.builds[a].slot] == Set(a)
  {
    InitInv();
    RunInv(INIT, es);
    var s := Exec(INIT, es);
    assert BuildOk(s, a) && KillsOk(s, a) && SlotOk(s, s.builds[a].slot);
    if s.builds[a].slot in s.taken { assert TakenOk(s, s.builds[a].slot); }
  }

  /** Once every caller is idle, a live agent is a current one or an orphan. */
  lemma QuiescentAgents(es: seq<Event>, a: Agent)
    requires IsRun(INIT, es) && a in Exec(INIT, es).builds
    requires forall c :: Exec(INIT, es).PcOf(c).Idle?
    ensures var s := Exec(INIT, es);
            s.kills[a] == 0 <==> Current(s, a) || Orphaned(s, a)
  {
    EveryAgentAccountedFor(es, a);
  }

  /** A removal that cannot lose its agent: the cell was set, or an awaited kill met the build that set it. */
  predicate SafeRemoval(s: State, slot: Slot) {
    slot in s.taken && slot in s.cells &&
    var t := s.taken[slot];
    || t.found.Set?
    || (t.next.AfterKillAndWait? && t.found.Initialising? && s.cells[slot].Set?
        && s.cells[slot].agent in s.builds && s.builds[s.cells[slot].agent].attempt == t.found.attempt)
  }

  /** Safe removals never orphan an agent. */
  lemma SafeRemovalsOrphanNothing(es: seq<Event>, a: Agent)
    requires IsRun(INIT, es) && a in Exec(INIT, es).builds
    requires var s := Exec(INIT, es);
             s.builds[a].slot in s.taken ==> SafeRemoval(s, s.builds[a].slot)
    ensures !Orphaned(Exec(INIT, es), a)
  {
    InitInv();
    RunInv(INIT, es);
    var s := Exec(INIT, es);
    assert BuildOk(s, a);
    if s.builds[a].slot in s.taken { assert TakenOk(s, s.builds[a].slot); }
  }

  /** The run so far, extended by one enabled event. */
  lemma Then(es: seq<Event>, e: Event) returns (longer: seq<Event>)
    requires IsRun(INIT, es) && Enabled(Exec(INIT, es), e)
    ensures longer == es + [e] && IsRun(INIT, longer) && Exec(INIT, longer) == Step(Exec(INIT, es), e)
  {
    RunExtend(INIT, es, e);
    longer := es + [e];
  }

  /** Caller 0 looks up the conversation, finds nothing, and starts the factory. */
  lemma StartBuild(conv: ConvId, want: RuntimeCapabilities) returns (es: seq<Event>)
    ensures es == [Begin(0, GetOrBuild(conv, want)), Check(0), Locate(0), Enter(0)] && IsRun(INIT, es)
    ensures Exec(INIT, es) == BuildingState(conv, want)
  {
    es := Then([], Begin(0, GetOrBuild(conv, want)));
    es := Then(es, Check(0));
    es := Then(es, Locate(0));
    es := Then(es, Enter(0));
    var s := Exec(INIT, es);
    assert s.cells == map[Slot(conv, 0) := Initialising(0, 0)];
    assert s.pcs == map[0 := Building(want, Slot(conv, 0), 0)];
  }

  /**
   An unsafe removal does lose its agent: a kill that runs while the factory is busy leaves the
   agent alive, outside the map, and owed by nobody.
   */
  lemma KillDuringBuildOrphans(conv: ConvId) returns (es: seq<Event>, a: Agent)
    ensures IsRun(INIT, es)
    ensures var s := Exec(INIT, es);
            Orphaned(s, a) && s.kills[a] == 0 && !Current(s, a) && forall c :: s.PcOf(c).Idle?
  {
    a := 7;
    es := StartBuild(conv, RuntimeCapabilities(None));
    es := TakeBuilding(es, conv, RuntimeCapabilities(None));
    es := KillBuilding(es, conv, RuntimeCapabilities(None));
    es := Then(es, FactoryOk(0, a));
  }

  /** The state in which caller 0 builds for `conv`. */
  function BuildingState(conv: ConvId, want: RuntimeCapabilities): State {
    INIT.(tasks := map[conv := Slot(conv, 0)], cells := map[Slot(conv, 0) := Initialising(0, 0)],
          pcs := map[0 := Building(want, Slot(conv, 0), 0)], nextAttempt := 1)
  }

  /** The same once caller 1 has taken that slot out of the map to kill it. */
  function TakenState(conv: ConvId, want: RuntimeCapabilities): State {
    BuildingState(conv, want).(
      tasks := map[], removals := map[conv := 1],
      pcs := map[0 := Building(want, Slot(conv, 0), 0), 1 := Inspecting(Slot(conv, 0), AfterKill)],
      taken := map[Slot(conv, 0) := Removal(1, AfterKill, Initialising(0, 0))])
  }

  lemma TakeBuilding(first: seq<Event>, conv: ConvId, want: RuntimeCapabilities) returns (es: seq<Event>)
    requires IsRun(INIT, first) && Exec(INIT, first) == BuildingState(conv, want)
    ensures IsRun(INIT, es) && Exec(INIT, es) == TakenState(conv, want)
  {
    es := Then(first, Begin(1, Kill(conv)));
    es := Then(es, Take(1));
    var s, t := Exec(INIT, es), TakenState(conv, want);
    assert s.tasks == t.tasks && s.pcs == t.pcs && s.removals == t.removals && s.taken == t.taken;
  }

  /** And once it has given the slot up. */
  function KilledState(conv: ConvId, want: RuntimeCapabilities): State {
    TakenState(conv, want).(
      pcs := map[0 := Building(want, Slot(conv, 0), 0), 1 := Idle], abandoned := {Slot(conv, 0)})
  }

  lemma KillBuilding(first: seq<Event>, conv: ConvId, want: RuntimeCapabilities) returns (es: seq<Event>)
    requires IsRun(INIT, first) && Exec(INIT, first) == TakenState(conv, want)
    ensures IsRun(INIT, es) && Exec(INIT, es) == KilledState(conv, want)
  {
    es := Then(first, Inspect(1, true));
    assert Exec(INIT, es).pcs == KilledState(conv, want).pcs;
  }

  // ---------------------------------------------------------------- awaited kills

  /**
   If an initialiser was running when kill_and_wait removed the slot and that very attempt
   succeeds, the returned future is not complete before its agent has been killed.
   */
  lemma AwaitedKillMeetsRunningBuild(es: seq<Event>, slot: Slot, a: Agent)
    requires IsRun(INIT, es)
    requires var s := Exec(INIT, es);
             && slot in s.taken && s.taken[slot].next.AfterKillAndWait? && s.taken[slot].found.Initialising?
             && slot in s.resolved
    requires var s := Exec(INIT, es);
             a in s.builds && s.builds[a].slot == slot && s.builds[a].attempt == s.taken[slot].found.attempt
    ensures Exec(INIT, es).kills[a] == 1
  {
    InitInv();
    RunInv(INIT, es);
    var s := Exec(INIT, es);
    assert BuildOk(s, a) && KillsOk(s, a) && TakenOk(s, slot);
  }

  /** Nor is it complete while that attempt is still running. */
  lemma AwaitedKillWaitsForRunningBuild(es: seq<Event>, slot: Slot)
    requires IsRun(INIT, es)
    requires var s := Exec(INIT, es);
             && slot in s.taken && s.taken[slot].next.AfterKillAndWait? && s.taken[slot].found.Initialising?
             && slot in s.resolved
    ensures var s := Exec(INIT, es);
            && slot in s.cells
            && (AttemptFailed(s, slot, s.taken[slot].found.attempt)
                || (s.cells[slot].Set? && s.kills[s.cells[slot].agent] == 1))
  {
    InitInv();
    RunInv(INIT, es);
    var s := Exec(INIT, es);
    assert slot in s.cells && TakenOk(s, slot) && CellOk(s, slot);
    if s.cells[slot].Set? { assert KillsOk(s, s.cells[slot].agent); }
  }

  // ---------------------------------------------------------------- single flight

  /** No slot ever has two running initialisers. */
  lemma OneInitialiserPerSlot(es: seq<Event>, c: Caller, d: Caller)
    requires IsRun(INIT, es)
    requires var s := Exec(INIT, es);
             s.PcOf(c).Building? && s.PcOf(d).Building? && s.PcOf(c).slot == s.PcOf(d).slot
    ensures c == d
  {
    InitInv();
    RunInv(INIT, es);
    var s := Exec(INIT, es);
    assert CallerOk(s, c) && CallerOk(s, d);
  }

  /** Successful factory runs for `conv` along a run. */
  function BuildCount(s: State, es: seq<Event>, conv: ConvId): nat
    requires IsRun(s, es)
    decreases |es|
  {
    if es == [] then 0
    else
      var pc := s.PcOf(es[0].caller);
      Bit(es[0].FactoryOk? && pc.Building? && pc.slot.conv == conv) + BuildCount(Step(s, es[0]), es[1..], conv)
  }

  /** Removals of `conv` along a run: takes that found it in the map. */
  function RemovalCount(s: State, es: seq<Event>, conv: ConvId): nat
    requires IsRun(s, es)
    decreases |es|
  {
    if es == [] then 0
    else
      Bit(Removes(s, es[0], conv)) + RemovalCount(Step(s, es[0]), es[1..], conv)
  }

  /** A take that finds `conv` in the map. */
  predicate Removes(s: State, e: Event, conv: ConvId) {
    var pc := s.PcOf(e.caller);
    e.Take? && pc.Taking? && pc.conv == conv && conv in s.tasks
  }

  /** The slots of `conv` that ever got a value. */
  ghost function SetSlots(s: State, conv: ConvId): set<Slot> {
    set slot | slot in s.cells && s.cells[slot].Set? && slot.conv == conv
  }

  lemma RemovalsOfTake(s: State, c: Caller, k: ConvId, next: Next, conv: ConvId)
    requires SlotsOk(s)
    ensures TakeStep(s, c, k, next).RemovalsOf(conv) == s.RemovalsOf(conv) + Bit(k == conv && conv in s.tasks)
  {
    assert k in s.tasks ==> TaskOk(s, k);
  }

  lemma InspectKeepsRemovals(s: State, c: Caller, slot: Slot, next: Next, ok: bool)
    requires slot in s.cells
    ensures var t := InspectStep(s, c, slot, next, ok); t.removals == s.removals && t.taken == s.taken
  {
  }

  lemma EnterKeepsRemovals(s: State, c: Caller, pc: Pc)
    requires pc.Waiting? && pc.slot in s.cells
    ensures var t := EnterStep(s, c, pc); t.removals == s.removals && t.taken == s.taken
  {
  }

  lemma LocateKeepsRemovals(s: State, c: Caller, conv: ConvId, want: RuntimeCapabilities)
    ensures var t := LocateStep(s, c, conv, want); t.removals == s.removals && t.taken == s.taken
  {
  }

  lemma BuildsAndKillsKeepRemovals(s: State, e: Event)
    requires Enabled(s, e) && (e.FactoryOk? || e.FactoryErr? || e.Resolve? || e.Terminated?)
    ensures Step(s, e).removals == s.removals && Step(s, e).taken == s.taken
  {
  }

  /** Only takes change what has been removed. */
  lemma RemovalsStay(s: State, e: Event)
    requires Enabled(s, e) && !e.Take?
    ensures Step(s, e).removals == s.removals && Step(s, e).taken == s.taken
  {
    var pc := s.PcOf(e.caller);
    match e
    case Inspect(c, ok) => InspectKeepsRemovals(s, c, pc.slot, pc.next, ok);
    case Enter(c) => EnterKeepsRemovals(s, c, pc);
    case Locate(c) => LocateKeepsRemovals(s, c, pc.conv, pc.want);
    case Resolve(_) => BuildsAndKillsKeepRemovals(s, e);
    case FactoryOk(_, _) => BuildsAndKillsKeepRemovals(s, e);
    case FactoryErr(_) => BuildsAndKillsKeepRemovals(s, e);
    case Terminated(_) => BuildsAndKillsKeepRemovals(s, e);
    case _ =>
  }

  lemma RemovalsOfStep(s: State, e: Event, conv: ConvId)
    requires SlotsOk(s) && Enabled(s, e)
    ensures Step(s, e).RemovalsOf(conv) == s.RemovalsOf(conv) + Bit(Removes(s, e, conv))
  {
    if e.Take? {
      RemovalsOfTake(s, e.caller, s.PcOf(e.caller).conv, s.PcOf(e.caller).next, conv);
    } else {
      RemovalsStay(s, e);
    }
  }

  lemma SetSlotsFactoryOk(s: State, c: Caller, a: Agent, conv: ConvId)
    requires BuildersOk(s) && Enabled(s, FactoryOk(c, a))
    ensures |SetSlots(Step(s, FactoryOk(c, a)), conv)|
            == |SetSlots(s, conv)| + Bit(s.PcOf(c).slot.conv == conv)
  {
    assert CallerOk(s, c);
    var slot := s.PcOf(c).slot;
    assert SetSlots(Step(s, FactoryOk(c, a)), conv)
        == SetSlots(s, conv) + (if slot.conv == conv then {slot} else {});
  }

  /** A step that sets no cell leaves the set of set slots alone. */
  lemma SetSlotsFrame(s: State, t: State, conv: ConvId)
    requires forall slot :: slot in s.cells && s.cells[slot].Set? <==> slot in t.cells && t.cells[slot].Set?
    ensures SetSlots(t, conv) == SetSlots(s, conv)
  {
  }

  lemma TakeKeepsCells(s: State, c: Caller, conv: ConvId, next: Next)
    ensures TakeStep(s, c, conv, next).cells == s.cells
  {
  }

  lemma InspectKeepsCells(s: State, c: Caller, slot: Slot, next: Next, ok: bool)
    requires slot in s.cells
    ensures InspectStep(s, c, slot, next, ok).cells == s.cells
  {
  }

  /** Events outside the once-cells leave every cell alone. */
  lemma CellsStay(s: State, e: Event)
    requires Enabled(s, e) && !e.FactoryOk? && !e.FactoryErr? && !e.Locate? && !e.Enter?
    ensures Step(s, e).cells == s.cells
  {
    var pc := s.PcOf(e.caller);
    if e.Take? {
      TakeKeepsCells(s, e.caller, pc.conv, pc.next);
    } else if e.Inspect? {
      InspectKeepsCells(s, e.caller, pc.slot, pc.next, e.killOk);
    }
  }

  /** A failed build empties a cell that held no value. */
  lemma SetSlotsFactoryErr(s: State, c: Caller, conv: ConvId)
    requires BuildersOk(s) && Enabled(s, FactoryErr(c))
    ensures SetSlots(Step(s, FactoryErr(c)), conv) == SetSlots(s, conv)
  {
    assert CallerOk(s, c);
    SetSlotsFrame(s, Step(s, FactoryErr(c)), conv);
  }

  /** A lookup may add an empty cell. */
  lemma SetSlotsLocate(s: State, c: Caller, conv: ConvId)
    requires SlotsOk(s) && Enabled(s, Locate(c))
    ensures SetSlots(Step(s, Locate(c)), conv) == SetSlots(s, conv)
  {
    if s.PcOf(c).conv !in s.tasks { MintIsFresh(s, s.PcOf(c).conv); }
    SetSlotsFrame(s, Step(s, Locate(c)), conv);
  }

  /** An initialiser starts on an empty cell. */
  lemma SetSlotsEnter(s: State, c: Caller, conv: ConvId)
    requires Enabled(s, Enter(c))
    ensures SetSlots(Step(s, Enter(c)), conv) == SetSlots(s, conv)
  {
    SetSlotsFrame(s, Step(s, Enter(c)), conv);
  }

  lemma SetSlotsOther(s: State, e: Event, conv: ConvId)
    requires SlotsOk(s) && BuildersOk(s) && Enabled(s, e) && !e.FactoryOk?
    ensures SetSlots(Step(s, e), conv) == SetSlots(s, conv)
  {
    if e.FactoryErr? {
      SetSlotsFactoryErr(s, e.caller, conv);
    } else if e.Locate? {
      SetSlotsLocate(s, e.caller, conv);
    } else if e.Enter? {
      SetSlotsEnter(s, e.caller, conv);
    } else {
      CellsStay(s, e);
      SetSlotsFrame(s, Step(s, e), conv);
    }
  }

  lemma {:induction false} CountsAlong(s: State, es: seq<Event>, conv: ConvId)
    requires Inv(s) && IsRun(s, es)
    ensures Exec(s, es).RemovalsOf(conv) == s.RemovalsOf(conv) + RemovalCount(s, es, conv)
    ensures |SetSlots(Exec(s, es), conv)| == |SetSlots(s, conv)| + BuildCount(s, es, conv)
    decreases |es|
  {
    if es != [] {
      StepInv(s, es[0]);
      RemovalsOfStep(s, es[0], conv);
      if es[0].FactoryOk? {
        SetSlotsFactoryOk(s, es[0].caller, es[0].agent, conv);
      } else {
        SetSlotsOther(s, es[0], conv);
      }
      CountsAlong(Step(s, es[0]), es[1..], conv);
    }
  }

  /** Slots of one conversation with epochs below `n`: at most `n` of them. */
  lemma {:induction false} FewSlots(slots: set<Slot>, conv: ConvId, n: nat)
    requires forall slot :: slot in slots ==> slot.conv == conv && slot.epoch < n
    ensures |slots| <= n
  {
    if n > 0 {
      var rest := slots - {Slot(conv, n - 1)};
      FewSlots(rest, conv, n - 1);
      assert slots <= rest + {Slot(conv, n - 1)};
      assert |slots| <= |rest| + 1;
    } else {
      assert slots == {};
    }
  }

  /** Single flight: successful builds of a conversation never exceed one more than its removals. */
  lemma BuildsBoundedByRemovals(es: seq<Event>, conv: ConvId)
    requires IsRun(INIT, es)
    ensures BuildCount(INIT, es, conv) <= 1 + RemovalCount(INIT, es, conv)
  {
    InitInv();
    RunInv(INIT, es);
    CountsAlong(INIT, es, conv);
    var s := Exec(INIT, es);
    forall slot | slot in SetSlots(s, conv) ensures slot.epoch < s.RemovalsOf(conv) + 1 {
      assert SlotOk(s, slot);
    }
    FewSlots(SetSlots(s, conv), conv, s.RemovalsOf(conv) + 1);
    assert SetSlots(INIT, conv) == {};
  }

  /** A lookup yields the slot named by the number of removals of that id so far. */
  lemma LookupYieldsEpoch(es: seq<Event>, c: Caller)
    requires IsRun(INIT, es) && Enabled(Exec(INIT, es), Locate(c))
    ensures var s := Exec(INIT, es);
            var pc := Step(s, Locate(c)).PcOf(c);
            pc.Waiting? && pc.slot == Slot(s.PcOf(c).conv, RemovalCount(INIT, es, s.PcOf(c).conv))
  {
    InitInv();
    RunInv(INIT, es);
    var s := Exec(INIT, es);
    var conv := s.PcOf(c).conv;
    CountsAlong(INIT, es, conv);
    assert conv in s.tasks ==> TaskOk(s, conv);
  }

  /** Calls whose lookups saw the same number of removals of the id return the same agent. */
  lemma DifferentAgentsNeedRemoval(es: seq<Event>, i: nat, j: nat)
    requires IsRun(INIT, es)
    requires i < |Exec(INIT, es).answers| && j < |Exec(INIT, es).answers|
    requires var s := Exec(INIT, es);
             s.answers[i].slot.conv == s.answers[j].slot.conv && s.answers[i].agent != s.answers[j].agent
    ensures var s := Exec(INIT, es);
            s.answers[i].slot.epoch != s.answers[j].slot.epoch
  {
    InitInv();
    RunInv(INIT, es);
    var s := Exec(INIT, es);
    assert AnswerOk(s, s.answers[i]) && AnswerOk(s, s.answers[j]);
    assert BuildOk(s, s.answers[i].agent) && BuildOk(s, s.answers[j].agent);
  }

  // ---------------------------------------------------------------- progress and a limit

  /** The next action of a caller that is not idle. */
  function NextAction(s: State, c: Caller, spare: Agent): Event {
    match s.PcOf(c)
    case Idle => Begin(c, Clear([]))
    case Checking(_, _) => Check(c)
    case Locating(_, _) => Locate(c)
    case Waiting(_, _) => Enter(c)
    case Building(_, _, _) => FactoryOk(c, spare)
    case Taking(_, _) => Take(c)
    case Inspecting(_, _) => Inspect(c, true)
    case Clearing(_) => NextKey(c)
    case KillPending(_) => Resolve(c)
    case Terminating(_, _) => Terminated(c)
  }

  /** Caller `c` can act now, or waits for an initialiser that can. */
  predicate CanProgress(s: State, c: Caller, spare: Agent) {
    var pc := s.PcOf(c);
    || Enabled(s, NextAction(s, c, spare))
    || ((pc.Waiting? || pc.KillPending?) && pc.slot in s.cells && s.cells[pc.slot].Initialising?
        && Enabled(s, FactoryOk(s.cells[pc.slot].runner, spare)))
  }

  lemma ProgressAt(s: State, c: Caller, spare: Agent)
    requires BuildersOk(s) && s.taken.Keys <= s.cells.Keys && spare !in s.builds
    ensures CanProgress(s, c, spare)
  {
    if c in s.pcs {
      assert CallerOk(s, c);
      var pc := s.pcs[c];
      if (pc.Waiting? || pc.KillPending?) && pc.slot in s.cells { assert CellOk(s, pc.slot); }
    }
  }

  /** No caller is ever stuck, in any interleaving. */
  lemma NobodyIsStuck(es: seq<Event>, c: Caller, spare: Agent)
    requires IsRun(INIT, es) && spare !in Exec(INIT, es).builds
    ensures CanProgress(Exec(INIT, es), c, spare)
  {
    InitInv();
    RunInv(INIT, es);
    ProgressAt(Exec(INIT, es), c, spare);
  }
}
