/**
 The concurrent life of agent tasks: many callers race through get-or-build, kill,
 kill-and-wait and clear over one map of shared once-cells.

 Every atomic action of a caller (one access to the map, one look at a cell, one
 once-cell transition) is one event, and a run is any sequence of enabled events, so a
 statement about all runs is a statement about all interleavings.
 */
module TaskLifecycle {
  import opened Types

  type ConvId = string
  type Caller = nat
  type Agent = nat

  /** One allocated slot, named by its conversation and by how many removals of that id came before. */
  datatype Slot = Slot(conv: ConvId, epoch: nat)

  /** A once-cell: initialisers are serialised, failure empties it, a set value stays. */
  datatype Cell = Empty | Initialising(attempt: nat, runner: Caller) | Set(agent: Agent)

  /** What a caller does after it has dealt with one removed slot. */
  datatype Next =
    | AfterKill
    | AfterKillAndWait
    | AfterRebuild(conv: ConvId, want: RuntimeCapabilities)
    | AfterClear(rest: seq<ConvId>)

  /** Where a caller stands between two of its atomic actions. */
  datatype Pc =
    | Idle
      // get_or_build_task
    | Checking(conv: ConvId, want: RuntimeCapabilities)
    | Locating(conv: ConvId, want: RuntimeCapabilities)
    | Waiting(want: RuntimeCapabilities, slot: Slot)
    | Building(want: RuntimeCapabilities, slot: Slot, attempt: nat)
      // the removal shared by kill, kill_and_wait, clear and the rebuild path
    | Taking(conv: ConvId, next: Next)
    | Inspecting(slot: Slot, next: Next)
    | Clearing(rest: seq<ConvId>)
      // the future returned by kill_and_wait
    | KillPending(slot: Slot)
    | Terminating(slot: Slot, agent: Agent)

  datatype Operation =
    | GetOrBuild(conv: ConvId, want: RuntimeCapabilities)
    | Kill(conv: ConvId)
    | KillAndWait(conv: ConvId)
    | Clear(keys: seq<ConvId>)

  datatype Event =
    | Begin(caller: Caller, op: Operation)
    | Check(caller: Caller)
    | Locate(caller: Caller)
    | Enter(caller: Caller)
    | FactoryOk(caller: Caller, agent: Agent)
    | FactoryErr(caller: Caller)
    | Take(caller: Caller)
    | Inspect(caller: Caller, killOk: bool)
    | NextKey(caller: Caller)
    | Resolve(caller: Caller)
    | Terminated(caller: Caller)

  /** History of one removal: who took the slot out, for what, and what the cell held. */
  datatype Removal = Removal(taker: Caller, next: Next, found: Cell)

  /** History of one successful factory run. */
  datatype Build = Build(slot: Slot, attempt: nat, caps: RuntimeCapabilities)

  /** History of one successful get_or_build_task: the slot it looked up and the agent it returned. */
  datatype Answer = Answer(caller: Caller, want: RuntimeCapabilities, slot: Slot, agent: Agent)

  datatype State = State(
    // the manager's own state
    tasks: map<ConvId, Slot>,
    cells: map<Slot, Cell>,
    pcs: map<Caller, Pc>,
    nextAttempt: nat,
    // history
    removals: map<ConvId, nat>,
    taken: map<Slot, Removal>,
    abandoned: set<Slot>,
    resolved: set<Slot>,
    builds: map<Agent, Build>,
    kills: multiset<Agent>,
    answers: seq<Answer>)
  {
    function PcOf(c: Caller): Pc { if c in pcs then pcs[c] else Idle }

    function RemovalsOf(conv: ConvId): nat { if conv in removals then removals[conv] else 0 }

    function At(c: Caller, pc: Pc): State { this.(pcs := pcs[c := pc]) }
  }

  const INIT := State(map[], map[], map[], 0, map[], map[], {}, {}, map[], multiset{}, [])

  // ---------------------------------------------------------------- transitions

  function Entry(op: Operation): Pc {
    match op
    case GetOrBuild(conv, want) => Checking(conv, want)
    case Kill(conv) => Taking(conv, AfterKill)
    case KillAndWait(conv) => Taking(conv, AfterKillAndWait)
    case Clear(keys) => Clearing(keys)
  }

  /** Where a caller goes once it is done with a removal. */
  function Resume(next: Next, ok: bool): Pc {
    match next
    case AfterKill => Idle
    case AfterKillAndWait => Idle
    case AfterRebuild(conv, want) => if ok then Locating(conv, want) else Idle
    case AfterClear(rest) => Clearing(rest)
  }

  /** The slot now mapped for a conversation holds a value whose capabilities fall short. */
  predicate MustRebuild(s: State, conv: ConvId, want: RuntimeCapabilities) {
    conv in s.tasks && s.tasks[conv] in s.cells &&
    var cell := s.cells[s.tasks[conv]];
    cell.Set? && cell.agent in s.builds && !s.builds[cell.agent].caps.Satisfies(want)
  }

  predicate Enabled(s: State, e: Event) {
    var pc := s.PcOf(e.caller);
    match e
    case Begin(_, _) => pc.Idle?
    case Check(_) => pc.Checking?
    case Locate(_) => pc.Locating?
    case Enter(_) => pc.Waiting? && pc.slot in s.cells && !s.cells[pc.slot].Initialising?
    case FactoryOk(_, agent) => pc.Building? && agent !in s.builds
    case FactoryErr(_) => pc.Building?
    case Take(_) => pc.Taking?
    case Inspect(_, _) => pc.Inspecting? && pc.slot in s.cells
    case NextKey(_) => pc.Clearing?
    case Resolve(_) => pc.KillPending? && pc.slot in s.cells && !s.cells[pc.slot].Initialising?
    case Terminated(_) => pc.Terminating?
  }

  function Step(s: State, e: Event): State
    requires Enabled(s, e)
  {
    var c := e.caller;
    var pc := s.PcOf(c);
    match e
    case Begin(_, op) => s.At(c, Entry(op))
    case Check(_) =>
      if MustRebuild(s, pc.conv, pc.want)
      then s.At(c, Taking(pc.conv, AfterRebuild(pc.conv, pc.want)))
      else s.At(c, Locating(pc.conv, pc.want))
    case Locate(_) => LocateStep(s, c, pc.conv, pc.want)
    case Enter(_) => EnterStep(s, c, pc)
    case FactoryOk(_, agent) =>
      s.At(c, Idle).(
        cells := s.cells[pc.slot := Set(agent)],
        builds := s.builds[agent := Build(pc.slot, pc.attempt, pc.want)],
        answers := s.answers + [Answer(c, pc.want, pc.slot, agent)])
    case FactoryErr(_) => s.At(c, Idle).(cells := s.cells[pc.slot := Empty])
    case Take(_) => TakeStep(s, c, pc.conv, pc.next)
    case Inspect(_, ok) => InspectStep(s, c, pc.slot, pc.next, ok)
    case NextKey(_) =>
      if pc.rest == [] then s.At(c, Idle)
      else s.At(c, Taking(pc.rest[0], AfterClear(pc.rest[1..])))
    case Resolve(_) =>
      var cell := s.cells[pc.slot];
      if cell.Set?
      then s.At(c, Terminating(pc.slot, cell.agent)).(kills := s.kills + multiset{cell.agent})
      else s.At(c, Idle).(abandoned := s.abandoned + {pc.slot}, resolved := s.resolved + {pc.slot})
    case Terminated(_) => s.At(c, Idle).(resolved := s.resolved + {pc.slot})
  }

  /** `entry(..).or_insert_with(..).clone()`: one atomic map access. */
  function LocateStep(s: State, c: Caller, conv: ConvId, want: RuntimeCapabilities): State {
    if conv in s.tasks then
      s.At(c, Waiting(want, s.tasks[conv]))
    else
      var slot := Slot(conv, s.RemovalsOf(conv));
      s.At(c, Waiting(want, slot)).(tasks := s.tasks[conv := slot], cells := s.cells[slot := Empty])
  }

  /** `get_or_try_init`: a set cell answers at once, an empty one makes the caller the initialiser. */
  function EnterStep(s: State, c: Caller, pc: Pc): State
    requires pc.Waiting? && pc.slot in s.cells
  {
    match s.cells[pc.slot]
    case Set(agent) =>
      s.At(c, Idle).(answers := s.answers + [Answer(c, pc.want, pc.slot, agent)])
    case _ =>
      s.At(c, Building(pc.want, pc.slot, s.nextAttempt)).(
        cells := s.cells[pc.slot := Initialising(s.nextAttempt, c)],
        nextAttempt := s.nextAttempt + 1)
  }

  /** `tasks.remove(..)`: one atomic map access. */
  function TakeStep(s: State, c: Caller, conv: ConvId, next: Next): State {
    if conv in s.tasks && s.tasks[conv] in s.cells then
      var slot := s.tasks[conv];
      s.At(c, Inspecting(slot, next)).(
        tasks := s.tasks - {conv},
        removals := s.removals[conv := s.RemovalsOf(conv) + 1],
        taken := s.taken[slot := Removal(c, next, s.cells[slot])])
    else
      s.At(c, Resume(next, true))
  }

  /** `slot.get()` after a removal: kill what is there; only kill_and_wait keeps waiting otherwise. */
  function InspectStep(s: State, c: Caller, slot: Slot, next: Next, ok: bool): State
    requires slot in s.cells
  {
    var cell := s.cells[slot];
    if cell.Set? then
      s.At(c, if next.AfterKillAndWait? then Terminating(slot, cell.agent) else Resume(next, ok)).(
        kills := s.kills + multiset{cell.agent})
    else if next.AfterKillAndWait? then
      s.At(c, KillPending(slot))
    else
      s.At(c, Resume(next, true)).(abandoned := s.abandoned + {slot})
  }

  // ---------------------------------------------------------------- runs

  predicate IsRun(s: State, es: seq<Event>)
    decreases |es|
  {
    es == [] || (Enabled(s, es[0]) && IsRun(Step(s, es[0]), es[1..]))
  }

  function Exec(s: State, es: seq<Event>): State
    requires IsRun(s, es)
    decreases |es|
  {
    if es == [] then s else Exec(Step(s, es[0]), es[1..])
  }

  /** A run goes on with any event enabled in its final state. */
  lemma {:induction false} RunExtend(s: State, es: seq<Event>, e: Event)
    requires IsRun(s, es) && Enabled(Exec(s, es), e)
    ensures IsRun(s, es + [e]) && Exec(s, es + [e]) == Step(Exec(s, es), e)
    decreases |es|
  {
    if es == [] {
      assert es + [e] == [e];
    } else {
      RunExtend(Step(s, es[0]), es[1..], e);
      assert (es + [e])[1..] == es[1..] + [e];
    }
  }

  // ---------------------------------------------------------------- the invariant

  /** A slot is current exactly until a removal ends its epoch. */
  ghost predicate SlotOk(s: State, slot: Slot) {
    && slot.epoch <= s.RemovalsOf(slot.conv)
    && (slot in s.taken <==> slot.epoch < s.RemovalsOf(slot.conv))
    && (slot !in s.taken ==> slot.conv in s.tasks && s.tasks[slot.conv] == slot)
  }

  ghost predicate TaskOk(s: State, conv: ConvId)
    requires conv in s.tasks
  {
    s.tasks[conv] in s.cells && s.tasks[conv] == Slot(conv, s.RemovalsOf(conv))
  }

  ghost predicate SlotsOk(s: State) {
    && s.taken.Keys <= s.cells.Keys
    && (forall slot :: slot in s.cells ==> SlotOk(s, slot))
    && (forall conv :: conv in s.tasks ==> TaskOk(s, conv))
  }

  /** A caller inside get_or_try_init holds an allocated slot; a remover is the one that took its slot. */
  ghost predicate CallerOk(s: State, c: Caller)
    requires c in s.pcs
  {
    match s.pcs[c]
    case Waiting(_, slot) => slot in s.cells
    case Building(_, slot, attempt) => slot in s.cells && s.cells[slot] == Initialising(attempt, c)
    case Inspecting(slot, next) =>
      slot in s.taken && s.taken[slot].taker == c && s.taken[slot].next == next
    case KillPending(slot) =>
      slot in s.taken && s.taken[slot].taker == c && s.taken[slot].next.AfterKillAndWait?
      && !s.taken[slot].found.Set?
    case Terminating(slot, agent) =>
      s.kills[agent] > 0 && slot in s.cells && s.cells[slot] == Set(agent)
      && slot in s.taken && s.taken[slot].taker == c
    case _ => true
  }

  /** A cell agrees with its initialiser, or with the build that set it. */
  ghost predicate CellOk(s: State, slot: Slot)
    requires slot in s.cells
  {
    match s.cells[slot]
    case Empty => true
    case Initialising(attempt, c) =>
      c in s.pcs && s.pcs[c].Building? && s.pcs[c].slot == slot && attempt < s.nextAttempt
    case Set(a) => a in s.builds && s.builds[a].slot == slot
  }

  ghost predicate BuildOk(s: State, a: Agent)
    requires a in s.builds
  {
    s.builds[a].slot in s.cells && s.cells[s.builds[a].slot] == Set(a)
  }

  ghost predicate AnswerOk(s: State, r: Answer) {
    r.agent in s.builds && s.builds[r.agent].slot == r.slot
  }

  ghost predicate BuildersOk(s: State) {
    && (forall c :: c in s.pcs ==> CallerOk(s, c))
    && (forall slot :: slot in s.cells ==> CellOk(s, slot))
    && (forall a :: a in s.builds ==> BuildOk(s, a))
    && (forall i :: 0 <= i < |s.answers| ==> AnswerOk(s, s.answers[i]))
  }

  /** The remover of `slot` has taken it out and not yet decided what to do with its value. */
  predicate Owed(s: State, slot: Slot) {
    slot in s.taken &&
    var pc := s.PcOf(s.taken[slot].taker);
    (pc.Inspecting? || pc.KillPending?) && pc.slot == slot
  }

  /** Attempt `attempt` on `slot` is over and did not produce the slot's value. */
  predicate AttemptFailed(s: State, slot: Slot, attempt: nat)
    requires slot in s.cells
  {
    match s.cells[slot]
    case Empty => true
    case Initialising(now, _) => now != attempt
    case Set(a) => a in s.builds && s.builds[a].attempt != attempt
  }

  /** What the remover of a slot saw, compared with what became of the cell. */
  ghost predicate TakenOk(s: State, slot: Slot)
    requires slot in s.taken && slot in s.cells
  {
    var t := s.taken[slot];
    && (t.found.Set? ==> s.cells[slot] == t.found && slot !in s.abandoned)
    && (t.found.Initialising? ==> t.found.attempt < s.nextAttempt)
    && (slot in s.abandoned ==>
          !Owed(s, slot)
          && (t.next.AfterKillAndWait? && t.found.Initialising? ==> AttemptFailed(s, slot, t.found.attempt)))
    && (slot !in s.abandoned && !Owed(s, slot) ==> s.cells[slot].Set?)
    && (slot in s.resolved ==> !Owed(s, slot))
  }

  /** An agent is killed once if its slot was removed and the remover decided on its value, else never. */
  ghost predicate KillsOk(s: State, a: Agent) {
    if a in s.builds && s.builds[a].slot in s.taken && s.builds[a].slot !in s.abandoned && !Owed(s, s.builds[a].slot)
    then s.kills[a] == 1
    else s.kills[a] == 0
  }

  ghost predicate RemovalsOk(s: State) {
    && s.abandoned <= s.taken.Keys
    && s.resolved <= s.taken.Keys
    && (forall slot :: slot in s.taken && slot in s.cells ==> TakenOk(s, slot))
    && (forall a :: KillsOk(s, a))
  }

  ghost predicate Inv(s: State) {
    SlotsOk(s) && BuildersOk(s) && RemovalsOk(s)
  }

  // ---------------------------------------------------------------- preservation

  lemma InitInv()
    ensures Inv(INIT)
  {
  }

  // Slots: only a lookup (which may mint one) and a removal touch them.

  lemma SlotsFrame(s: State, t: State)
    requires SlotsOk(s)
    requires t.tasks == s.tasks && t.taken == s.taken && t.removals == s.removals && t.cells.Keys == s.cells.Keys
    ensures SlotsOk(t)
  {
    forall slot | slot in t.cells ensures SlotOk(t, slot) { assert SlotOk(s, slot); }
    forall conv | conv in t.tasks ensures TaskOk(t, conv) { assert TaskOk(s, conv); }
  }

  lemma SlotsLocateStep(s: State, c: Caller, conv: ConvId, want: RuntimeCapabilities)
    requires SlotsOk(s)
    ensures SlotsOk(LocateStep(s, c, conv, want))
  {
    var t := LocateStep(s, c, conv, want);
    if conv in s.tasks {
      SlotsFrame(s, t);
    } else {
      MintIsFresh(s, conv);
      forall slot | slot in t.cells ensures SlotOk(t, slot) {
        assert slot in s.cells ==> SlotOk(s, slot);
      }
      forall k | k in t.tasks ensures TaskOk(t, k) { assert k in s.tasks ==> TaskOk(s, k); }
    }
  }

  lemma SlotsLocate(s: State, c: Caller)
    requires SlotsOk(s) && Enabled(s, Locate(c))
    ensures SlotsOk(Step(s, Locate(c)))
  {
    SlotsLocateStep(s, c, s.PcOf(c).conv, s.PcOf(c).want);
  }

  lemma SlotsTakeStep(s: State, c: Caller, conv: ConvId, next: Next)
    requires SlotsOk(s)
    ensures SlotsOk(TakeStep(s, c, conv, next))
  {
    var t := TakeStep(s, c, conv, next);
    assert conv in s.tasks ==> TaskOk(s, conv);
    forall slot | slot in t.cells ensures SlotOk(t, slot) { assert SlotOk(s, slot); }
    forall k | k in t.tasks ensures TaskOk(t, k) { assert TaskOk(s, k); }
  }

  lemma SlotsTake(s: State, c: Caller)
    requires SlotsOk(s) && Enabled(s, Take(c))
    ensures SlotsOk(Step(s, Take(c)))
  {
    SlotsTakeStep(s, c, s.PcOf(c).conv, s.PcOf(c).next);
  }

  // Builders: three events move a cell, the others move only their caller.

  lemma BuildersFrame(s: State, t: State, c: Caller)
    requires BuildersOk(s)
    requires !s.PcOf(c).Building? && t.pcs == s.pcs[c := t.PcOf(c)] && c in t.pcs && CallerOk(t, c)
    requires forall slot :: slot in s.cells ==> slot in t.cells && t.cells[slot] == s.cells[slot]
    requires forall slot :: slot in t.cells && slot !in s.cells ==> t.cells[slot].Empty?
    requires forall slot :: slot in s.taken ==> slot in t.taken && t.taken[slot] == s.taken[slot]
    requires t.builds == s.builds && t.answers == s.answers && s.kills <= t.kills
    requires t.nextAttempt == s.nextAttempt
    ensures BuildersOk(t)
  {
    forall d | d in t.pcs ensures CallerOk(t, d) { assert d != c ==> CallerOk(s, d); }
    forall slot | slot in t.cells ensures CellOk(t, slot) { assert slot in s.cells ==> CellOk(s, slot); }
    forall a | a in t.builds ensures BuildOk(t, a) { assert BuildOk(s, a); }
    forall i | 0 <= i < |t.answers| ensures AnswerOk(t, t.answers[i]) { assert AnswerOk(s, s.answers[i]); }
  }

  lemma BuildersLocate(s: State, c: Caller)
    requires SlotsOk(s) && BuildersOk(s) && Enabled(s, Locate(c))
    ensures BuildersOk(Step(s, Locate(c)))
  {
    if s.PcOf(c).conv in s.tasks {
      assert TaskOk(s, s.PcOf(c).conv);
    } else {
      MintIsFresh(s, s.PcOf(c).conv);
    }
    BuildersFrame(s, Step(s, Locate(c)), c);
  }

  /** Naming a new slot by its epoch never hits a slot that exists already. */
  lemma MintIsFresh(s: State, conv: ConvId)
    requires SlotsOk(s) && conv !in s.tasks
    ensures Slot(conv, s.RemovalsOf(conv)) !in s.cells
  {
    var slot := Slot(conv, s.RemovalsOf(conv));
    assert slot in s.cells ==> SlotOk(s, slot);
  }

  lemma BuildersTake(s: State, c: Caller)
    requires SlotsOk(s) && BuildersOk(s) && Enabled(s, Take(c)) && s.PcOf(c).conv in s.tasks
    ensures BuildersOk(Step(s, Take(c)))
  {
    var mine := s.tasks[s.PcOf(c).conv];
    assert TaskOk(s, s.PcOf(c).conv) && SlotOk(s, mine);
    BuildersFrame(s, Step(s, Take(c)), c);
  }

  lemma BuildersEnterSet(s: State, c: Caller)
    requires BuildersOk(s) && Enabled(s, Enter(c)) && s.cells[s.PcOf(c).slot].Set?
    ensures BuildersOk(Step(s, Enter(c)))
  {
    var t := Step(s, Enter(c));
    assert CellOk(s, s.PcOf(c).slot);
    forall d | d in t.pcs ensures CallerOk(t, d) { assert CallerOk(s, d); }
    forall slot | slot in t.cells ensures CellOk(t, slot) { assert CellOk(s, slot); }
    forall a | a in t.builds ensures BuildOk(t, a) { assert BuildOk(s, a); }
    forall i | 0 <= i < |t.answers| ensures AnswerOk(t, t.answers[i]) {
      assert i < |s.answers| ==> AnswerOk(s, s.answers[i]);
    }
  }

  lemma BuildersEnterEmpty(s: State, c: Caller)
    requires BuildersOk(s) && Enabled(s, Enter(c)) && s.cells[s.PcOf(c).slot].Empty?
    ensures BuildersOk(Step(s, Enter(c)))
  {
    var t := Step(s, Enter(c));
    forall d | d in t.pcs ensures CallerOk(t, d) { assert CallerOk(s, d); }
    forall slot | slot in t.cells ensures CellOk(t, slot) { assert CellOk(s, slot); }
    forall a | a in t.builds ensures BuildOk(t, a) { assert BuildOk(s, a); }
    forall i | 0 <= i < |t.answers| ensures AnswerOk(t, t.answers[i]) { assert AnswerOk(s, s.answers[i]); }
  }

  lemma BuildersFactoryOk(s: State, c: Caller, a: Agent)
    requires SlotsOk(s) && BuildersOk(s) && Enabled(s, FactoryOk(c, a))
    ensures BuildersOk(Step(s, FactoryOk(c, a)))
  {
    var t := Step(s, FactoryOk(c, a));
    assert CallerOk(s, c);
    forall d | d in t.pcs ensures CallerOk(t, d) { assert CallerOk(s, d); }
    forall slot | slot in t.cells ensures CellOk(t, slot) { assert CellOk(s, slot); }
    forall b | b in t.builds ensures BuildOk(t, b) { assert b != a ==> BuildOk(s, b); }
    forall i | 0 <= i < |t.answers| ensures AnswerOk(t, t.answers[i]) {
      assert i < |s.answers| ==> AnswerOk(s, s.answers[i]);
    }
  }

  lemma BuildersFactoryErr(s: State, c: Caller)
    requires SlotsOk(s) && BuildersOk(s) && Enabled(s, FactoryErr(c))
    ensures BuildersOk(Step(s, FactoryErr(c)))
  {
    var t := Step(s, FactoryErr(c));
    assert CallerOk(s, c);
    forall d | d in t.pcs ensures CallerOk(t, d) { assert CallerOk(s, d); }
    forall slot | slot in t.cells ensures CellOk(t, slot) { assert CellOk(s, slot); }
    forall b | b in t.builds ensures BuildOk(t, b) { assert BuildOk(s, b); }
    forall i | 0 <= i < |t.answers| ensures AnswerOk(t, t.answers[i]) { assert AnswerOk(s, s.answers[i]); }
  }

  // Removals: a take opens an account, a decision on the taken value closes it.

  /** A cell may only move on: to a new attempt, to a failure, to the value of the running attempt. */
  predicate UpdateOk(s: State, t: State, slot: Slot)
    requires slot in s.cells
  {
    slot in t.cells &&
    match (s.cells[slot], t.cells[slot])
    case (Empty, Initialising(now, _)) => now == s.nextAttempt < t.nextAttempt
    case (Initialising(_, _), Empty) => true
    case (Initialising(was, _), Set(a)) => a in t.builds && t.builds[a].attempt == was
    case (before, after) => before == after
  }

  /** Actions outside a removal leave every removal account as it was. */
  lemma RemovalsFrame(s: State, t: State, c: Caller)
    requires Inv(s) && t.cells.Keys >= s.cells.Keys
    requires t.taken == s.taken && t.abandoned == s.abandoned && t.resolved == s.resolved && t.kills == s.kills
    requires s.nextAttempt <= t.nextAttempt
    requires t.pcs == s.pcs[c := t.PcOf(c)]
    requires !s.PcOf(c).Inspecting? && !s.PcOf(c).KillPending? && !t.PcOf(c).Inspecting? && !t.PcOf(c).KillPending?
    requires forall slot :: slot in s.cells ==> UpdateOk(s, t, slot)
    requires forall a :: a in s.builds ==> a in t.builds && t.builds[a] == s.builds[a]
    requires forall a :: a in t.builds && a !in s.builds ==> t.builds[a].slot in s.cells && !s.cells[t.builds[a].slot].Set?
    ensures RemovalsOk(t)
  {
    forall slot ensures Owed(t, slot) == Owed(s, slot) {}
    forall slot | slot in t.taken && slot in t.cells ensures TakenOk(t, slot) {
      assert TakenOk(s, slot) && UpdateOk(s, t, slot);
    }
    forall a ensures KillsOk(t, a) {
      assert KillsOk(s, a);
      if a in t.builds && a !in s.builds && t.builds[a].slot in s.taken {
        assert TakenOk(s, t.builds[a].slot);
      }
    }
  }

  /** Taking a slot opens its account: its remover owes a decision. */
  lemma RemovalsOpen(s: State, t: State, c: Caller, mine: Slot)
    requires RemovalsOk(s) && mine in s.cells && mine !in s.taken && CellOk(s, mine)
    requires !s.PcOf(c).Inspecting? && !s.PcOf(c).KillPending? && t.PcOf(c).Inspecting? && t.PcOf(c).slot == mine
    requires t == s.(pcs := s.pcs[c := t.PcOf(c)], tasks := t.tasks, removals := t.removals,
                     taken := s.taken[mine := Removal(c, t.PcOf(c).next, s.cells[mine])])
    ensures RemovalsOk(t)
  {
    forall slot | slot in s.taken ensures Owed(t, slot) == Owed(s, slot) {}
    forall slot | slot in t.taken && slot in t.cells ensures TakenOk(t, slot) {
      assert slot in s.taken ==> TakenOk(s, slot);
    }
    forall a ensures KillsOk(t, a) {
      assert KillsOk(s, a);
    }
  }

  lemma RemovalsTake(s: State, c: Caller)
    requires Inv(s) && Enabled(s, Take(c))
    ensures RemovalsOk(Step(s, Take(c)))
  {
    var t := Step(s, Take(c));
    if t.tasks == s.tasks {
      RemovalsFrame(s, t, c);
    } else {
      var mine := s.tasks[s.PcOf(c).conv];
      assert SlotOk(s, mine) && CellOk(s, mine) && TaskOk(s, s.PcOf(c).conv);
      assert mine !in s.taken && t.taken == s.taken[mine := Removal(c, s.PcOf(c).next, s.cells[mine])];
      RemovalsOpen(s, t, c, mine);
    }
  }

  /** A remover looks at the cell it took: it kills the value, keeps waiting, or gives the slot up. */
  predicate Decides(s: State, t: State, c: Caller) {
    && (s.PcOf(c).Inspecting? || s.PcOf(c).KillPending?)
    && !t.PcOf(c).Inspecting? && !t.PcOf(c).Building? && !t.PcOf(c).Waiting?
    && t == s.(pcs := s.pcs[c := t.PcOf(c)], kills := t.kills, abandoned := t.abandoned, resolved := t.resolved)
    && var mine := s.PcOf(c).slot;
    mine in s.cells &&
    var cell := s.cells[mine];
    if cell.Set? then
      && t.kills == s.kills + multiset{cell.agent} && t.abandoned == s.abandoned && t.resolved == s.resolved
      && !t.PcOf(c).KillPending?
      && (t.PcOf(c).Terminating? ==> t.PcOf(c) == Terminating(mine, cell.agent))
    else if t.PcOf(c).KillPending? then
      && t.PcOf(c).slot == mine && t.kills == s.kills && t.abandoned == s.abandoned && t.resolved == s.resolved
      && s.PcOf(c).Inspecting? && s.PcOf(c).next.AfterKillAndWait?
    else
      && !t.PcOf(c).Terminating? && t.kills == s.kills && t.abandoned == s.abandoned + {mine}
      && (t.resolved == s.resolved || t.resolved == s.resolved + {mine})
      && (if s.PcOf(c).KillPending? then cell.Empty? else !s.PcOf(c).next.AfterKillAndWait?)
  }

  /** A decision changes what is owed for the remover's own slot only. */
  lemma OwedElsewhere(s: State, t: State, c: Caller, slot: Slot)
    requires Decides(s, t, c) && slot != s.PcOf(c).slot
    ensures Owed(t, slot) == Owed(s, slot)
  {
  }

  lemma DecisionTaken(s: State, t: State, c: Caller, slot: Slot)
    requires Decides(s, t, c) && c in s.pcs && CallerOk(s, c)
    requires slot in s.taken && slot in s.cells && TakenOk(s, slot)
    ensures TakenOk(t, slot)
  {
    if slot != s.PcOf(c).slot { OwedElsewhere(s, t, c, slot); }
  }

  lemma DecisionKills(s: State, t: State, c: Caller, a: Agent)
    requires Decides(s, t, c) && c in s.pcs && CallerOk(s, c)
    requires CellOk(s, s.PcOf(c).slot) && TakenOk(s, s.PcOf(c).slot)
    requires KillsOk(s, a) && (a in s.builds ==> BuildOk(s, a))
    ensures KillsOk(t, a)
  {
    if a in s.builds && s.builds[a].slot != s.PcOf(c).slot { OwedElsewhere(s, t, c, s.builds[a].slot); }
  }

  lemma RemovalsDecision(s: State, t: State, c: Caller)
    requires Inv(s) && Decides(s, t, c)
    ensures RemovalsOk(t)
  {
    var mine := s.PcOf(c).slot;
    assert CallerOk(s, c) && CellOk(s, mine) && TakenOk(s, mine);
    forall slot | slot in t.taken && slot in t.cells ensures TakenOk(t, slot) {
      DecisionTaken(s, t, c, slot);
    }
    forall a ensures KillsOk(t, a) {
      assert a in s.builds ==> BuildOk(s, a);
      DecisionKills(s, t, c, a);
    }
  }

  lemma DecisionInv(s: State, t: State, c: Caller)
    requires Inv(s) && Decides(s, t, c)
    ensures Inv(t)
  {
    assert CallerOk(s, c) && TakenOk(s, s.PcOf(c).slot);
    SlotsFrame(s, t);
    BuildersFrame(s, t, c);
    RemovalsDecision(s, t, c);
  }

  lemma RemovalsResolved(s: State, t: State, c: Caller)
    requires RemovalsOk(s) && s.PcOf(c).Terminating? && s.PcOf(c).slot in s.taken
    requires t == s.(pcs := s.pcs[c := Idle], resolved := s.resolved + {s.PcOf(c).slot})
    requires s.taken[s.PcOf(c).slot].taker == c
    ensures RemovalsOk(t)
  {
    forall slot ensures Owed(t, slot) == Owed(s, slot) {}
    forall slot | slot in t.taken && slot in t.cells ensures TakenOk(t, slot) {
      assert TakenOk(s, slot);
    }
    forall a ensures KillsOk(t, a) {
      assert KillsOk(s, a);
    }
  }

  lemma RemovalsTerminated(s: State, c: Caller)
    requires Inv(s) && Enabled(s, Terminated(c))
    ensures RemovalsOk(Step(s, Terminated(c)))
  {
    assert CallerOk(s, c);
    RemovalsResolved(s, Step(s, Terminated(c)), c);
  }

  // Actions of a caller outside the once-cells and the removals move only that caller.

  lemma BeginInv(s: State, c: Caller, op: Operation)
    requires Inv(s) && Enabled(s, Begin(c, op))
    ensures Inv(Step(s, Begin(c, op)))
  {
    MoveInv(s, c, Entry(op));
  }

  lemma CheckInv(s: State, c: Caller)
    requires Inv(s) && Enabled(s, Check(c))
    ensures Inv(Step(s, Check(c)))
  {
    MoveInv(s, c, Step(s, Check(c)).PcOf(c));
  }

  lemma NextKeyInv(s: State, c: Caller)
    requires Inv(s) && Enabled(s, NextKey(c))
    ensures Inv(Step(s, NextKey(c)))
  {
    MoveInv(s, c, Step(s, NextKey(c)).PcOf(c));
  }

  lemma MoveInv(s: State, c: Caller, pc: Pc)
    requires Inv(s) && (s.PcOf(c).Idle? || s.PcOf(c).Checking? || s.PcOf(c).Clearing? || s.PcOf(c).Taking?)
    requires pc.Idle? || pc.Checking? || pc.Clearing? || pc.Taking? || pc.Locating?
    ensures Inv(s.At(c, pc))
  {
    var t := s.At(c, pc);
    SlotsFrame(s, t);
    BuildersFrame(s, t, c);
    RemovalsFrame(s, t, c);
  }

  lemma LocateInv(s: State, c: Caller)
    requires Inv(s) && Enabled(s, Locate(c))
    ensures Inv(Step(s, Locate(c)))
  {
    SlotsLocate(s, c);
    BuildersLocate(s, c);
    RemovalsLocate(s, c);
  }

  lemma RemovalsLocateStep(s: State, c: Caller, conv: ConvId, want: RuntimeCapabilities)
    requires Inv(s) && s.PcOf(c).Locating?
    ensures RemovalsOk(LocateStep(s, c, conv, want))
  {
    if conv !in s.tasks { MintIsFresh(s, conv); }
    RemovalsFrame(s, LocateStep(s, c, conv, want), c);
  }

  lemma RemovalsLocate(s: State, c: Caller)
    requires Inv(s) && Enabled(s, Locate(c))
    ensures RemovalsOk(Step(s, Locate(c)))
  {
    RemovalsLocateStep(s, c, s.PcOf(c).conv, s.PcOf(c).want);
  }

  lemma EnterInv(s: State, c: Caller)
    requires Inv(s) && Enabled(s, Enter(c))
    ensures Inv(Step(s, Enter(c)))
  {
    SlotsFrame(s, Step(s, Enter(c)));
    if s.cells[s.PcOf(c).slot].Set? {
      BuildersEnterSet(s, c);
      RemovalsEnterSet(s, c);
    } else {
      BuildersEnterEmpty(s, c);
      RemovalsEnterEmpty(s, c);
    }
  }

  lemma RemovalsEnterSet(s: State, c: Caller)
    requires Inv(s) && Enabled(s, Enter(c)) && s.cells[s.PcOf(c).slot].Set?
    ensures RemovalsOk(Step(s, Enter(c)))
  {
    RemovalsFrame(s, Step(s, Enter(c)), c);
  }

  lemma RemovalsEnterEmpty(s: State, c: Caller)
    requires Inv(s) && Enabled(s, Enter(c)) && s.cells[s.PcOf(c).slot].Empty?
    ensures RemovalsOk(Step(s, Enter(c)))
  {
    RemovalsFrame(s, Step(s, Enter(c)), c);
  }

  lemma FactoryOkInv(s: State, c: Caller, a: Agent)
    requires Inv(s) && Enabled(s, FactoryOk(c, a))
    ensures Inv(Step(s, FactoryOk(c, a)))
  {
    assert CallerOk(s, c);
    SlotsFrame(s, Step(s, FactoryOk(c, a)));
    BuildersFactoryOk(s, c, a);
    RemovalsFactoryOk(s, c, a);
  }

  lemma RemovalsFactoryOk(s: State, c: Caller, a: Agent)
    requires Inv(s) && Enabled(s, FactoryOk(c, a))
    ensures RemovalsOk(Step(s, FactoryOk(c, a)))
  {
    assert CallerOk(s, c);
    RemovalsFrame(s, Step(s, FactoryOk(c, a)), c);
  }

  lemma FactoryErrInv(s: State, c: Caller)
    requires Inv(s) && Enabled(s, FactoryErr(c))
    ensures Inv(Step(s, FactoryErr(c)))
  {
    var t := Step(s, FactoryErr(c));
    assert CallerOk(s, c);
    SlotsFrame(s, t);
    BuildersFactoryErr(s, c);
    RemovalsFrame(s, t, c);
  }

  lemma TakeInv(s: State, c: Caller)
    requires Inv(s) && Enabled(s, Take(c))
    ensures Inv(Step(s, Take(c)))
  {
    if s.PcOf(c).conv in s.tasks {
      SlotsTake(s, c);
      BuildersTake(s, c);
      RemovalsTake(s, c);
    } else {
      MoveInv(s, c, Resume(s.PcOf(c).next, true));
    }
  }

  lemma InspectDecides(s: State, c: Caller, ok: bool)
    requires Enabled(s, Inspect(c, ok))
    ensures Decides(s, Step(s, Inspect(c, ok)), c)
  {
  }

  lemma InspectInv(s: State, c: Caller, ok: bool)
    requires Inv(s) && Enabled(s, Inspect(c, ok))
    ensures Inv(Step(s, Inspect(c, ok)))
  {
    InspectDecides(s, c, ok);
    DecisionInv(s, Step(s, Inspect(c, ok)), c);
  }

  lemma ResolveInv(s: State, c: Caller)
    requires Inv(s) && Enabled(s, Resolve(c))
    ensures Inv(Step(s, Resolve(c)))
  {
    DecisionInv(s, Step(s, Resolve(c)), c);
  }

  lemma TerminatedInv(s: State, c: Caller)
    requires Inv(s) && Enabled(s, Terminated(c))
    ensures Inv(Step(s, Terminated(c)))
  {
    var t := Step(s, Terminated(c));
    SlotsFrame(s, t);
    BuildersFrame(s, t, c);
    RemovalsTerminated(s, c);
  }

  lemma StepInv(s: State, e: Event)
    requires Inv(s) && Enabled(s, e)
    ensures Inv(Step(s, e))
  {
    match e
    case Begin(c, op) => BeginInv(s, c, op);
    case Check(c) => CheckInv(s, c);
    case Locate(c) => LocateInv(s, c);
    case Enter(c) => EnterInv(s, c);
    case FactoryOk(c, a) => FactoryOkInv(s, c, a);
    case FactoryErr(c) => FactoryErrInv(s, c);
    case Take(c) => TakeInv(s, c);
    case Inspect(c, ok) => InspectInv(s, c, ok);
    case NextKey(c) => NextKeyInv(s, c);
    case Resolve(c) => ResolveInv(s, c);
    case Terminated(c) => TerminatedInv(s, c);
  }

  lemma {:induction false} RunInv(s: State, es: seq<Event>)
    requires Inv(s) && IsRun(s, es)
    ensures Inv(Exec(s, es))
    decreases |es|
  {
    if es != [] {
      StepInv(s, es[0]);
      RunInv(Step(s, es[0]), es[1..]);
    }
  }
}
