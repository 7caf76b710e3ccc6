/** What each call does from the moment it begins, told on the events of its caller alone. */
module TaskCalls {
  import opened Common
  import opened Types
  import opened TaskLifecycle
  import opened TaskSafety
  import opened TaskLookups
  import opened TaskOrphans

  /** The state before event `k` of a run. */
  function Before(es: seq<Event>, k: nat): State
    requires IsRun(INIT, es) && k <= |es|
  {
    RunSplit(INIT, es, k);
    Exec(INIT, es[..k])
  }

  /** Caller `c` begins `op` at `b` and begins nothing else from then on. */
  predicate Serves(es: seq<Event>, b: nat, c: Caller, op: Operation) {
    b < |es| && es[b] == Begin(c, op) && forall j :: b < j < |es| && es[j].caller == c ==> !es[j].Begin?
  }

  /** The conversations a call is to remove. */
  predicate Targets(op: Operation, conv: ConvId) {
    match op
    case GetOrBuild(_, _) => false
    case Kill(k) => conv == k
    case KillAndWait(k) => conv == k
    case Clear(keys) => conv in keys
  }

  /** A call may remove its targets, and get-or-build its own conversation. */
  predicate MayRemove(op: Operation, conv: ConvId) {
    Targets(op, conv) || (op.GetOrBuild? && conv == op.conv)
  }

  /** Since `b` caller `c` has taken `conv` out of the map, or found it missing. */
  ghost predicate TakenSince(es: seq<Event>, b: nat, c: Caller, conv: ConvId)
    requires IsRun(INIT, es)
  {
    exists k: nat :: b < k < |es| && es[k] == Take(c) && Before(es, k).PcOf(c).Taking? && Before(es, k).PcOf(c).conv == conv
  }

  // ---------------------------------------------------------------- where a call can stand

  predicate NextFits(next: Next, op: Operation) {
    match op
    case GetOrBuild(conv, want) => next == AfterRebuild(conv, want)
    case Kill(_) => next.AfterKill?
    case KillAndWait(_) => next.AfterKillAndWait?
    case Clear(keys) => next.AfterClear? && forall k :: k in next.rest ==> k in keys
  }

  predicate PcFits(pc: Pc, op: Operation) {
    match pc
    case Idle => true
    case Checking(conv, want) => op == GetOrBuild(conv, want)
    case Locating(conv, want) => op == GetOrBuild(conv, want)
    case Waiting(want, slot) => op == GetOrBuild(slot.conv, want)
    case Building(want, slot, _) => op == GetOrBuild(slot.conv, want)
    case Taking(conv, next) => NextFits(next, op) && MayRemove(op, conv)
    case Inspecting(_, next) => NextFits(next, op)
    case Clearing(rest) => op.Clear? && forall k :: k in rest ==> k in op.keys
    case KillPending(_) => op.KillAndWait?
    case Terminating(_, _) => op.KillAndWait?
  }

  /** The targets that a call at `pc` has yet to take. */
  predicate Due(pc: Pc, conv: ConvId) {
    match pc
    case Taking(k, next) => conv == k || (next.AfterClear? && conv in next.rest)
    case Inspecting(_, next) => next.AfterClear? && conv in next.rest
    case Clearing(rest) => conv in rest
    case _ => false
  }

  /** A step of a call leads from where it fits to where it fits. */
  ghost predicate StaysFit(s: State, e: Event, t: State, op: Operation) {
    PcFits(s.PcOf(e.caller), op) ==> PcFits(t.PcOf(e.caller), op)
  }

  /** Only a take strikes a target off. */
  ghost predicate StaysDue(s: State, e: Event, t: State, conv: ConvId) {
    Due(s.PcOf(e.caller), conv) ==>
      Due(t.PcOf(e.caller), conv) || (e.Take? && s.PcOf(e.caller).Taking? && s.PcOf(e.caller).conv == conv)
  }

  lemma FitsStart(s: State, e: Event, t: State, op: Operation, conv: ConvId)
    requires Enabled(s, e) && t == Step(s, e) && e.Check?
    ensures StaysFit(s, e, t, op) && StaysDue(s, e, t, conv)
  {
  }

  lemma FitsLocate(s: State, e: Event, t: State, op: Operation, conv: ConvId)
    requires SlotsOk(s) && Enabled(s, e) && t == Step(s, e) && e.Locate?
    ensures StaysFit(s, e, t, op) && StaysDue(s, e, t, conv)
  {
    assert s.PcOf(e.caller).conv in s.tasks ==> TaskOk(s, s.PcOf(e.caller).conv);
  }

  lemma FitsEnter(s: State, e: Event, t: State, op: Operation, conv: ConvId)
    requires Enabled(s, e) && t == Step(s, e) && e.Enter?
    ensures StaysFit(s, e, t, op) && StaysDue(s, e, t, conv)
  {
  }

  lemma FitsTake(s: State, e: Event, t: State, op: Operation, conv: ConvId)
    requires Enabled(s, e) && t == Step(s, e) && e.Take?
    ensures StaysFit(s, e, t, op) && StaysDue(s, e, t, conv)
  {
    var pc := s.PcOf(e.caller);
    assert t.PcOf(e.caller) == Resume(pc.next, true) || t.PcOf(e.caller) == Inspecting(s.tasks[pc.conv], pc.next);
    FitsResume(pc.next, true, op, conv);
  }

  lemma FitsResume(next: Next, ok: bool, op: Operation, conv: ConvId)
    ensures NextFits(next, op) ==> PcFits(Resume(next, ok), op)
    ensures next.AfterClear? && conv in next.rest ==> Due(Resume(next, ok), conv)
  {
  }

  lemma FitsInspect(s: State, e: Event, t: State, op: Operation, conv: ConvId)
    requires Enabled(s, e) && t == Step(s, e) && e.Inspect?
    ensures StaysFit(s, e, t, op) && StaysDue(s, e, t, conv)
  {
    var was := s.PcOf(e.caller);
    var pc := InspectPc(s, e.caller, was.slot, was.next, e.killOk);
    FitsResume(was.next, true, op, conv);
    FitsResume(was.next, e.killOk, op, conv);
  }

  lemma InspectPc(s: State, c: Caller, slot: Slot, next: Next, ok: bool) returns (pc: Pc)
    requires slot in s.cells
    ensures InspectStep(s, c, slot, next, ok).PcOf(c) == pc
    ensures if next.AfterKillAndWait? then pc.Terminating? || pc.KillPending?
            else pc == Resume(next, true) || pc == Resume(next, ok)
  {
    var cell := s.cells[slot];
    if cell.Set? {
      pc := if next.AfterKillAndWait? then Terminating(slot, cell.agent) else Resume(next, ok);
    } else {
      pc := if next.AfterKillAndWait? then KillPending(slot) else Resume(next, true);
    }
  }

  lemma FitsNextKey(s: State, e: Event, t: State, op: Operation, conv: ConvId)
    requires Enabled(s, e) && t == Step(s, e) && e.NextKey?
    ensures StaysFit(s, e, t, op) && StaysDue(s, e, t, conv)
  {
    var rest := s.PcOf(e.caller).rest;
    if rest != [] {
      assert rest == [rest[0]] + rest[1..];
      assert t.PcOf(e.caller) == Taking(rest[0], AfterClear(rest[1..]));
    }
  }

  lemma FitsResolve(s: State, e: Event, t: State, op: Operation, conv: ConvId)
    requires Enabled(s, e) && t == Step(s, e) && e.Resolve?
    ensures StaysFit(s, e, t, op) && StaysDue(s, e, t, conv)
  {
    assert t.PcOf(e.caller).Idle? || t.PcOf(e.caller).Terminating?;
  }

  lemma FitsEnd(s: State, e: Event, t: State, op: Operation, conv: ConvId)
    requires Enabled(s, e) && t == Step(s, e) && (e.FactoryOk? || e.FactoryErr? || e.Terminated?)
    ensures StaysFit(s, e, t, op) && StaysDue(s, e, t, conv)
  {
    assert t.PcOf(e.caller) == Idle;
  }

  lemma StepFits(s: State, e: Event, t: State, op: Operation, conv: ConvId)
    requires SlotsOk(s) && Enabled(s, e) && t == Step(s, e) && !e.Begin?
    ensures StaysFit(s, e, t, op) && StaysDue(s, e, t, conv)
  {
    match e
    case Check(_) => FitsStart(s, e, t, op, conv);
    case Locate(_) => FitsLocate(s, e, t, op, conv);
    case Enter(_) => FitsEnter(s, e, t, op, conv);
    case Take(_) => FitsTake(s, e, t, op, conv);
    case Inspect(_, _) => FitsInspect(s, e, t, op, conv);
    case NextKey(_) => FitsNextKey(s, e, t, op, conv);
    case Resolve(_) => FitsResolve(s, e, t, op, conv);
    case _ => FitsEnd(s, e, t, op, conv);
  }

  /** What a call looks like right after it began. */
  lemma BeginFits(s: State, c: Caller, op: Operation, conv: ConvId)
    requires Enabled(s, Begin(c, op))
    ensures var pc := Step(s, Begin(c, op)).PcOf(c);
            PcFits(pc, op) && (Targets(op, conv) ==> Due(pc, conv))
  {
  }

  // ---------------------------------------------------------------- along a call

  /** One event more of a run. */
  lemma LastStep(es: seq<Event>)
    requires IsRun(INIT, es) && es != []
    ensures var n := |es| - 1;
            && IsRun(INIT, es[..n]) && Enabled(Before(es, n), es[n]) && Exec(INIT, es[..n]) == Before(es, n)
            && Exec(INIT, es) == Step(Before(es, n), es[n]) && Inv(Before(es, n))
  {
    var n := |es| - 1;
    RunSplit(INIT, es, n);
    assert es[n..] == [es[n]] && [es[n]][1..] == [];
    InitInv();
    RunInv(INIT, es[..n]);
  }

  /** A caller stands where another one's event leaves it. */
  lemma OtherStays(s: State, e: Event, t: State, c: Caller)
    requires Enabled(s, e) && t == Step(s, e) && e.caller != c
    ensures t.PcOf(c) == s.PcOf(c)
  {
    StepTracks(s, e, t);
  }

  lemma {:induction false} CallFits(es: seq<Event>, b: nat, c: Caller, op: Operation)
    requires IsRun(INIT, es) && Serves(es, b, c, op)
    ensures PcFits(Exec(INIT, es).PcOf(c), op)
    decreases |es|
  {
    var n := |es| - 1;
    LastStep(es);
    var s, t := Before(es, n), Exec(INIT, es);
    if b == n {
      BeginFits(s, c, op, "");
    } else {
      CallFits(es[..n], b, c, op);
      if es[n].caller == c { StepFits(s, es[n], t, op, ""); } else { OtherStays(s, es[n], t, c); }
    }
  }

  /** An earlier part of a call. */
  lemma ServesEarlier(es: seq<Event>, b: nat, c: Caller, op: Operation, k: nat)
    requires IsRun(INIT, es) && Serves(es, b, c, op) && b < k <= |es|
    ensures IsRun(INIT, es[..k]) && Serves(es[..k], b, c, op) && Exec(INIT, es[..k]) == Before(es, k)
  {
    RunSplit(INIT, es, k);
  }

  lemma TakenStaysSince(es: seq<Event>, b: nat, c: Caller, conv: ConvId)
    requires IsRun(INIT, es) && es != [] && IsRun(INIT, es[..|es| - 1])
    requires TakenSince(es[..|es| - 1], b, c, conv)
    ensures TakenSince(es, b, c, conv)
  {
    var front := es[..|es| - 1];
    var k: nat :| b < k < |front| && front[k] == Take(c) && Before(front, k).PcOf(c).Taking?
                  && Before(front, k).PcOf(c).conv == conv;
    assert front[..k] == es[..k];
  }

  /** Each target of a call is due, or has been taken. */
  lemma {:induction false} TargetsDueOrTaken(es: seq<Event>, b: nat, c: Caller, op: Operation, conv: ConvId)
    requires IsRun(INIT, es) && Serves(es, b, c, op) && Targets(op, conv)
    ensures Due(Exec(INIT, es).PcOf(c), conv) || TakenSince(es, b, c, conv)
    decreases |es|
  {
    var n := |es| - 1;
    LastStep(es);
    var s, t := Before(es, n), Exec(INIT, es);
    if b == n {
      BeginFits(s, c, op, conv);
    } else {
      TargetsDueOrTaken(es[..n], b, c, op, conv);
      if TakenSince(es[..n], b, c, conv) {
        TakenStaysSince(es, b, c, conv);
      } else if es[n].caller == c {
        StepFits(s, es[n], t, op, conv);
      } else {
        OtherStays(s, es[n], t, c);
      }
    }
  }

  // ---------------------------------------------------------------- calls that remove

  /** What a take does: its conversation is not in the map afterwards, and no other one is touched. */
  lemma TakeRemoves(s: State, c: Caller, conv: ConvId)
    requires SlotsOk(s) && Enabled(s, Take(c))
    ensures var t := Step(s, Take(c));
            if conv == s.PcOf(c).conv then conv !in t.tasks
            else (conv in t.tasks <==> conv in s.tasks) && (conv in s.tasks ==> t.tasks[conv] == s.tasks[conv])
  {
    assert s.PcOf(c).conv in s.tasks ==> TaskOk(s, s.PcOf(c).conv);
  }

  /**
   A kill, an awaited kill or a clear that is over has taken each of its conversations out of the map: right after
   some event of the call it was not there.
   */
  lemma CallRemovesItsTargets(es: seq<Event>, b: nat, c: Caller, op: Operation, conv: ConvId) returns (k: nat)
    requires IsRun(INIT, es) && Serves(es, b, c, op) && Exec(INIT, es).PcOf(c).Idle?
    requires match op
             case GetOrBuild(_, _) => false
             case Kill(id) => conv == id
             case KillAndWait(id) => conv == id
             case Clear(keys) => conv in keys
    ensures b < k < |es| && es[k] == Take(c) && conv !in Before(es, k + 1).tasks
  {
    TargetsDueOrTaken(es, b, c, op, conv);
    k :| b < k < |es| && es[k] == Take(c) && Before(es, k).PcOf(c).Taking? && Before(es, k).PcOf(c).conv == conv;
    BeforeNext(es, k);
    TakeRemoves(Before(es, k), c, conv);
  }

  lemma BeforeNext(es: seq<Event>, k: nat)
    requires IsRun(INIT, es) && k < |es|
    ensures Enabled(Before(es, k), es[k]) && Before(es, k + 1) == Step(Before(es, k), es[k]) && Inv(Before(es, k))
  {
    RunSplit(INIT, es, k + 1);
    LastStep(es[..k + 1]);
    assert es[..k + 1][..k] == es[..k];
  }

  /** A call removes no conversation that it was not asked to remove, or to look up. */
  lemma CallRemovesNothingElse(es: seq<Event>, b: nat, c: Caller, op: Operation, k: nat, conv: ConvId)
    requires IsRun(INIT, es) && Serves(es, b, c, op) && b < k < |es| && es[k].caller == c
    requires conv in Before(es, k).tasks && conv !in Before(es, k + 1).tasks
    ensures match op
            case GetOrBuild(id, _) => conv == id
            case Kill(id) => conv == id
            case KillAndWait(id) => conv == id
            case Clear(keys) => conv in keys
  {
    ServesEarlier(es, b, c, op, k);
    CallFits(es[..k], b, c, op);
    BeforeNext(es, k);
    var s := Before(es, k);
    if es[k].Take? { TakeRemoves(s, c, conv); } else { TasksStay(s, es[k], conv); }
  }

  lemma TasksStay(s: State, e: Event, conv: ConvId)
    requires Enabled(s, e) && !e.Take? && conv in s.tasks
    ensures conv in Step(s, e).tasks
  {
    var pc := s.PcOf(e.caller);
    match e
    case Inspect(c, ok) => InspectKeepsTasks(s, c, pc.slot, pc.next, ok);
    case Enter(c) => EnterKeepsTasks(s, c, pc);
    case _ =>
  }

  lemma InspectKeepsTasks(s: State, c: Caller, slot: Slot, next: Next, ok: bool)
    requires slot in s.cells
    ensures InspectStep(s, c, slot, next, ok).tasks == s.tasks
  {
  }

  lemma EnterKeepsTasks(s: State, c: Caller, pc: Pc)
    requires pc.Waiting? && pc.slot in s.cells
    ensures EnterStep(s, c, pc).tasks == s.tasks
  {
  }

  /** Only an awaited kill waits for a build or for an agent to terminate; only get-or-build waits to build. */
  lemma OnlyAwaitedKillsWait(es: seq<Event>, b: nat, c: Caller, op: Operation)
    requires IsRun(INIT, es) && Serves(es, b, c, op)
    ensures var pc := Exec(INIT, es).PcOf(c);
            && (pc.KillPending? || pc.Terminating? ==> op.KillAndWait?)
            && (pc.Waiting? || pc.Building? ==> op.GetOrBuild?)
  {
    CallFits(es, b, c, op);
  }

  /** The history of a take that finds its conversation. */
  lemma TakeIsRemembered(es: seq<Event>, k: nat, c: Caller, conv: ConvId)
    requires IsRun(INIT, es) && k < |es| && es[k] == Take(c) && Before(es, k).PcOf(c).Taking?
    requires Before(es, k).PcOf(c).conv == conv && conv in Before(es, k).tasks
    ensures var s, t := Before(es, k), Exec(INIT, es);
            var slot := s.tasks[conv];
            && Inv(t) && slot in s.cells && slot in t.cells && slot in t.taken
            && t.taken[slot] == Removal(c, s.PcOf(c).next, s.cells[slot])
  {
    var s := Before(es, k);
    BeforeNext(es, k);
    assert TaskOk(s, conv);
    TakeLeaves(s, c, conv, s.PcOf(c).next, Step(s, Take(c)));
    RunSplit(INIT, es, k + 1);
    StepInv(s, Take(c));
    TakenForever(Before(es, k + 1), es[k + 1..], s.tasks[conv]);
    RunInv(Before(es, k + 1), es[k + 1..]);
  }

  /** A removal that hits a value has killed it once when its caller is idle again. */
  lemma RemovedValueIsKilled(es: seq<Event>, b: nat, c: Caller, op: Operation, k: nat, conv: ConvId, a: Agent)
    requires IsRun(INIT, es) && Serves(es, b, c, op) && b < k < |es| && es[k] == Take(c)
    requires var s := Before(es, k);
             && conv in s.tasks && conv !in Before(es, k + 1).tasks
             && s.tasks[conv] in s.cells && s.cells[s.tasks[conv]] == Set(a)
    requires Exec(INIT, es).PcOf(c).Idle?
    ensures Exec(INIT, es).kills[a] == 1
  {
    BeforeNext(es, k);
    TakeRemoves(Before(es, k), c, conv);
    TakeIsRemembered(es, k, c, conv);
    FoundValueIsKilled(Exec(INIT, es), Before(es, k).tasks[conv], a);
  }

  lemma FoundValueIsKilled(t: State, slot: Slot, a: Agent)
    requires Inv(t) && slot in t.taken && slot in t.cells && t.PcOf(t.taken[slot].taker).Idle?
    requires t.taken[slot].found == Set(a)
    ensures t.kills[a] == 1
  {
    assert TakenOk(t, slot) && CellOk(t, slot) && KillsOk(t, a);
  }

  /**
   An awaited kill that meets a running build: once the call is over, the agent of that build, if it succeeded, has
   been killed exactly once.
   */
  lemma AwaitedKillKills(es: seq<Event>, b: nat, c: Caller, conv: ConvId, k: nat, a: Agent)
    requires IsRun(INIT, es) && Serves(es, b, c, KillAndWait(conv)) && b < k < |es| && es[k] == Take(c)
    requires var s := Before(es, k);
             conv in s.tasks && s.tasks[conv] in s.cells && s.cells[s.tasks[conv]].Initialising?
    requires var s, t := Before(es, k), Exec(INIT, es);
             && a in t.builds && t.builds[a].slot == s.tasks[conv]
             && t.builds[a].attempt == s.cells[s.tasks[conv]].attempt
             && t.PcOf(c).Idle?
    ensures Exec(INIT, es).kills[a] == 1
  {
    ServesEarlier(es, b, c, KillAndWait(conv), k);
    CallFits(es[..k], b, c, KillAndWait(conv));
    BeforeNext(es, k);
    TakeIsRemembered(es, k, c, conv);
    MetBuildIsKilled(Exec(INIT, es), Before(es, k).tasks[conv], a);
  }

  /** The agent of the attempt that an awaited kill met, once its remover is idle. */
  lemma MetBuildIsKilled(t: State, slot: Slot, a: Agent)
    requires Inv(t) && slot in t.taken && slot in t.cells && t.PcOf(t.taken[slot].taker).Idle?
    requires t.taken[slot].next.AfterKillAndWait? && t.taken[slot].found.Initialising?
    requires a in t.builds && t.builds[a].slot == slot && t.builds[a].attempt == t.taken[slot].found.attempt
    ensures t.kills[a] == 1
  {
    assert BuildOk(t, a) && TakenOk(t, slot) && KillsOk(t, a);
  }

  // ---------------------------------------------------------------- calls that build

  /** Between two consecutive events of a caller it stays where it is. */
  lemma {:induction false} CallerRests(es: seq<Event>, c: Caller, i: nat, j: nat)
    requires IsRun(INIT, es) && i <= j <= |es| && forall m :: i <= m < j ==> es[m].caller != c
    ensures Before(es, j).PcOf(c) == Before(es, i).PcOf(c)
    decreases j
  {
    if i < j {
      CallerRests(es, c, i, j - 1);
      BeforeNext(es, j - 1);
      OtherStays(Before(es, j - 1), es[j - 1], Before(es, j), c);
    }
  }

  /**
   What get-or-build does after its check: it removes the conversation exactly when the mapped cell holds an agent
   whose context version is missing or lower than the one asked for; otherwise it goes on to look up the slot.
   */
  lemma CheckRemovesIff(es: seq<Event>, b: nat, c: Caller, conv: ConvId, want: RuntimeCapabilities, i: nat, j: nat)
    requires IsRun(INIT, es) && Serves(es, b, c, GetOrBuild(conv, want)) && b < i < j < |es|
    requires es[i] == Check(c) && es[j].caller == c && forall m :: i < m < j ==> es[m].caller != c
    ensures es[j] == Take(c) || es[j] == Locate(c)
    ensures var s := Before(es, i);
            es[j] == Take(c) <==>
              exists a: Agent ::
                && a in s.builds && conv in s.tasks && s.tasks[conv] in s.cells && s.cells[s.tasks[conv]] == Set(a)
                && want.contextVersion.Some?
                && (s.builds[a].caps.contextVersion.None?
                    || s.builds[a].caps.contextVersion.value < want.contextVersion.value)
  {
    ServesEarlier(es, b, c, GetOrBuild(conv, want), i);
    CallFits(es[..i], b, c, GetOrBuild(conv, want));
    BeforeNext(es, i);
    CallerRests(es, c, i + 1, j);
    BeforeNext(es, j);
    CheckDecides(Before(es, i), c, conv, want);
    assert es[j].Take? || es[j].Locate? by { NextOfCall(Before(es, j), es[j]); }
  }

  lemma CheckDecides(s: State, c: Caller, conv: ConvId, want: RuntimeCapabilities)
    requires Inv(s) && s.PcOf(c) == Checking(conv, want)
    ensures var pc := Step(s, Check(c)).PcOf(c);
            && (pc.Taking? || pc.Locating?)
            && (pc.Taking? <==>
                  exists a: Agent ::
                    && a in s.builds && conv in s.tasks && s.tasks[conv] in s.cells && s.cells[s.tasks[conv]] == Set(a)
                    && want.contextVersion.Some?
                    && (s.builds[a].caps.contextVersion.None?
                        || s.builds[a].caps.contextVersion.value < want.contextVersion.value))
  {
    if MustRebuild(s, conv, want) {
      var a := s.cells[s.tasks[conv]].agent;
      assert a in s.builds;
    }
  }

  /** A caller about to take, or to look up, does just that. */
  lemma NextOfCall(s: State, e: Event)
    requires Enabled(s, e) && (s.PcOf(e.caller).Taking? || s.PcOf(e.caller).Locating?)
    ensures if s.PcOf(e.caller).Taking? then e == Take(e.caller) else e == Locate(e.caller)
  {
  }

  /**
   A get-or-build that killed an agent goes on to look up its slot, unless that kill failed: then the call is over.
   */
  lemma FailedKillEndsTheCall(es: seq<Event>, b: nat, c: Caller, conv: ConvId, want: RuntimeCapabilities, i: nat, ok: bool)
    requires IsRun(INIT, es) && Serves(es, b, c, GetOrBuild(conv, want)) && b < i < |es| && es[i] == Inspect(c, ok)
    ensures var s, pc := Before(es, i), Before(es, i + 1).PcOf(c);
            && s.PcOf(c).Inspecting? && s.PcOf(c).slot in s.cells
            && pc == if s.cells[s.PcOf(c).slot].Set? && !ok then Idle else Locating(conv, want)
  {
    ServesEarlier(es, b, c, GetOrBuild(conv, want), i);
    CallFits(es[..i], b, c, GetOrBuild(conv, want));
    BeforeNext(es, i);
    var s := Before(es, i);
    RebuildGoesOn(s, c, s.PcOf(c).slot, conv, want, ok);
  }

  lemma RebuildGoesOn(s: State, c: Caller, slot: Slot, conv: ConvId, want: RuntimeCapabilities, ok: bool)
    requires slot in s.cells
    ensures InspectStep(s, c, slot, AfterRebuild(conv, want), ok).PcOf(c)
            == if s.cells[slot].Set? && !ok then Idle else Locating(conv, want)
  {
  }
}
