/** When two calls return different agents: a removal of that id fell between their lookups. */
module TaskLookups {
  import opened TaskLifecycle
  import opened TaskSafety

  /** Event `k` of a run is the lookup by which caller `c` got hold of `slot`. */
  ghost predicate LookedUpAt(es: seq<Event>, k: nat, c: Caller, slot: Slot) {
    && k < |es| && es[k] == Locate(c)
    && IsRun(INIT, es[..k]) && Enabled(Exec(INIT, es[..k]), Locate(c))
    && var pc := Step(Exec(INIT, es[..k]), Locate(c)).PcOf(c);
       pc.Waiting? && pc.slot == slot
  }

  ghost predicate LookedUp(es: seq<Event>, c: Caller, slot: Slot) {
    exists k: nat :: LookedUpAt(es, k, c, slot)
  }

  /** Event `k` of a run takes the slot of `conv` out of the map. */
  ghost predicate RemovedAt(s: State, es: seq<Event>, k: nat, conv: ConvId) {
    && k < |es| && es[k].Take? && IsRun(s, es[..k])
    && var t := Exec(s, es[..k]);
       t.PcOf(es[k].caller).Taking? && t.PcOf(es[k].caller).conv == conv && conv in t.tasks
  }

  lemma RunCons(s: State, e: Event, rest: seq<Event>)
    requires Enabled(s, e) && IsRun(Step(s, e), rest)
    ensures IsRun(s, [e] + rest) && Exec(s, [e] + rest) == Exec(Step(s, e), rest)
  {
    assert ([e] + rest)[1..] == rest && ([e] + rest)[0] == e;
  }

  lemma {:induction false} RunSplit(s: State, es: seq<Event>, n: nat)
    requires IsRun(s, es) && n <= |es|
    ensures IsRun(s, es[..n]) && IsRun(Exec(s, es[..n]), es[n..])
    ensures Exec(s, es) == Exec(Exec(s, es[..n]), es[n..])
    decreases |es|
  {
    if n > 0 {
      var next, rest := Step(s, es[0]), es[1..];
      RunSplit(next, rest, n - 1);
      RunCons(s, es[0], rest[..n - 1]);
      assert es[..n] == [es[0]] + rest[..n - 1] && es[n..] == rest[n - 1..];
    } else {
      assert es[..0] == [] && es[0..] == es;
    }
  }

  lemma {:induction false} CountSplit(s: State, es: seq<Event>, n: nat, conv: ConvId)
    requires IsRun(s, es) && n <= |es|
    ensures IsRun(s, es[..n]) && IsRun(Exec(s, es[..n]), es[n..])
    ensures RemovalCount(s, es, conv) == RemovalCount(s, es[..n], conv) + RemovalCount(Exec(s, es[..n]), es[n..], conv)
    decreases |es|
  {
    RunSplit(s, es, n);
    if n > 0 {
      CountSplit(Step(s, es[0]), es[1..], n - 1, conv);
      assert es[..n][1..] == es[1..][..n - 1] && es[n..] == es[1..][n - 1..];
    } else {
      assert es[..0] == [] && es[0..] == es;
    }
  }

  lemma {:induction false} CountedRemovalExists(s: State, es: seq<Event>, conv: ConvId) returns (k: nat)
    requires IsRun(s, es) && RemovalCount(s, es, conv) > 0
    ensures RemovedAt(s, es, k, conv)
    decreases |es|
  {
    assert es[..0] == [];
    if RemovedAt(s, es, 0, conv) {
      k := 0;
    } else {
      var j := CountedRemovalExists(Step(s, es[0]), es[1..], conv);
      k := j + 1;
      assert es[..k][1..] == es[1..][..j];
    }
  }

  lemma Slices<T>(xs: seq<T>, n: nat, k: nat)
    requires n + k < |xs|
    ensures xs[..n + k][..n] == xs[..n] && xs[..n + k][n..] == xs[n..][..k] && xs[n + k] == xs[n..][k]
  {
  }

  /** A removal seen from a later point of the run. */
  lemma RemovedLater(es: seq<Event>, n: nat, k: nat, conv: ConvId)
    requires IsRun(INIT, es) && n <= |es|
    requires IsRun(INIT, es[..n]) && RemovedAt(Exec(INIT, es[..n]), es[n..], k, conv)
    ensures RemovedAt(INIT, es, n + k, conv)
  {
    Slices(es, n, k);
    var front := es[..n + k];
    RunSplit(INIT, es, n + k);
    RunSplit(INIT, front, n);
  }

  // ---------------------------------------------------------------- whose slot it is

  /** Callers in get_or_try_init, and answers, hold a slot that they looked up. */
  ghost predicate Tracked(es: seq<Event>, s: State) {
    && (forall c :: s.PcOf(c).Waiting? || s.PcOf(c).Building? ==> LookedUp(es, c, s.PcOf(c).slot))
    && (forall i :: 0 <= i < |s.answers| ==> LookedUp(es, s.answers[i].caller, s.answers[i].slot))
  }

  lemma LookedUpStays(es: seq<Event>, e: Event, c: Caller, slot: Slot)
    requires LookedUp(es, c, slot)
    ensures LookedUp(es + [e], c, slot)
  {
    var k: nat :| LookedUpAt(es, k, c, slot);
    assert (es + [e])[..k] == es[..k];
    assert LookedUpAt(es + [e], k, c, slot);
  }

  /**
   What one event does to callers and answers: only its caller moves; that caller gets a slot to wait for by a
   lookup only, and builds in the slot it waited for; answers are added for the slot of a caller in get_or_try_init.
   */
  ghost predicate Tracks(s: State, e: Event, t: State) {
    var was, now := s.PcOf(e.caller), t.PcOf(e.caller);
    && t.pcs == s.pcs[e.caller := now]
    && (now.Waiting? ==> e.Locate?)
    && (now.Building? ==> was.Waiting? && now.slot == was.slot)
    && (forall i :: |s.answers| <= i < |t.answers| ==>
          (was.Waiting? || was.Building?) && t.answers[i].caller == e.caller && t.answers[i].slot == was.slot)
    && s.answers <= t.answers
  }

  lemma TracksMoves(s: State, e: Event, t: State)
    requires Enabled(s, e) && t == Step(s, e) && (e.Begin? || e.Check?)
    ensures Tracks(s, e, t)
  {
  }

  lemma TracksNextKey(s: State, e: Event, t: State)
    requires Enabled(s, e) && t == Step(s, e) && e.NextKey?
    ensures Tracks(s, e, t)
  {
  }

  lemma TracksTerminated(s: State, e: Event, t: State)
    requires Enabled(s, e) && t == Step(s, e) && e.Terminated?
    ensures Tracks(s, e, t)
  {
  }

  lemma TracksLocate(s: State, e: Event, t: State)
    requires Enabled(s, e) && t == Step(s, e) && e.Locate?
    ensures Tracks(s, e, t)
  {
  }

  lemma TracksTake(s: State, e: Event, t: State)
    requires Enabled(s, e) && t == Step(s, e) && e.Take?
    ensures Tracks(s, e, t)
  {
  }

  lemma EnterMoves(s: State, c: Caller, pc: Pc) returns (now: Pc)
    requires pc.Waiting? && pc.slot in s.cells
    ensures EnterStep(s, c, pc).pcs == s.pcs[c := now] && !now.Waiting? && (now.Building? ==> now.slot == pc.slot)
    ensures var more := EnterStep(s, c, pc).answers;
            more == s.answers || exists a :: more == s.answers + [Answer(c, pc.want, pc.slot, a)]
  {
    now := if s.cells[pc.slot].Set? then Idle else Building(pc.want, pc.slot, s.nextAttempt);
  }

  lemma TracksEnter(s: State, e: Event, t: State)
    requires Enabled(s, e) && t == Step(s, e) && e.Enter?
    ensures Tracks(s, e, t)
  {
    var now := EnterMoves(s, e.caller, s.PcOf(e.caller));
  }

  lemma TracksFactory(s: State, e: Event, t: State)
    requires Enabled(s, e) && t == Step(s, e) && (e.FactoryOk? || e.FactoryErr?)
    ensures Tracks(s, e, t)
  {
  }

  lemma InspectMoves(s: State, c: Caller, slot: Slot, next: Next, ok: bool) returns (pc: Pc)
    requires slot in s.cells
    ensures InspectStep(s, c, slot, next, ok).pcs == s.pcs[c := pc]
    ensures InspectStep(s, c, slot, next, ok).answers == s.answers
    ensures pc.Terminating? || pc.KillPending? || pc == Resume(next, true) || pc == Resume(next, ok)
  {
    var cell := s.cells[slot];
    if cell.Set? {
      pc := if next.AfterKillAndWait? then Terminating(slot, cell.agent) else Resume(next, ok);
    } else {
      pc := if next.AfterKillAndWait? then KillPending(slot) else Resume(next, true);
    }
  }

  lemma TracksInspect(s: State, e: Event, t: State)
    requires Enabled(s, e) && t == Step(s, e) && e.Inspect?
    ensures Tracks(s, e, t)
  {
    var pc := InspectMoves(s, e.caller, s.PcOf(e.caller).slot, s.PcOf(e.caller).next, e.killOk);
  }

  lemma TracksResolve(s: State, e: Event, t: State)
    requires Enabled(s, e) && t == Step(s, e) && e.Resolve?
    ensures Tracks(s, e, t)
  {
    assert t.PcOf(e.caller).Idle? || t.PcOf(e.caller).Terminating?;
    assert t.answers == s.answers;
  }

  lemma StepTracks(s: State, e: Event, t: State)
    requires Enabled(s, e) && t == Step(s, e)
    ensures Tracks(s, e, t)
  {
    match e
    case Locate(_) => TracksLocate(s, e, t);
    case Take(_) => TracksTake(s, e, t);
    case Enter(_) => TracksEnter(s, e, t);
    case FactoryOk(_, _) => TracksFactory(s, e, t);
    case FactoryErr(_) => TracksFactory(s, e, t);
    case Inspect(_, _) => TracksInspect(s, e, t);
    case Resolve(_) => TracksResolve(s, e, t);
    case NextKey(_) => TracksNextKey(s, e, t);
    case Terminated(_) => TracksTerminated(s, e, t);
    case _ => TracksMoves(s, e, t);
  }

  lemma TrackedCallers(es: seq<Event>, e: Event, s: State, t: State, c: Caller)
    requires IsRun(INIT, es) && s == Exec(INIT, es) && Enabled(s, e) && t == Step(s, e)
    requires Tracked(es, s) && Tracks(s, e, t)
    requires t.PcOf(c).Waiting? || t.PcOf(c).Building?
    ensures LookedUp(es + [e], c, t.PcOf(c).slot)
  {
    if c == e.caller && t.PcOf(c).Waiting? {
      assert (es + [e])[..|es|] == es;
      assert LookedUpAt(es + [e], |es|, c, t.PcOf(c).slot);
    } else {
      assert s.PcOf(c).slot == t.PcOf(c).slot;
      LookedUpStays(es, e, c, t.PcOf(c).slot);
    }
  }

  lemma TrackedAnswers(es: seq<Event>, e: Event, s: State, t: State, i: nat)
    requires Tracked(es, s) && Tracks(s, e, t) && i < |t.answers|
    ensures LookedUp(es + [e], t.answers[i].caller, t.answers[i].slot)
  {
    if i < |s.answers| {
      assert t.answers[i] == s.answers[i];
    } else {
      assert t.answers[i].caller == e.caller;
      assert LookedUp(es, e.caller, s.PcOf(e.caller).slot);
    }
    LookedUpStays(es, e, t.answers[i].caller, t.answers[i].slot);
  }

  lemma TrackedStep(es: seq<Event>, e: Event)
    requires IsRun(INIT, es) && Tracked(es, Exec(INIT, es)) && Enabled(Exec(INIT, es), e)
    ensures Tracked(es + [e], Step(Exec(INIT, es), e))
  {
    var s := Exec(INIT, es);
    var t := Step(s, e);
    StepTracks(s, e, t);
    forall c | t.PcOf(c).Waiting? || t.PcOf(c).Building? ensures LookedUp(es + [e], c, t.PcOf(c).slot) {
      TrackedCallers(es, e, s, t, c);
    }
    forall i | 0 <= i < |t.answers| ensures LookedUp(es + [e], t.answers[i].caller, t.answers[i].slot) {
      TrackedAnswers(es, e, s, t, i);
    }
  }

  lemma {:induction false} RunTracked(es: seq<Event>)
    requires IsRun(INIT, es)
    ensures Tracked(es, Exec(INIT, es))
    decreases |es|
  {
    if es != [] {
      var front, last := es[..|es| - 1], es[|es| - 1];
      RunSplit(INIT, es, |es| - 1);
      assert es == front + [last] && es[|es| - 1..] == [last];
      assert [last][1..] == [];
      RunTracked(front);
      TrackedStep(front, last);
    }
  }

  /** The slot of a lookup counts the removals before it. */
  lemma LookupCounts(es: seq<Event>, k: nat, c: Caller, slot: Slot)
    requires IsRun(INIT, es) && LookedUpAt(es, k, c, slot)
    ensures slot.epoch == RemovalCount(INIT, es[..k], slot.conv)
  {
    LookupYieldsEpoch(es[..k], c);
  }

  /** Every answer is for a slot that its caller looked up earlier in the run. */
  lemma AnswersWereLookedUp(es: seq<Event>, i: nat)
    requires IsRun(INIT, es) && i < |Exec(INIT, es).answers|
    ensures LookedUp(es, Exec(INIT, es).answers[i].caller, Exec(INIT, es).answers[i].slot)
  {
    RunTracked(es);
  }

  /**
   Two successful calls for one conversation return different agents only if a removal of that id fell between
   their lookups, `p` and `q`.
   */
  lemma DifferentAgentsNeedRemovalBetween(es: seq<Event>, i: nat, j: nat, p: nat, q: nat) returns (m: nat)
    requires IsRun(INIT, es)
    requires i < |Exec(INIT, es).answers| && j < |Exec(INIT, es).answers|
    requires var a, b := Exec(INIT, es).answers[i], Exec(INIT, es).answers[j];
             && a.slot.conv == b.slot.conv && a.agent != b.agent
             && LookedUpAt(es, p, a.caller, a.slot) && LookedUpAt(es, q, b.caller, b.slot)
    ensures p <= m < q || q <= m < p
    ensures RemovedAt(INIT, es, m, Exec(INIT, es).answers[i].slot.conv)
  {
    var a, b := Exec(INIT, es).answers[i], Exec(INIT, es).answers[j];
    DifferentAgentsNeedRemoval(es, i, j);
    LookupCounts(es, p, a.caller, a.slot);
    LookupCounts(es, q, b.caller, b.slot);
    if p <= q {
      m := RemovalWithin(es, p, q, a.slot.conv);
    } else {
      m := RemovalWithin(es, q, p, a.slot.conv);
    }
  }

  /** Prefixes with different removal counts have a removal between them. */
  lemma RemovalWithin(es: seq<Event>, p: nat, q: nat, conv: ConvId) returns (m: nat)
    requires IsRun(INIT, es) && p <= q <= |es|
    requires IsRun(INIT, es[..p]) && IsRun(INIT, es[..q])
    requires RemovalCount(INIT, es[..p], conv) != RemovalCount(INIT, es[..q], conv)
    ensures p <= m < q && RemovedAt(INIT, es, m, conv)
  {
    var front := es[..q];
    assert front[..p] == es[..p];
    m := RemovalAfter(front, p, conv);
    assert front[..m] == es[..m];
  }

  /** A run with more removals than its prefix has one after that prefix. */
  lemma RemovalAfter(es: seq<Event>, p: nat, conv: ConvId) returns (m: nat)
    requires IsRun(INIT, es) && p <= |es| && IsRun(INIT, es[..p])
    requires RemovalCount(INIT, es[..p], conv) != RemovalCount(INIT, es, conv)
    ensures p <= m < |es| && RemovedAt(INIT, es, m, conv)
  {
    CountSplit(INIT, es, p, conv);
    var k := RemovalInRest(Exec(INIT, es[..p]), es[p..], conv);
    RemovedLater(es, p, k, conv);
    m := p + k;
  }

  lemma RemovalInRest(s: State, rest: seq<Event>, conv: ConvId) returns (k: nat)
    requires IsRun(s, rest) && RemovalCount(s, rest, conv) != 0
    ensures RemovedAt(s, rest, k, conv) && k < |rest|
  {
    k := CountedRemovalExists(s, rest, conv);
  }
}
