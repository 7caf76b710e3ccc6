/**
 Terminal events of an agent's turns. `emit_finish` and `emit_error_data` first mark the status
 under a lock and broadcast afterwards, so other callers can act in between.
 */
module AgentRuntime {
  import opened Common

  datatype Status = Pending | Running | Finished

  datatype Terminal = Finish(sessionId: Option<string>) | Error(message: string)

  type Caller = nat

  datatype Event =
    | Transition(status: Status)
    | Reset(status: Status)
    | Mark(caller: Caller, terminal: Terminal)
    | Send(caller: Caller)

  datatype State = State(
    status: Option<Status>,
    /** Callers that won the mark and have yet to broadcast. */
    pending: map<Caller, Terminal>,
    sent: seq<Terminal>,
    resets: nat)

  const INIT := State(None, map[], [], 0)

  predicate Enabled(s: State, e: Event) {
    match e
    case Mark(c, _) => c !in s.pending
    case Send(c) => c in s.pending
    case _ => true
  }

  function Step(s: State, e: Event): State
    requires Enabled(s, e)
  {
    match e
    case Transition(status) => if s.status == Some(Finished) then s else s.(status := Some(status))
    case Reset(status) => s.(status := Some(status), resets := s.resets + 1)
    case Mark(c, terminal) =>
      if s.status == Some(Finished) then s
      else s.(status := Some(Finished), pending := s.pending[c := terminal])
    case Send(c) => s.(pending := s.pending - {c}, sent := s.sent + [s.pending[c]])
  }

  predicate IsRun(s: State, es: seq<Event>)
    decreases |es|
  {
    es == [] || (Enabled(s, es[0]) && IsRun(Step(s, es[0]), es[1..]))
  }

  function Exec(s: State, es: seq<Event>): State
    requires IsRun(s, es)
    decreases |es|
  {
    if es == [] then s else Exec(Step(s, es[0]), es[1..])
  }

  function ResetCount(es: seq<Event>): nat
    decreases |es|
  {
    if es == [] then 0 else (if es[0].Reset? then 1 else 0) + ResetCount(es[1..])
  }

  function FinishedBit(s: State): nat { if s.status == Some(Finished) then 1 else 0 }

  /** Terminal events sent or about to be. */
  function Emitted(s: State): nat { |s.sent| + |s.pending| }

  lemma StepBudget(s: State, e: Event)
    requires Enabled(s, e) && Emitted(s) <= s.resets + FinishedBit(s)
    ensures var t := Step(s, e);
            && Emitted(t) <= t.resets + FinishedBit(t)
            && t.resets == s.resets + ResetCount([e])
            && (!e.Reset? && s.status == Some(Finished) ==> t.status == Some(Finished) && Emitted(t) == Emitted(s))
            && s.sent <= t.sent
  {
    if e.Send? {
      assert s.pending.Keys == Step(s, e).pending.Keys + {e.caller};
      assert |s.pending| == |s.pending.Keys| && |Step(s, e).pending| == |Step(s, e).pending.Keys|;
    } else if e.Mark? {
      assert |s.pending| == |s.pending.Keys|;
      assert s.status != Some(Finished) ==> Step(s, e).pending.Keys == s.pending.Keys + {e.caller};
    }
  }

  lemma {:induction false} RunBudget(s: State, es: seq<Event>)
    requires IsRun(s, es) && Emitted(s) <= s.resets + FinishedBit(s)
    ensures var t := Exec(s, es);
            Emitted(t) <= t.resets + FinishedBit(t) && t.resets == s.resets + ResetCount(es)
    decreases |es|
  {
    if es != [] {
      StepBudget(s, es[0]);
      RunBudget(Step(s, es[0]), es[1..]);
    }
  }

  /**
   In every interleaving the terminal events sent or pending stay within one per turn: one more
   than the resets, and no more than the resets while the status is not Finished.
   */
  lemma OneTerminalEventPerTurn(es: seq<Event>)
    requires IsRun(INIT, es)
    ensures var s := Exec(INIT, es);
            && Emitted(s) <= 1 + ResetCount(es)
            && (s.status != Some(Finished) ==> Emitted(s) <= ResetCount(es))
  {
    RunBudget(INIT, es);
  }

  /** Without resets Finished is absorbing: nothing changes it, and no further terminal event appears. */
  lemma {:induction false} FinishedIsAbsorbing(s: State, es: seq<Event>)
    requires IsRun(s, es) && ResetCount(es) == 0 && s.status == Some(Finished)
    requires Emitted(s) <= s.resets + 1
    ensures var t := Exec(s, es);
            t.status == Some(Finished) && Emitted(t) == Emitted(s) && s.sent <= t.sent
    decreases |es|
  {
    if es != [] {
      StepBudget(s, es[0]);
      FinishedIsAbsorbing(Step(s, es[0]), es[1..]);
    }
  }

  /** A run without resets sends at most one terminal event. */
  lemma SingleTurnSendsOnce(es: seq<Event>)
    requires IsRun(INIT, es) && ResetCount(es) == 0
    ensures |Exec(INIT, es).sent| <= 1
  {
    RunBudget(INIT, es);
  }

  /** One event in front of a run. */
  lemma RunCons(s: State, e: Event, t: State, rest: seq<Event>)
    requires Enabled(s, e) && Step(s, e) == t && IsRun(t, rest)
    ensures IsRun(s, [e] + rest) && Exec(s, [e] + rest) == Exec(t, rest)
    ensures ResetCount([e] + rest) == (if e.Reset? then 1 else 0) + ResetCount(rest)
  {
    var es := [e] + rest;
    assert es[0] == e && es[1..] == rest;
  }

  /** The bound is sharp: a late broadcast of one turn can follow the reset for the next. */
  lemma LateBroadcastFollowsReset(a: Terminal, b: Terminal)
    ensures var es := [Mark(0, a), Reset(Running), Mark(1, b), Send(1), Send(0)];
            IsRun(INIT, es) && Exec(INIT, es).sent == [b, a] && ResetCount(es) == 1
  {
    var s1 := State(Some(Finished), map[0 := a], [], 0);
    var s2 := State(Some(Running), map[0 := a], [], 1);
    var s3 := State(Some(Finished), map[0 := a, 1 := b], [], 1);
    var s4 := State(Some(Finished), map[0 := a], [b], 1);
    var s5 := State(Some(Finished), map[], [b, a], 1);
    assert s3.pending - {1} == s4.pending && s4.pending - {0} == s5.pending;
    var r4: seq<Event> := [Send(0)] + [];
    var r3 := [Send(1)] + r4;
    var r2 := [Mark(1, b)] + r3;
    var r1 := [Reset(Running)] + r2;
    RunCons(s4, Send(0), s5, []);
    RunCons(s3, Send(1), s4, r4);
    RunCons(s2, Mark(1, b), s3, r3);
    RunCons(s1, Reset(Running), s2, r2);
    RunCons(INIT, Mark(0, a), s1, r1);
    assert [Mark(0, a)] + r1 == [Mark(0, a), Reset(Running), Mark(1, b), Send(1), Send(0)];
  }

  // ---------------------------------------------------------------- the order of terminal events

  /** The terminal event whose emission wins the mark in this step. */
  function Wins(s: State, e: Event): seq<Terminal> {
    if e.Mark? && s.status != Some(Finished) then [e.terminal] else []
  }

  /** The terminal events of a run in the order in which their turns finished. */
  function Won(s: State, es: seq<Event>): seq<Terminal>
    requires IsRun(s, es)
    decreases |es|
  {
    if es == [] then [] else Wins(s, es[0]) + Won(Step(s, es[0]), es[1..])
  }

  /** A reset that no earlier emission can overtake: none is under way, or it resets to Finished. */
  predicate IsOrderly(s: State, e: Event) {
    e.Reset? ==> s.pending == map[] || e.status == Finished
  }

  predicate OrderlyResets(s: State, es: seq<Event>)
    requires IsRun(s, es)
    decreases |es|
  {
    es != [] ==> IsOrderly(s, es[0]) && OrderlyResets(Step(s, es[0]), es[1..])
  }

  /** At most one emission is under way, and then the turn is finished; `won` is what is sent, then that one. */
  predicate InStep(s: State, won: seq<Terminal>) {
    || (s.pending == map[] && s.sent == won)
    || (s.status == Some(Finished) && exists c | c in s.pending ::
          s.pending == map[c := s.pending[c]] && s.sent + [s.pending[c]] == won)
  }

  lemma StepInOrder(s: State, e: Event, won: seq<Terminal>)
    requires Enabled(s, e) && InStep(s, won) && IsOrderly(s, e)
    ensures InStep(Step(s, e), won + Wins(s, e))
  {
    var t := Step(s, e);
    if s.pending == map[] {
      if e.Mark? && s.status != Some(Finished) {
        assert t.pending == map[e.caller := e.terminal] && e.caller in t.pending;
      }
    } else {
      var c :| c in s.pending && s.pending == map[c := s.pending[c]] && s.sent + [s.pending[c]] == won;
      if e.Send? {
        assert t.pending == map[];
      } else {
        assert c in t.pending && t.pending == s.pending;
      }
    }
  }

  /** What was won before and along an orderly run is sent in that order. */
  lemma {:induction false} RunOrder(s: State, es: seq<Event>, won: seq<Terminal>)
    requires IsRun(s, es) && InStep(s, won) && OrderlyResets(s, es)
    ensures InStep(Exec(s, es), won + Won(s, es))
    decreases |es|
  {
    if es == [] {
      assert won + [] == won;
    } else {
      StepInOrder(s, es[0], won);
      RunOrder(Step(s, es[0]), es[1..], won + Wins(s, es[0]));
      assert won + Wins(s, es[0]) + Won(Step(s, es[0]), es[1..]) == won + Won(s, es);
    }
  }

  /** Terminal events go out in the order in which their turns finished. */
  predicate InOrder(s: State, es: seq<Event>)
    requires IsRun(s, es)
  {
    Exec(s, es).sent <= s.sent + Won(s, es)
  }

  /**
   With orderly resets the broadcasts are exactly the won marks, in order, except that the last one may still be
   under way.
   */
  lemma OrderlyRunsAreInOrder(es: seq<Event>)
    requires IsRun(INIT, es) && OrderlyResets(INIT, es)
    ensures InStep(Exec(INIT, es), Won(INIT, es)) && InOrder(INIT, es)
  {
    RunOrder(INIT, es, []);
    assert [] + Won(INIT, es) == Won(INIT, es);
  }

  /** A terminal event different from `t`. */
  function Other(t: Terminal): Terminal { if t.Finish? then Error("") else Finish(None) }

  /** A reset while emission `c` is under way lets the next turn's event go out first. */
  lemma Overtakes(s: State, c: Caller, status: Status)
    requires c in s.pending && s.pending == map[c := s.pending[c]] && status != Finished
    ensures var more := [Mark(c + 1, Other(s.pending[c])), Send(c + 1)];
            var t := Step(s, Reset(status));
            && IsRun(t, more) && OrderlyResets(t, more)
            && Exec(t, more).sent == s.sent + [Other(s.pending[c])] && Won(t, more) == [Other(s.pending[c])]
  {
    var t := Step(s, Reset(status));
    var d, x := c + 1, Other(s.pending[c]);
    var u := Step(t, Mark(d, x));
    var v := Step(u, Send(d));
    assert [Send(d)][1..] == [] && [Mark(d, x), Send(d)][1..] == [Send(d)];
    assert IsRun(v, []) && IsRun(u, [Send(d)]) && Exec(u, [Send(d)]) == v;
    assert OrderlyResets(v, []) && OrderlyResets(u, [Send(d)]) && Won(u, [Send(d)]) == [];
  }

  /** What was won and what was sent, across a reset and a continuation. */
  ghost predicate StaysInOrder(es: seq<Event>, status: Status, more: seq<Event>)
    requires IsRun(INIT, es) && IsRun(Step(Exec(INIT, es), Reset(status)), more)
  {
    Exec(Step(Exec(INIT, es), Reset(status)), more).sent
    <= Won(INIT, es) + Won(Step(Exec(INIT, es), Reset(status)), more)
  }

  /**
   After an orderly run, a reset keeps the order of terminal events in every orderly continuation exactly when no
   earlier emission is still under way, or the reset is to Finished.
   */
  lemma ResetKeepsOrderIff(es: seq<Event>, status: Status)
    requires IsRun(INIT, es) && OrderlyResets(INIT, es)
    ensures var t := Step(Exec(INIT, es), Reset(status));
            (forall more :: IsRun(t, more) && OrderlyResets(t, more) ==> StaysInOrder(es, status, more))
            <==> Exec(INIT, es).pending == map[] || status == Finished
  {
    var s := Exec(INIT, es);
    var t, won := Step(s, Reset(status)), Won(INIT, es);
    OrderlyRunsAreInOrder(es);
    if s.pending == map[] || status == Finished {
      StepInOrder(s, Reset(status), won);
      assert won + [] == won;
      forall more | IsRun(t, more) && OrderlyResets(t, more) ensures StaysInOrder(es, status, more) {
        RunOrder(t, more, won);
      }
    } else {
      var c :| c in s.pending && s.pending == map[c := s.pending[c]] && s.sent + [s.pending[c]] == won;
      var x := Other(s.pending[c]);
      Overtakes(s, c, status);
      var more := [Mark(c + 1, x), Send(c + 1)];
      assert (s.sent + [x])[|s.sent|] == x && (won + [x])[|s.sent|] == s.pending[c];
      assert !StaysInOrder(es, status, more);
    }
  }

  // ---------------------------------------------------------------- the runtime object

  /** An undisturbed emission: the mark, and the broadcast if the mark was won. */
  function Emission(s: State, c: Caller, terminal: Terminal): (t: State)
    requires s.pending == map[]
  {
    var marked := Step(s, Mark(c, terminal));
    if c in marked.pending then Step(marked, Send(c)) else marked
  }

  class Runtime {
    var status: Option<Status>
    var sent: seq<Terminal>
    var lastActivity: Timestamp

    constructor (now: Timestamp)
      ensures status == None && sent == [] && lastActivity == now
    {
      status, sent, lastActivity := None, [], now;
    }

    /** The object as a state of the step system in which nobody stands between mark and broadcast. */
    ghost function View(resets: nat): State
      reads this
    {
      State(status, map[], sent, resets)
    }

    method BumpActivity(now: Timestamp)
      modifies `lastActivity
      ensures lastActivity == now
    {
      lastActivity := now;
    }

    method TransitionTo(next: Status)
      modifies `status
      ensures forall n :: View(n) == Step(old(View(n)), Transition(next))
      ensures status == if old(status) == Some(Finished) then Some(Finished) else Some(next)
    {
      if status == Some(Finished) { return; }
      status := Some(next);
    }

    method ResetForNewTurn(next: Status)
      modifies `status
      ensures forall n: nat :: View(n + 1) == Step(old(View(n)), Reset(next))
      ensures status == Some(next)
    {
      status := Some(next);
    }

    /** Marks the status under the lock; says whether it was finished before. */
    method MarkFinished() returns (alreadyFinished: bool)
      modifies `status
      ensures status == Some(Finished) && (alreadyFinished <==> old(status) == Some(Finished))
    {
      alreadyFinished := status == Some(Finished);
      if !alreadyFinished {
        status := Some(Finished);
      }
    }

    method Emit(terminal: Terminal)
      modifies `status, `sent
      ensures forall n :: View(n) == Emission(old(View(n)), 0, terminal)
      ensures status == Some(Finished)
      ensures sent == old(sent) + if old(status) == Some(Finished) then [] else [terminal]
    {
      var alreadyFinished := MarkFinished();
      if alreadyFinished { return; }
      sent := sent + [terminal];
    }

    method EmitFinish(sessionId: Option<string>)
      modifies `status, `sent
      ensures status == Some(Finished)
      ensures sent == old(sent) + if old(status) == Some(Finished) then [] else [Finish(sessionId)]
    {
      Emit(Finish(sessionId));
    }

    method EmitErrorData(message: string)
      modifies `status, `sent
      ensures status == Some(Finished)
      ensures sent == old(sent) + if old(status) == Some(Finished) then [] else [Error(message)]
    {
      Emit(Error(message));
    }
  }
}
