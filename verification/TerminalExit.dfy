/**
 How one terminal's exit gets published: a reaper that polls the child, callers that kill or
 release it, and callers that wait, over one mutex-guarded child and one watch channel.

 Every access to the lock, the child, the channel or the registry is one event, so a run is any
 interleaving. Waiters read the channel without the lock.
 */
module TerminalExit {
  import opened Common

  datatype Exit = Exit(code: Option<nat>, signaled: bool)

  /** Published by whoever killed the child. */
  const KILLED := Exit(None, true)

  /** What a waiter would make up if every sender vanished without publishing. */
  const SYNTHETIC := Exit(None, true)

  type I32 = c: int | -0x8000_0000 <= c < 0x8000_0000

  /** Outcome of `try_wait`. An exit status carries a signed 32-bit code unless a signal ended the child. */
  datatype Poll = StillRunning | Exited(code: Option<I32>, bySignal: bool) | WaitFailed

  /** `as u32` on an `i32`. */
  function AsU32(c: I32): nat { c % 0x1_0000_0000 }

  function ReapedExit(poll: Poll): Exit
    requires !poll.StillRunning?
  {
    match poll
    case Exited(code, bySignal) => Exit(if code.Some? then Some(AsU32(code.value)) else None, bySignal)
    case WaitFailed => Exit(None, false)
  }

  type Actor = nat

  datatype Reaper = Asleep | Polling | Reaped(exit: Exit) | Published | Gone

  datatype Pc =
    | Idle
      // kill and release: the registry lookup, then the locked section
    | Looking(release: bool)
    | Locking
    | Deciding
    | Killing
    | Cleared
    | Unlocking
      // wait_for_exit
    | WaitLooking
    | WaitChecking
    | WaitChanged
    | WaitLast

  datatype Holder = ByReaper | ByActor(actor: Actor)

  datatype Call = Kill | Release | WaitForExit

  datatype Event =
    | ReapLock | ReapPoll(poll: Poll) | ReapSend | ReapUnlock
    | Begin(actor: Actor, call: Call)
    | Lookup(actor: Actor)
    | Lock(actor: Actor)
    | Decide(actor: Actor)
    | Clear(actor: Actor)
    | Send(actor: Actor)
    | Unlock(actor: Actor)
    | Check(actor: Actor)
    | Changed(actor: Actor)
    | Fallback(actor: Actor)

  datatype State = State(
    registered: bool,
    lock: Option<Holder>,
    child: bool,
    exit: Option<Exit>,
    reaper: Reaper,
    pcs: map<Actor, Pc>,
    // history: every published exit, every answer to a waiter, and completed kills and releases
    sent: seq<Exit>,
    answers: seq<Option<Exit>>,
    madeUp: nat,
    stopped: nat)
  {
    function PcOf(a: Actor): Pc { if a in pcs then pcs[a] else Idle }

    function At(a: Actor, pc: Pc): State { this.(pcs := pcs[a := pc]) }
  }

  const INIT := State(true, None, true, None, Asleep, map[], [], [], 0, 0)

  /** This caller holds a clone of the sender. */
  predicate HoldsSender(pc: Pc) { pc.Locking? || pc.Deciding? || pc.Killing? || pc.Cleared? || pc.Unlocking? }

  predicate HoldsLock(pc: Pc) { pc.Deciding? || pc.Killing? || pc.Cleared? || pc.Unlocking? }

  /** Some sender of the channel is still alive: the reaper's, the registry entry's, or a caller's. */
  predicate SenderAlive(s: State) {
    s.reaper != Gone || s.registered || exists a :: a in s.pcs && HoldsSender(s.pcs[a])
  }

  predicate Enabled(s: State, e: Event) {
    match e
    case ReapLock => s.reaper.Asleep? && s.lock.None?
    case ReapPoll(_) => s.reaper.Polling?
    case ReapSend => s.reaper.Reaped?
    case ReapUnlock => s.reaper.Published?
    case Begin(a, _) => s.PcOf(a).Idle?
    case Lookup(a) => s.PcOf(a).Looking? || s.PcOf(a).WaitLooking?
    case Lock(a) => s.PcOf(a).Locking? && s.lock.None?
    case Decide(a) => s.PcOf(a).Deciding?
    case Clear(a) => s.PcOf(a).Killing?
    case Send(a) => s.PcOf(a).Cleared?
    case Unlock(a) => s.PcOf(a).Unlocking?
    case Check(a) => s.PcOf(a).WaitChecking?
    case Changed(a) => s.PcOf(a).WaitChanged? && (s.exit.Some? || !SenderAlive(s))
    case Fallback(a) => s.PcOf(a).WaitLast?
  }

  /** A kill and a release look the terminal up before they lock it; a waiter looks it up, too. */
  function FirstPc(call: Call): Pc {
    match call
    case Kill => Looking(false)
    case Release => Looking(true)
    case WaitForExit => WaitLooking
  }

  function Step(s: State, e: Event): State
    requires Enabled(s, e)
  {
    match e
    case ReapLock => s.(lock := Some(ByReaper), reaper := Polling)
    case ReapPoll(poll) =>
      if !s.child then s.(lock := None, reaper := Gone)
      else if poll.StillRunning? then s.(lock := None, reaper := Asleep)
      else s.(child := false, reaper := Reaped(ReapedExit(poll)))
    case ReapSend => s.(exit := Some(s.reaper.exit), sent := s.sent + [s.reaper.exit], reaper := Published)
    case ReapUnlock => s.(lock := None, reaper := Gone)
    case Begin(a, call) => s.At(a, FirstPc(call))
    case Lookup(a) =>
      if !s.registered then s.At(a, Idle)
      else if s.PcOf(a).WaitLooking? then s.At(a, WaitChecking)
      else s.At(a, Locking).(registered := !s.PcOf(a).release)
    case Lock(a) => s.At(a, Deciding).(lock := Some(ByActor(a)))
    case Decide(a) => s.At(a, if s.child then Killing else Unlocking)
    case Clear(a) => s.At(a, Cleared).(child := false)
    case Send(a) => s.At(a, Unlocking).(exit := Some(KILLED), sent := s.sent + [KILLED])
    case Unlock(a) => s.At(a, Idle).(lock := None, stopped := s.stopped + 1)
    case Check(a) =>
      if s.exit.Some? then s.At(a, Idle).(answers := s.answers + [s.exit]) else s.At(a, WaitChanged)
    case Changed(a) => s.At(a, if s.exit.Some? then WaitChecking else WaitLast)
    case Fallback(a) =>
      if s.exit.Some? then s.At(a, Idle).(answers := s.answers + [s.exit])
      else s.At(a, Idle).(answers := s.answers + [Some(SYNTHETIC)], madeUp := s.madeUp + 1)
  }

  predicate IsRun(s: State, es: seq<Event>)
    decreases |es|
  {
    es == [] || (Enabled(s, es[0]) && IsRun(Step(s, es[0]), es[1..]))
  }

  function Exec(s: State, es: seq<Event>): State
    requires IsRun(s, es)
    decreases |es|
  {
    if es == [] then s else Exec(Step(s, es[0]), es[1..])
  }

  // ---------------------------------------------------------------- the invariant

  /** The child has been taken out, and its exit has not been published yet. */
  predicate Unpublished(s: State) {
    match s.lock
    case None => false
    case Some(ByReaper) => s.reaper.Reaped?
    case Some(ByActor(a)) => s.PcOf(a).Cleared?
  }

  ghost predicate ActorOk(s: State, a: Actor) {
    var pc := s.PcOf(a);
    && (HoldsLock(pc) <==> s.lock == Some(ByActor(a)))
    && (pc.Killing? ==> s.child)
    && (pc.Cleared? ==> !s.child)
    && (pc.Unlocking? ==> !s.child)
    && !pc.WaitLast?
  }

  /** The lock, the child and the channel agree; an exit is published once. */
  predicate Core(s: State) {
    && ((s.reaper.Polling? || s.reaper.Reaped? || s.reaper.Published?) <==> s.lock == Some(ByReaper))
    && (s.reaper.Reaped? ==> !s.child)
    && (s.reaper.Published? || s.reaper.Gone? ==> s.exit.Some?)
    && (s.child <==> s.exit.None? && !Unpublished(s))
    && (s.exit.Some? ==> !Unpublished(s))
    && s.sent == (if s.exit.Some? then [s.exit.value] else [])
    && s.madeUp == 0
    && (s.stopped > 0 ==> s.exit.Some?)
  }

  predicate AnswersOk(answers: seq<Option<Exit>>, exit: Option<Exit>) {
    forall i :: 0 <= i < |answers| ==> answers[i] == exit && exit.Some?
  }

  ghost predicate Inv(s: State) {
    Core(s) && AnswersOk(s.answers, s.exit) && forall a :: ActorOk(s, a)
  }

  /** Who takes the step, and who holds the lock: the only callers a step depends on. */
  ghost predicate Involved(s: State, e: Event) {
    && (e.ReapLock? || e.ReapPoll? || e.ReapSend? || e.ReapUnlock? || ActorOk(s, e.actor))
    && (s.lock.Some? && s.lock.value.ByActor? ==> ActorOk(s, s.lock.value.actor))
  }

  lemma CoreStep(s: State, e: Event)
    requires Core(s) && Involved(s, e) && Enabled(s, e)
    ensures Core(Step(s, e))
    ensures s.exit.Some? ==> Step(s, e).exit == s.exit
  {
  }

  lemma ActorStep(s: State, e: Event, a: Actor)
    requires Core(s) && Involved(s, e) && Enabled(s, e) && ActorOk(s, a)
    ensures ActorOk(Step(s, e), a)
  {
  }

  /** Answers are given only once an exit is published, and then it is the answer. */
  lemma AnswersStep(s: State, e: Event)
    requires Involved(s, e) && Enabled(s, e)
    ensures var t := Step(s, e);
            t.answers == s.answers || (t.answers == s.answers + [s.exit] && s.exit.Some?)
  {
  }

  lemma AnswersKept(answers: seq<Option<Exit>>, exit: Option<Exit>, answers': seq<Option<Exit>>, exit': Option<Exit>)
    requires AnswersOk(answers, exit) && (exit.Some? ==> exit' == exit)
    requires answers' == answers || (answers' == answers + [exit] && exit.Some?)
    ensures AnswersOk(answers', exit')
  {
  }

  lemma StepInv(s: State, e: Event)
    requires Inv(s) && Enabled(s, e)
    ensures Inv(Step(s, e))
    ensures s.exit.Some? ==> Step(s, e).exit == s.exit
  {
    assert Involved(s, e);
    CoreStep(s, e);
    AnswersStep(s, e);
    AnswersKept(s.answers, s.exit, Step(s, e).answers, Step(s, e).exit);
    forall a ensures ActorOk(Step(s, e), a) { ActorStep(s, e, a); }
  }

  lemma {:induction false} RunInv(s: State, es: seq<Event>)
    requires Inv(s) && IsRun(s, es)
    ensures Inv(Exec(s, es))
    ensures s.exit.Some? ==> Exec(s, es).exit == s.exit
    decreases |es|
  {
    if es != [] {
      StepInv(s, es[0]);
      RunInv(Step(s, es[0]), es[1..]);
    }
  }

  // ---------------------------------------------------------------- every interleaving

  /** Whenever the lock is free, the child is gone exactly if an exit is published. */
  lemma FreeLockAgreement(es: seq<Event>)
    requires IsRun(INIT, es) && Exec(INIT, es).lock.None?
    ensures !Exec(INIT, es).child <==> Exec(INIT, es).exit.Some?
  {
    RunInv(INIT, es);
  }

  /** An exit is published at most once, and is what the channel holds from then on. */
  lemma PublishedOnce(es: seq<Event>, more: seq<Event>)
    requires IsRun(INIT, es) && IsRun(Exec(INIT, es), more)
    ensures |Exec(INIT, es).sent| <= 1
    ensures Exec(INIT, es).sent != [] ==> Exec(INIT, es).exit == Some(Exec(INIT, es).sent[0])
    ensures Exec(INIT, es).exit.Some? ==> Exec(Exec(INIT, es), more).exit == Exec(INIT, es).exit
  {
    RunInv(INIT, es);
    RunInv(Exec(INIT, es), more);
  }

  /** All waiters get the one published exit; none reaches the fallback, let alone a made-up exit. */
  lemma WaitersAgree(es: seq<Event>, i: nat, a: Actor)
    requires IsRun(INIT, es)
    ensures var s := Exec(INIT, es);
            && (i < |s.answers| ==> s.sent != [] && s.answers[i] == Some(s.sent[0]))
            && s.madeUp == 0 && !s.PcOf(a).WaitLast?
  {
    RunInv(INIT, es);
    var s := Exec(INIT, es);
    assert ActorOk(s, a) && (i < |s.answers| ==> s.answers[i] == s.exit);
  }

  /** Once a kill or a release of the terminal has returned, its exit is published. */
  lemma StoppedIsPublished(es: seq<Event>)
    requires IsRun(INIT, es) && Exec(INIT, es).stopped > 0
    ensures Exec(INIT, es).exit.Some? && !Exec(INIT, es).child
  {
    RunInv(INIT, es);
  }

  /** The locked section of a holder can always go on. */
  function HolderAction(s: State, poll: Poll): Event {
    match s.lock
    case Some(ByActor(a)) =>
      (match s.PcOf(a)
       case Deciding => Decide(a)
       case Killing => Clear(a)
       case Cleared => Send(a)
       case _ => Unlock(a))
    case _ => if s.reaper.Polling? then ReapPoll(poll) else if s.reaper.Reaped? then ReapSend else ReapUnlock
  }

  /** No deadlock: a held lock can be worked off, and a waiter is blocked only while a reaper still watches the child. */
  lemma NobodyIsStuck(es: seq<Event>, a: Actor, poll: Poll)
    requires IsRun(INIT, es)
    ensures var s := Exec(INIT, es);
            && (s.lock.Some? ==> Enabled(s, HolderAction(s, poll)))
            && (s.PcOf(a).WaitChanged? && !Enabled(s, Changed(a)) ==> s.exit.None? && !s.reaper.Gone?)
  {
    RunInv(INIT, es);
    var s := Exec(INIT, es);
    if s.lock.Some? && s.lock.value.ByActor? { assert ActorOk(s, s.lock.value.actor); }
  }

  // ---------------------------------------------------------------- what is published

  /** The exit that an event calls for: a poll that finds the child ended, or a kill of the child. */
  function EndingOf(s: State, e: Event): seq<Exit> {
    match e
    case ReapPoll(Exited(code, bySignal)) =>
      if !s.child then []
      else if code.None? then [Exit(None, bySignal)]
      else [Exit(Some(if code.value < 0 then code.value + 0x1_0000_0000 else code.value), bySignal)]
    case ReapPoll(WaitFailed) => if s.child then [Exit(None, false)] else []
    case Clear(_) => [Exit(None, true)]
    case _ => []
  }

  function Endings(s: State, es: seq<Event>): seq<Exit>
    requires IsRun(s, es)
    decreases |es|
  {
    if es == [] then [] else EndingOf(s, es[0]) + Endings(Step(s, es[0]), es[1..])
  }

  /** The exit that has been taken from the child and still has to be published. */
  function Held(s: State): seq<Exit> {
    match s.lock
    case None => []
    case Some(ByReaper) => if s.reaper.Reaped? then [s.reaper.exit] else []
    case Some(ByActor(a)) => if s.PcOf(a).Cleared? then [Exit(None, true)] else []
  }

  /** The exits taken from the child so far. */
  function Taken(s: State): seq<Exit> { s.sent + Held(s) }

  /** Either nothing is published, and what is held changes by the event's ending; or what is held is published. */
  lemma HeldStep(s: State, e: Event, t: State)
    requires Core(s) && Involved(s, e) && Enabled(s, e) && t == Step(s, e)
    ensures || (t.sent == s.sent && Held(s) == [] && Held(t) == EndingOf(s, e))
            || (t.sent == s.sent && Held(t) == Held(s) && EndingOf(s, e) == [])
            || (t.sent == s.sent + Held(s) && Held(t) == [] && EndingOf(s, e) == [])
  {
  }

  lemma Account(sent: seq<Exit>, held: seq<Exit>, ending: seq<Exit>, sent': seq<Exit>, held': seq<Exit>)
    requires || (sent' == sent && held == [] && held' == ending)
             || (sent' == sent && held' == held && ending == [])
             || (sent' == sent + held && held' == [] && ending == [])
    ensures sent' + held' == sent + held + ending
  {
    if held == [] { assert sent + held == sent; }
    if ending == [] { assert sent + held + ending == sent + held; }
    if held' == [] { assert sent' + held' == sent'; }
  }

  lemma EndingStep(s: State, e: Event, t: State)
    requires Inv(s) && Enabled(s, e) && t == Step(s, e)
    ensures Taken(t) == Taken(s) + EndingOf(s, e)
  {
    assert Involved(s, e);
    HeldStep(s, e, t);
    Account(s.sent, Held(s), EndingOf(s, e), t.sent, Held(t));
  }

  lemma {:induction false} EndingsRun(s: State, es: seq<Event>, taken: seq<Exit>)
    requires Inv(s) && IsRun(s, es) && Taken(s) == taken
    ensures Taken(Exec(s, es)) == taken + Endings(s, es)
    decreases |es|
  {
    if es == [] {
      assert taken + [] == taken;
    } else {
      var t, now := Step(s, es[0]), EndingOf(s, es[0]);
      EndingStep(s, es[0], t);
      StepInv(s, es[0]);
      EndingsRun(t, es[1..], taken + now);
      Regroup(taken, now, Endings(t, es[1..]));
    }
  }

  lemma Regroup(a: seq<Exit>, b: seq<Exit>, c: seq<Exit>)
    ensures a + b + c == a + (b + c)
  {
  }

  /**
   What is published, over every run: the child ends at most once, and as soon as the lock is free its exit is the one
   published: the polled code as an unsigned one and whether a signal ended the child, no code and no signal if polling
   failed, or no code and a signal if it was killed.
   */
  lemma PublishedIsTheEnding(es: seq<Event>)
    requires IsRun(INIT, es)
    ensures |Endings(INIT, es)| <= 1
    ensures Exec(INIT, es).lock.None?
            ==> Exec(INIT, es).exit == if Endings(INIT, es) == [] then None else Some(Endings(INIT, es)[0])
  {
    RunInv(INIT, es);
    EndingsRun(INIT, es, []);
    var s := Exec(INIT, es);
    assert s.sent + Held(s) == Endings(INIT, es);
    assert s.exit.Some? ==> Held(s) == [] && s.sent + [] == s.sent;
  }

  // ---------------------------------------------------------------- one call

  predicate IsBy(e: Event, a: Actor) {
    !e.ReapLock? && !e.ReapPoll? && !e.ReapSend? && !e.ReapUnlock? && e.actor == a
  }

  /** The caller only waits for others. */
  predicate Rests(es: seq<Event>, a: Actor) { forall k :: 0 <= k < |es| ==> !IsBy(es[k], a) }

  /** The caller begins nothing else. */
  predicate BeginsNothing(es: seq<Event>, a: Actor) { forall k :: 0 <= k < |es| ==> !(es[k].Begin? && es[k].actor == a) }

  lemma {:induction false} RestingKeepsPc(s: State, es: seq<Event>, a: Actor)
    requires IsRun(s, es) && Rests(es, a)
    ensures Exec(s, es).PcOf(a) == s.PcOf(a)
    decreases |es|
  {
    if es != [] {
      assert !IsBy(es[0], a);
      RestingKeepsPc(Step(s, es[0]), es[1..], a);
    }
  }

  /** A call that found the terminal: under way, or the exit is there, and for a waiter its answer. */
  predicate OnItsWay(s: State, a: Actor, waits: bool) {
    var pc := s.PcOf(a);
    if waits then pc.WaitChecking? || pc.WaitChanged? || pc.WaitLast? || (pc.Idle? && s.answers != [])
    else HoldsSender(pc) || (pc.Idle? && s.exit.Some? && !s.child && s.stopped > 0)
  }

  lemma WaiterStep(s: State, e: Event, a: Actor)
    requires Enabled(s, e) && OnItsWay(s, a, true) && ActorOk(s, a) && !(e.Begin? && e.actor == a)
    ensures OnItsWay(Step(s, e), a, true)
  {
  }

  lemma StopperStep(s: State, e: Event, a: Actor)
    requires Core(s) && Involved(s, e) && Enabled(s, e) && OnItsWay(s, a, false) && ActorOk(s, a)
    requires !(e.Begin? && e.actor == a)
    ensures OnItsWay(Step(s, e), a, false)
  {
  }

  lemma OnItsWayStep(s: State, e: Event, a: Actor, waits: bool)
    requires Inv(s) && Enabled(s, e) && OnItsWay(s, a, waits) && !(e.Begin? && e.actor == a)
    ensures OnItsWay(Step(s, e), a, waits)
  {
    assert ActorOk(s, a) && Involved(s, e);
    if waits { WaiterStep(s, e, a); } else { StopperStep(s, e, a); }
  }

  lemma {:induction false} OnItsWayRun(s: State, es: seq<Event>, a: Actor, waits: bool)
    requires Inv(s) && IsRun(s, es) && OnItsWay(s, a, waits) && BeginsNothing(es, a)
    ensures OnItsWay(Exec(s, es), a, waits)
    decreases |es|
  {
    if es != [] {
      StepInv(s, es[0]);
      OnItsWayStep(s, es[0], a, waits);
      OnItsWayRun(Step(s, es[0]), es[1..], a, waits);
    }
  }

  /**
   One call in any interleaving. If it finds the terminal registered, then whenever it has returned the child is gone
   and its exit published, and a waiter has been answered. Otherwise it returns at once and changes nothing.
   */
  lemma CallIsServed(es: seq<Event>, a: Actor, call: Call, mid: seq<Event>, more: seq<Event>)
    requires IsRun(INIT, es) && Enabled(Exec(INIT, es), Begin(a, call))
    requires var t := Step(Exec(INIT, es), Begin(a, call)); IsRun(t, mid) && Rests(mid, a)
    ensures var u := Exec(Step(Exec(INIT, es), Begin(a, call)), mid);
            && Enabled(u, Lookup(a))
            && var v := Step(u, Lookup(a));
            && (v.registered <==> u.registered && call != Release)
            && (!u.registered ==> v == u.(pcs := u.pcs[a := Idle]))
            && (u.registered && IsRun(v, more) && BeginsNothing(more, a) && Exec(v, more).PcOf(a).Idle?
                ==> if call == WaitForExit then Exec(v, more).answers != [] && Exec(v, more).exit.Some?
                    else Exec(v, more).exit.Some? && !Exec(v, more).child && Exec(v, more).stopped > 0)
  {
    RunInv(INIT, es);
    var s := Exec(INIT, es);
    var t := Step(s, Begin(a, call));
    StepInv(s, Begin(a, call));
    RunInv(t, mid);
    RestingKeepsPc(t, mid, a);
    var u := Exec(t, mid);
    FoundCall(u, a, call, more);
  }

  lemma FoundCall(u: State, a: Actor, call: Call, more: seq<Event>)
    requires Inv(u) && u.PcOf(a) == FirstPc(call)
    ensures var v := Step(u, Lookup(a));
            && (v.registered <==> u.registered && call != Release)
            && (!u.registered ==> v == u.(pcs := u.pcs[a := Idle]))
            && (u.registered && IsRun(v, more) && BeginsNothing(more, a) && Exec(v, more).PcOf(a).Idle?
                ==> if call == WaitForExit then Exec(v, more).answers != [] && Exec(v, more).exit.Some?
                    else Exec(v, more).exit.Some? && !Exec(v, more).child && Exec(v, more).stopped > 0)
  {
    var v := Step(u, Lookup(a));
    StepInv(u, Lookup(a));
    if u.registered && IsRun(v, more) && BeginsNothing(more, a) {
      RunInv(v, more);
      OnItsWayRun(v, more, a, call == WaitForExit);
      assert Exec(v, more).answers != [] ==> Exec(v, more).answers[0] == Exec(v, more).exit;
    }
  }

  /** Only a release takes the terminal out of the registry. */
  lemma OnlyReleaseUnregisters(s: State, e: Event)
    requires Enabled(s, e)
    ensures Step(s, e).registered <==> s.registered && !(e.Lookup? && s.PcOf(e.actor) == Looking(true))
  {
  }

  /** The reaper always gets there: while it is alive and the lock is free, the end of the child is published in four steps. */
  lemma ReaperPublishes(es: seq<Event>, poll: Poll)
    requires IsRun(INIT, es) && Exec(INIT, es).lock.None? && Exec(INIT, es).child && !poll.StillRunning?
    ensures var s, more := Exec(INIT, es), [ReapLock, ReapPoll(poll), ReapSend, ReapUnlock];
            IsRun(s, more) && Exec(s, more).exit.Some? && !Exec(s, more).child && Exec(s, more).lock.None?
  {
    RunInv(INIT, es);
    var s := Exec(INIT, es);
    var s1 := Step(s, ReapLock);
    var s2 := Step(s1, ReapPoll(poll));
    var s3 := Step(s2, ReapSend);
    var s4 := Step(s3, ReapUnlock);
    RunCons(s3, ReapUnlock, s4, []);
    RunCons(s2, ReapSend, s3, [ReapUnlock]);
    RunCons(s1, ReapPoll(poll), s2, [ReapSend, ReapUnlock]);
    RunCons(s, ReapLock, s1, [ReapPoll(poll), ReapSend, ReapUnlock]);
  }

  lemma RunCons(s: State, e: Event, t: State, rest: seq<Event>)
    requires Enabled(s, e) && Step(s, e) == t && IsRun(t, rest)
    ensures IsRun(s, [e] + rest) && Exec(s, [e] + rest) == Exec(t, rest)
  {
    assert ([e] + rest)[1..] == rest;
  }
}
