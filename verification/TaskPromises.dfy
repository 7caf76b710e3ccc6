/** When racing callers can rely on the capabilities they asked for. */
module TaskPromises {
  import opened Types
  import opened TaskLifecycle
  import opened TaskSafety
  import opened TaskLookups

  type Wants = iset<RuntimeCapabilities>

  /** Every answer for `conv` satisfies its request. */
  predicate PromiseKept(s: State, conv: ConvId) {
    forall i :: 0 <= i < |s.answers| && s.answers[i].slot.conv == conv ==>
      s.answers[i].agent in s.builds && s.builds[s.answers[i].agent].caps.Satisfies(s.answers[i].want)
  }

  /** The callers of get-or-build for `conv` ask for members of `ws`. */
  ghost predicate EventAsks(e: Event, conv: ConvId, ws: Wants) {
    e.Begin? && e.op.GetOrBuild? && e.op.conv == conv ==> e.op.want in ws
  }

  ghost predicate AsksFrom(es: seq<Event>, conv: ConvId, ws: Wants) {
    forall i :: 0 <= i < |es| ==> EventAsks(es[i], conv, ws)
  }

  // ---------------------------------------------------------------- requests on their way

  ghost predicate NextAsks(next: Next, conv: ConvId, ws: Wants) {
    next.AfterRebuild? && next.conv == conv ==> next.want in ws
  }

  /** A request for `conv` that a caller carries is a member of `ws`. */
  ghost predicate PcAsks(pc: Pc, conv: ConvId, ws: Wants) {
    match pc
    case Checking(k, want) => k == conv ==> want in ws
    case Locating(k, want) => k == conv ==> want in ws
    case Waiting(want, slot) => slot.conv == conv ==> want in ws
    case Building(want, slot, _) => slot.conv == conv ==> want in ws
    case Taking(_, next) => NextAsks(next, conv, ws)
    case Inspecting(_, next) => NextAsks(next, conv, ws)
    case _ => true
  }

  ghost predicate BuildAsks(s: State, a: Agent, conv: ConvId, ws: Wants) {
    a in s.builds && s.builds[a].slot.conv == conv ==> s.builds[a].caps in ws
  }

  ghost predicate AnswerAsks(r: Answer, conv: ConvId, ws: Wants) { r.slot.conv == conv ==> r.want in ws }

  ghost predicate AllAsk(s: State, conv: ConvId, ws: Wants) {
    && (forall c :: PcAsks(s.PcOf(c), conv, ws))
    && (forall a :: BuildAsks(s, a, conv, ws))
    && (forall i :: 0 <= i < |s.answers| ==> AnswerAsks(s.answers[i], conv, ws))
  }

  /** The moving caller carries its request along. */
  ghost predicate Carries(s: State, e: Event, t: State, conv: ConvId, ws: Wants) {
    PcAsks(s.PcOf(e.caller), conv, ws) && EventAsks(e, conv, ws) ==> PcAsks(t.PcOf(e.caller), conv, ws)
  }

  lemma CarriesStart(s: State, e: Event, t: State, conv: ConvId, ws: Wants)
    requires Enabled(s, e) && t == Step(s, e) && (e.Begin? || e.Check?)
    ensures Carries(s, e, t, conv, ws)
  {
  }

  lemma CarriesLocate(s: State, e: Event, t: State, conv: ConvId, ws: Wants)
    requires SlotsOk(s) && Enabled(s, e) && t == Step(s, e) && e.Locate?
    ensures Carries(s, e, t, conv, ws)
  {
    assert s.PcOf(e.caller).conv in s.tasks ==> TaskOk(s, s.PcOf(e.caller).conv);
  }

  lemma CarriesEnter(s: State, e: Event, t: State, conv: ConvId, ws: Wants)
    requires Enabled(s, e) && t == Step(s, e) && e.Enter?
    ensures Carries(s, e, t, conv, ws)
  {
  }

  lemma CarriesTake(s: State, e: Event, t: State, conv: ConvId, ws: Wants)
    requires Enabled(s, e) && t == Step(s, e) && e.Take?
    ensures Carries(s, e, t, conv, ws)
  {
  }

  lemma CarriesInspect(s: State, e: Event, t: State, conv: ConvId, ws: Wants)
    requires Enabled(s, e) && t == Step(s, e) && e.Inspect?
    ensures Carries(s, e, t, conv, ws)
  {
    var was := s.PcOf(e.caller);
    var pc := InspectMoves(s, e.caller, was.slot, was.next, e.killOk);
    ResumeAsks(was.next, true, conv, ws);
    ResumeAsks(was.next, e.killOk, conv, ws);
  }

  /** A remover resumes with the request of the rebuild it belongs to. */
  lemma ResumeAsks(next: Next, ok: bool, conv: ConvId, ws: Wants)
    ensures NextAsks(next, conv, ws) ==> PcAsks(Resume(next, ok), conv, ws)
  {
  }

  lemma CarriesEnd(s: State, e: Event, t: State, conv: ConvId, ws: Wants)
    requires Enabled(s, e) && t == Step(s, e)
    requires e.FactoryOk? || e.FactoryErr? || e.Terminated?
    ensures Carries(s, e, t, conv, ws)
  {
    assert t.PcOf(e.caller) == Idle;
  }

  lemma CarriesNextKey(s: State, e: Event, t: State, conv: ConvId, ws: Wants)
    requires Enabled(s, e) && t == Step(s, e) && e.NextKey?
    ensures Carries(s, e, t, conv, ws)
  {
    assert t.PcOf(e.caller).Idle? || t.PcOf(e.caller).Taking?;
  }

  lemma CarriesResolve(s: State, e: Event, t: State, conv: ConvId, ws: Wants)
    requires Enabled(s, e) && t == Step(s, e) && e.Resolve?
    ensures Carries(s, e, t, conv, ws)
  {
    assert t.PcOf(e.caller).Idle? || t.PcOf(e.caller).Terminating?;
  }

  lemma StepCarries(s: State, e: Event, t: State, conv: ConvId, ws: Wants)
    requires SlotsOk(s) && Enabled(s, e) && t == Step(s, e)
    ensures Carries(s, e, t, conv, ws)
  {
    match e
    case Begin(_, _) => CarriesStart(s, e, t, conv, ws);
    case Check(_) => CarriesStart(s, e, t, conv, ws);
    case Locate(_) => CarriesLocate(s, e, t, conv, ws);
    case Enter(_) => CarriesEnter(s, e, t, conv, ws);
    case Take(_) => CarriesTake(s, e, t, conv, ws);
    case Inspect(_, _) => CarriesInspect(s, e, t, conv, ws);
    case NextKey(_) => CarriesNextKey(s, e, t, conv, ws);
    case Resolve(_) => CarriesResolve(s, e, t, conv, ws);
    case _ => CarriesEnd(s, e, t, conv, ws);
  }

  // ---------------------------------------------------------------- what is recorded

  /** A recorded build or answer carries the request of the caller that made it. */
  ghost predicate Records(s: State, e: Event, t: State) {
    var pc := s.PcOf(e.caller);
    && (forall a :: a in s.builds ==> a in t.builds && t.builds[a] == s.builds[a])
    && (forall a :: a in t.builds && a !in s.builds ==>
          pc.Building? && t.builds[a].slot == pc.slot && t.builds[a].caps == pc.want
          && t.answers == s.answers + [Answer(e.caller, pc.want, pc.slot, a)])
    && s.answers <= t.answers
    && (forall i :: |s.answers| <= i < |t.answers| ==>
          (pc.Waiting? || pc.Building?) && t.answers[i].slot == pc.slot && t.answers[i].want == pc.want)
  }

  lemma RecordsFactoryOk(s: State, e: Event, t: State)
    requires Enabled(s, e) && t == Step(s, e) && e.FactoryOk?
    ensures Records(s, e, t)
  {
  }

  lemma RecordsEnter(s: State, e: Event, t: State)
    requires Enabled(s, e) && t == Step(s, e) && e.Enter?
    ensures Records(s, e, t)
  {
  }

  lemma RecordsMoves(s: State, e: Event, t: State)
    requires Enabled(s, e) && t == Step(s, e) && (e.Begin? || e.Check? || e.NextKey? || e.Terminated? || e.FactoryErr?)
    ensures Records(s, e, t)
  {
    assert t.builds == s.builds && t.answers == s.answers;
  }

  lemma RecordsMap(s: State, e: Event, t: State)
    requires Enabled(s, e) && t == Step(s, e) && (e.Locate? || e.Take?)
    ensures Records(s, e, t)
  {
    assert t.builds == s.builds && t.answers == s.answers;
  }

  lemma RecordsKills(s: State, e: Event, t: State)
    requires Enabled(s, e) && t == Step(s, e) && (e.Inspect? || e.Resolve?)
    ensures Records(s, e, t)
  {
    assert t.builds == s.builds && t.answers == s.answers;
  }

  lemma StepRecords(s: State, e: Event, t: State)
    requires Enabled(s, e) && t == Step(s, e)
    ensures Records(s, e, t)
  {
    match e
    case FactoryOk(_, _) => RecordsFactoryOk(s, e, t);
    case Enter(_) => RecordsEnter(s, e, t);
    case Locate(_) => RecordsMap(s, e, t);
    case Take(_) => RecordsMap(s, e, t);
    case Inspect(_, _) => RecordsKills(s, e, t);
    case Resolve(_) => RecordsKills(s, e, t);
    case _ => RecordsMoves(s, e, t);
  }

  lemma AllAskStep(s: State, e: Event, t: State, conv: ConvId, ws: Wants)
    requires AllAsk(s, conv, ws) && EventAsks(e, conv, ws)
    requires Tracks(s, e, t) && Carries(s, e, t, conv, ws) && Records(s, e, t)
    ensures AllAsk(t, conv, ws)
  {
    assert PcAsks(s.PcOf(e.caller), conv, ws);
    forall c ensures PcAsks(t.PcOf(c), conv, ws) { assert PcAsks(s.PcOf(c), conv, ws); }
    forall a ensures BuildAsks(t, a, conv, ws) { assert BuildAsks(s, a, conv, ws); }
    forall i | 0 <= i < |t.answers| ensures AnswerAsks(t.answers[i], conv, ws) {
      if i < |s.answers| { assert t.answers[i] == s.answers[i]; }
    }
  }

  lemma {:induction false} RunAsks(s: State, es: seq<Event>, conv: ConvId, ws: Wants)
    requires Inv(s) && IsRun(s, es) && AllAsk(s, conv, ws) && AsksFrom(es, conv, ws)
    ensures AllAsk(Exec(s, es), conv, ws)
    decreases |es|
  {
    if es != [] {
      var t := Step(s, es[0]);
      assert EventAsks(es[0], conv, ws);
      StepInv(s, es[0]);
      StepTracks(s, es[0], t);
      StepCarries(s, es[0], t, conv, ws);
      StepRecords(s, es[0], t);
      AllAskStep(s, es[0], t, conv, ws);
      RunAsks(t, es[1..], conv, ws);
    }
  }

  // ---------------------------------------------------------------- the promise

  /** Among requests that all satisfy each other, no interleaving breaks the promise. */
  lemma PromiseHolds(es: seq<Event>, conv: ConvId, ws: Wants)
    requires IsRun(INIT, es) && AsksFrom(es, conv, ws)
    requires forall v, w :: v in ws && w in ws ==> v.Satisfies(w)
    ensures PromiseKept(Exec(INIT, es), conv)
  {
    InitInv();
    RunInv(INIT, es);
    RunAsks(INIT, es, conv, ws);
    var s := Exec(INIT, es);
    forall i | 0 <= i < |s.answers| && s.answers[i].slot.conv == conv
      ensures s.answers[i].agent in s.builds && s.builds[s.answers[i].agent].caps.Satisfies(s.answers[i].want)
    {
      assert AnswerOk(s, s.answers[i]) && AnswerAsks(s.answers[i], conv, ws);
      assert BuildAsks(s, s.answers[i].agent, conv, ws);
    }
  }

  /** A caller that asks for `w` and joins the build of one that asked for `v` is handed what `v` asked for. */
  lemma JoinedBuild(conv: ConvId, v: RuntimeCapabilities, w: RuntimeCapabilities) returns (es: seq<Event>)
    ensures IsRun(INIT, es) && forall ws: Wants :: v in ws && w in ws ==> AsksFrom(es, conv, ws)
    ensures var s := Exec(INIT, es);
            && |s.answers| == 2 && s.answers[1].slot.conv == conv && s.answers[1].want == w
            && s.answers[1].agent in s.builds && s.builds[s.answers[1].agent].caps == v
  {
    var first := StartBuild(conv, v);
    var joined := JoinBuild(first, conv, w, v);
    es := Then(joined, FactoryOk(0, 7));
    es := Then(es, Enter(1));
    assert es == first + [Begin(1, GetOrBuild(conv, w)), Check(1), Locate(1)] + [FactoryOk(0, 7), Enter(1)];
  }

  /** Caller 1 looks up the slot that caller 0 is building in. */
  lemma JoinBuild(first: seq<Event>, conv: ConvId, w: RuntimeCapabilities, v: RuntimeCapabilities) returns (es: seq<Event>)
    requires IsRun(INIT, first) && Exec(INIT, first) == BuildingState(conv, v)
    ensures es == first + [Begin(1, GetOrBuild(conv, w)), Check(1), Locate(1)] && IsRun(INIT, es)
    ensures Exec(INIT, es) == Exec(INIT, first).(
                                pcs := map[0 := Building(v, Slot(conv, 0), 0), 1 := Waiting(w, Slot(conv, 0))])
  {
    es := Then(first, Begin(1, GetOrBuild(conv, w)));
    es := Then(es, Check(1));
    es := Then(es, Locate(1));
    assert Exec(INIT, es).pcs == map[0 := Building(v, Slot(conv, 0), 0), 1 := Waiting(w, Slot(conv, 0))];
  }

  /**
   Exactly when racing callers can rely on what they ask for: no interleaving hands out an agent that falls
   short of a request if, and only if, all requests made for the conversation satisfy each other.
   */
  lemma PromiseKeptIff(conv: ConvId, ws: Wants)
    ensures (forall es :: IsRun(INIT, es) && AsksFrom(es, conv, ws) ==> PromiseKept(Exec(INIT, es), conv))
            <==> forall v, w :: v in ws && w in ws ==> v.Satisfies(w)
  {
    if forall v, w :: v in ws && w in ws ==> v.Satisfies(w) {
      forall es | IsRun(INIT, es) && AsksFrom(es, conv, ws) ensures PromiseKept(Exec(INIT, es), conv) {
        PromiseHolds(es, conv, ws);
      }
    } else {
      var v, w :| v in ws && w in ws && !v.Satisfies(w);
      var es := JoinedBuild(conv, v, w);
      assert !PromiseKept(Exec(INIT, es), conv);
    }
  }

  // ---------------------------------------------------------------- the caller whose factory ran

  /** Each agent was handed to a caller that asked for exactly the capabilities it was built with. */
  predicate OwnServed(s: State, a: Agent) {
    a in s.builds && exists i :: 0 <= i < |s.answers| && s.answers[i].agent == a && s.answers[i].want == s.builds[a].caps
  }

  lemma OwnServedStep(s: State, e: Event, t: State, a: Agent)
    requires Records(s, e, t) && a in t.builds && (a in s.builds ==> OwnServed(s, a))
    ensures OwnServed(t, a)
  {
    if a in s.builds {
      var i :| 0 <= i < |s.answers| && s.answers[i].agent == a && s.answers[i].want == s.builds[a].caps;
      assert t.answers[i] == s.answers[i];
    } else {
      assert t.answers[|s.answers|].agent == a && t.answers[|s.answers|].want == t.builds[a].caps;
    }
  }

  /** In every interleaving the caller whose factory ran gets exactly what it asked for. */
  lemma {:induction false} BuilderIsServed(s: State, es: seq<Event>)
    requires IsRun(s, es) && forall a :: a in s.builds ==> OwnServed(s, a)
    ensures forall a :: a in Exec(s, es).builds ==> OwnServed(Exec(s, es), a)
    decreases |es|
  {
    if es != [] {
      var t := Step(s, es[0]);
      StepRecords(s, es[0], t);
      forall a | a in t.builds ensures OwnServed(t, a) { OwnServedStep(s, es[0], t, a); }
      BuilderIsServed(t, es[1..]);
    }
  }
}
