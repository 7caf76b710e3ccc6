/** What holds along every run of a card: order, rate, freshness, accumulation and phase accounts. */
module WorkflowRuns {
  import opened Common
  import opened WorkflowProgress

  datatype Op =
    | Update(id: string, detail: AgentEntry)
    | Declare(index: nat, title: string)
    | Settle(status: CardStatus)
    | Emit(now: Timestamp, forced: bool)

  function Apply(c: Card, op: Op, fmt: Formats): Card {
    match op
    case Update(id, detail) => Upsert(c, id, detail)
    case Declare(index, title) => c.(phases := c.phases[index := title])
    case Settle(status) => c.(status := status, agents := SettledRoster(c.agents))
    case Emit(now, forced) => AfterEmit(c, now, forced, fmt)
  }

  function Run(c: Card, ops: seq<Op>, fmt: Formats): Card
    decreases |ops|
  {
    if ops == [] then c else Run(Apply(c, ops[0], fmt), ops[1..], fmt)
  }

  /** What one operation sends. */
  function Sent(c: Card, op: Op, fmt: Formats): seq<Emission> {
    if op.Emit? && Emits(c, op.now, op.forced, fmt) then [EmissionOf(c, op.now, fmt)] else []
  }

  function Emissions(c: Card, ops: seq<Op>, fmt: Formats): seq<Emission>
    decreases |ops|
  {
    if ops == [] then [] else Sent(c, ops[0], fmt) + Emissions(Apply(c, ops[0], fmt), ops[1..], fmt)
  }

  // ---------------------------------------------------------------- a stable order

  lemma StepKeepsOrder(c: Card, op: Op, fmt: Formats)
    ensures Ids(c.agents) <= Ids(Apply(c, op, fmt).agents)
    ensures DistinctIds(c.agents) ==> DistinctIds(Apply(c, op, fmt).agents)
    ensures Apply(c, op, fmt).callId == c.callId && Apply(c, op, fmt).kind == c.kind
  {
  }

  /** Roster keys stay distinct and in the order in which they first appeared. */
  lemma {:induction false} RosterOnlyGrows(c: Card, ops: seq<Op>, fmt: Formats)
    requires DistinctIds(c.agents)
    ensures DistinctIds(Run(c, ops, fmt).agents) && Ids(c.agents) <= Ids(Run(c, ops, fmt).agents)
    ensures Run(c, ops, fmt).callId == c.callId && Run(c, ops, fmt).kind == c.kind
    decreases |ops|
  {
    if ops != [] {
      StepKeepsOrder(c, ops[0], fmt);
      RosterOnlyGrows(Apply(c, ops[0], fmt), ops[1..], fmt);
    }
  }

  function EntryIds(entries: seq<ToolGroupEntry>): seq<string> {
    seq(|entries|, i requires 0 <= i < |entries| => entries[i].callId)
  }

  /** The entry ids of a roster: every key behind the container's id. */
  function IdsBehind(callId: string, ids: seq<string>): seq<string> {
    seq(|ids|, i requires 0 <= i < |ids| => EntryId(callId, ids[i]))
  }

  /** Each emission of a workflow lists the full roster it was made from, in roster order. */
  lemma EmissionListsRoster(c: Card, now: Timestamp, fmt: Formats)
    requires c.kind == Workflow
    ensures EntryIds(EmissionOf(c, now, fmt).entries) == IdsBehind(c.callId, Ids(c.agents))
  {
  }

  lemma SentListsRoster(c: Card, op: Op, fmt: Formats)
    requires c.kind == Workflow
    ensures Sent(c, op, fmt) != [] ==>
              |Sent(c, op, fmt)| == 1 && c.agents != []
              && EntryIds(Sent(c, op, fmt)[0].entries) == IdsBehind(c.callId, Ids(c.agents))
  {
    if op.Emit? { EmissionListsRoster(c, op.now, fmt); }
  }

  /** The ids an emission lists: those known when it was made. */
  ghost predicate Lists(e: Emission, callId: string, from: seq<string>, to: seq<string>) {
    exists n | |from| <= n <= |to| :: n > 0 && EntryIds(e.entries) == IdsBehind(callId, to[..n])
  }

  /** Every emission of a run lists a stretch of the final roster that covers the first one. */
  lemma {:induction false} EmissionsListRosters(c: Card, ops: seq<Op>, fmt: Formats)
    requires c.kind == Workflow && DistinctIds(c.agents)
    ensures Ids(c.agents) <= Ids(Run(c, ops, fmt).agents)
    ensures forall e :: e in Emissions(c, ops, fmt) ==> Lists(e, c.callId, Ids(c.agents), Ids(Run(c, ops, fmt).agents))
    decreases |ops|
  {
    if ops != [] {
      var next, to := Apply(c, ops[0], fmt), Ids(Run(c, ops, fmt).agents);
      StepKeepsOrder(c, ops[0], fmt);
      EmissionsListRosters(next, ops[1..], fmt);
      SentListsRoster(c, ops[0], fmt);
      forall e | e in Emissions(c, ops, fmt) ensures Lists(e, c.callId, Ids(c.agents), to) {
        if e in Sent(c, ops[0], fmt) {
          assert to[..|c.agents|] == Ids(c.agents);
        } else {
          ListsMore(e, c.callId, Ids(c.agents), Ids(next.agents), to);
        }
      }
    }
  }

  lemma ListsMore(e: Emission, callId: string, before: seq<string>, from: seq<string>, to: seq<string>)
    requires Lists(e, callId, from, to) && before <= from
    ensures Lists(e, callId, before, to)
  {
  }

  /** Each emission's entry ids are a prefix of those of every later one. */
  ghost predicate Chain(es: seq<Emission>) {
    forall i, j :: 0 <= i <= j < |es| ==> EntryIds(es[i].entries) <= EntryIds(es[j].entries)
  }

  lemma ChainCons(e: Emission, es: seq<Emission>)
    requires Chain(es) && forall k :: 0 <= k < |es| ==> EntryIds(e.entries) <= EntryIds(es[k].entries)
    ensures Chain([e] + es)
  {
  }

  /** Along a run, the entry ids of an emission are a prefix of those of every later emission. */
  lemma {:induction false} EmissionsExtendEachOther(c: Card, ops: seq<Op>, fmt: Formats)
    requires c.kind == Workflow && DistinctIds(c.agents)
    ensures Chain(Emissions(c, ops, fmt))
    decreases |ops|
  {
    if ops != [] {
      var next := Apply(c, ops[0], fmt);
      var first, rest := Sent(c, ops[0], fmt), Emissions(next, ops[1..], fmt);
      StepKeepsOrder(c, ops[0], fmt);
      EmissionsExtendEachOther(next, ops[1..], fmt);
      if first != [] {
        SentListsRoster(c, ops[0], fmt);
        EmissionsListRosters(next, ops[1..], fmt);
        forall k | 0 <= k < |rest| ensures EntryIds(first[0].entries) <= EntryIds(rest[k].entries) {
          assert rest[k] in rest;
          ListedBehind(rest[k], c.callId, Ids(c.agents), Ids(next.agents), Ids(Run(next, ops[1..], fmt).agents));
        }
        ChainCons(first[0], rest);
        assert first == [first[0]];
      }
    }
  }

  lemma ListedBehind(e: Emission, callId: string, before: seq<string>, from: seq<string>, to: seq<string>)
    requires before <= from <= to && Lists(e, callId, from, to)
    ensures IdsBehind(callId, before) <= EntryIds(e.entries)
  {
    var n :| |from| <= n <= |to| && EntryIds(e.entries) == IdsBehind(callId, to[..n]);
    assert before <= to[..n];
    PrefixBehind(callId, before, to[..n]);
  }

  lemma PrefixBehind(callId: string, a: seq<string>, b: seq<string>)
    requires a <= b
    ensures IdsBehind(callId, a) <= IdsBehind(callId, b)
  {
  }

  // ---------------------------------------------------------------- a replacing consumer

  type Rows = map<string, seq<ToolGroupEntry>>

  /** A consumer that keys a row by its first entry and replaces the row's whole content. */
  function Persist(rows: Rows, entries: seq<ToolGroupEntry>): Rows {
    if entries == [] then rows else rows[entries[0].callId := entries]
  }

  function PersistAll(rows: Rows, es: seq<Emission>): Rows
    decreases |es|
  {
    if es == [] then rows else Persist(PersistAll(rows, es[..|es| - 1]), es[|es| - 1].entries)
  }

  /** After a workflow's whole run the consumer holds exactly one row: the last emission's full roster. */
  lemma ConsumerHoldsOneRow(c: Card, ops: seq<Op>, fmt: Formats)
    requires c.kind == Workflow && DistinctIds(c.agents)
    ensures var es := Emissions(c, ops, fmt);
            && (forall i :: 0 <= i < |es| ==> es[i].entries != [])
            && PersistAll(map[], es)
               == if es == [] then map[] else map[es[0].entries[0].callId := es[|es| - 1].entries]
  {
    var es := Emissions(c, ops, fmt);
    EmissionsListRosters(c, ops, fmt);
    EmissionsExtendEachOther(c, ops, fmt);
    forall i | 0 <= i < |es| ensures es[i].entries != [] {
      assert es[i] in es;
      ListsSome(es[i], c.callId, Ids(c.agents), Ids(Run(c, ops, fmt).agents));
    }
    forall i | 0 <= i < |es| ensures es[i].entries[0].callId == es[0].entries[0].callId {
      assert EntryIds(es[0].entries)[0] == EntryIds(es[i].entries)[0];
    }
    if es != [] {
      PersistSameKey(es, es[0].entries[0].callId);
    }
  }

  lemma ListsSome(e: Emission, callId: string, from: seq<string>, to: seq<string>)
    requires Lists(e, callId, from, to)
    ensures e.entries != []
  {
    assert |EntryIds(e.entries)| == |e.entries|;
  }

  lemma {:induction false} PersistSameKey(es: seq<Emission>, key: string)
    requires es != [] && forall i :: 0 <= i < |es| ==> es[i].entries != [] && es[i].entries[0].callId == key
    ensures PersistAll(map[], es) == map[key := es[|es| - 1].entries]
    decreases |es|
  {
    var front := es[..|es| - 1];
    if front == [] {
      assert PersistAll(map[], front) == map[];
    } else {
      PersistSameKey(front, key);
    }
  }

  /** Two containers can produce equal entry ids exactly when one id, closed by a colon, starts the other. */
  lemma EntryIdsClashIff(a: string, b: string)
    ensures (exists x, y :: EntryId(a, x) == EntryId(b, y)) <==> (a + ":" <= b + ":" || b + ":" <= a + ":")
  {
    if a + ":" <= b + ":" {
      var x := (b + ":")[|a| + 1..];
      assert EntryId(a, x) == (a + ":") + x == b + ":" == EntryId(b, "");
    } else if b + ":" <= a + ":" {
      var y := (a + ":")[|b| + 1..];
      assert EntryId(b, y) == (b + ":") + y == a + ":" == EntryId(a, "");
    }
    forall x, y | EntryId(a, x) == EntryId(b, y) ensures a + ":" <= b + ":" || b + ":" <= a + ":" {
      var s := EntryId(a, x);
      assert s[..|a| + 1] == a + ":" && s[..|b| + 1] == b + ":";
      if |a| <= |b| { assert s[..|b| + 1][..|a| + 1] == s[..|a| + 1]; } else { assert s[..|a| + 1][..|b| + 1] == s[..|b| + 1]; }
    }
  }

  /** Different colon-free containers never do. */
  lemma ColonFreeIdsNeverClash(a: string, x: string, b: string, y: string)
    requires ':' !in a && ':' !in b && a != b
    ensures EntryId(a, x) != EntryId(b, y)
  {
    if EntryId(a, x) == EntryId(b, y) {
      EntryIdsClashIff(a, b);
      if a + ":" <= b + ":" { ColonFreePrefix(a, b); } else { ColonFreePrefix(b, a); }
    }
  }

  lemma ColonFreePrefix(a: string, b: string)
    requires ':' !in b && a + ":" <= b + ":"
    ensures a == b
  {
    var k := |a|;
    assert forall i :: 0 <= i < |b| ==> b[i] != ':';
    assert (a + ":")[k] == (b + ":")[k];
    assert a == (a + ":")[..|a|] == (b + ":")[..|a|];
  }

  // ---------------------------------------------------------------- rate

  /** The calls read a clock that does not go back behind `from`. */
  predicate ForwardClock(ops: seq<Op>, from: Timestamp)
    decreases |ops|
  {
    ops != [] ==>
      if ops[0].Emit? then from <= ops[0].now && ForwardClock(ops[1..], ops[0].now)
      else ForwardClock(ops[1..], from)
  }

  /** The reading of the last call, or `from` without calls. */
  function LastReading(ops: seq<Op>, from: Timestamp): Timestamp
    decreases |ops|
  {
    if ops == [] then from else LastReading(ops[1..], if ops[0].Emit? then ops[0].now else from)
  }

  function ForcedCalls(ops: seq<Op>): nat
    decreases |ops|
  {
    if ops == [] then 0 else (if ops[0].Emit? && ops[0].forced then 1 else 0) + ForcedCalls(ops[1..])
  }

  lemma {:induction false} LastReadingIsLater(ops: seq<Op>, from: Timestamp)
    requires ForwardClock(ops, from)
    ensures from <= LastReading(ops, from)
    decreases |ops|
  {
    if ops != [] { LastReadingIsLater(ops[1..], if ops[0].Emit? then ops[0].now else from); }
  }

  /** Emissions of a card that has emitted at `last`: one per forced call, and one per 500 ms. */
  lemma {:induction false} RateAfterEmission(c: Card, ops: seq<Op>, fmt: Formats, last: Timestamp, from: Timestamp)
    requires c.lastEmit == Some(last) && last <= from && ForwardClock(ops, from)
    ensures 500 * (|Emissions(c, ops, fmt)| - ForcedCalls(ops)) <= LastReading(ops, from) - last
    decreases |ops|
  {
    if ops == [] {
    } else if ops[0].Emit? && Emits(c, ops[0].now, ops[0].forced, fmt) {
      RateAfterEmission(Apply(c, ops[0], fmt), ops[1..], fmt, ops[0].now, ops[0].now);
    } else {
      RateAfterEmission(Apply(c, ops[0], fmt), ops[1..], fmt, last, if ops[0].Emit? then ops[0].now else from);
    }
  }

  /**
   The rate of a new card: with a clock that does not go back, a run with K forced calls that
   spans W milliseconds emits at most 1 + K + W / 500 times.
   */
  lemma {:induction false} RateOfNewCard(c: Card, ops: seq<Op>, fmt: Formats, from: Timestamp)
    requires c.lastEmit.None? && ForwardClock(ops, from)
    ensures |Emissions(c, ops, fmt)| <= 1 + ForcedCalls(ops) + (LastReading(ops, from) - from) / 500
    decreases |ops|
  {
    LastReadingIsLater(ops, from);
    if ops == [] {
    } else if ops[0].Emit? && Emits(c, ops[0].now, ops[0].forced, fmt) {
      RateAfterEmission(Apply(c, ops[0], fmt), ops[1..], fmt, ops[0].now, ops[0].now);
    } else {
      RateOfNewCard(Apply(c, ops[0], fmt), ops[1..], fmt, if ops[0].Emit? then ops[0].now else from);
    }
  }

  // ---------------------------------------------------------------- freshness

  /** Cards that differ only in what they remember of their last emission. */
  predicate SameLedger(c: Card, t: Card) {
    t == c.(lastRender := t.lastRender, lastEmit := t.lastEmit)
  }

  lemma SameDescription(c: Card, t: Card, at: Timestamp, fmt: Formats)
    requires SameLedger(c, t)
    ensures Description(t, at, fmt) == Description(c, at, fmt)
  {
    assert Focus(t) == Focus(c) && Elapsed(t, at) == Elapsed(c, at);
  }

  lemma SameEntries(c: Card, t: Card, fmt: Formats)
    requires SameLedger(c, t)
    ensures GroupEntries(t, fmt) == GroupEntries(c, fmt)
  {
    forall i | 0 <= i < |c.agents|
      ensures GroupEntry(t, c.agents[i].0, c.agents[i].1, fmt) == GroupEntry(c, c.agents[i].0, c.agents[i].1, fmt)
    {
      assert TitleOf(t, c.agents[i].1) == TitleOf(c, c.agents[i].1);
    }
  }

  lemma SameOutput(c: Card, t: Card, fmt: Formats)
    requires SameLedger(c, t)
    ensures Output(t, fmt) == Output(c, fmt)
  {
    var keys := Ascending(Keys(c.agents));
    SameLines(c, t, keys);
    var lines := Lines(c, keys);
    forall i | 0 <= i < |lines| ensures Texts(t, lines, fmt)[i] == Texts(c, lines, fmt)[i] {
      SameLineText(c, t, lines[i], fmt);
    }
    assert Texts(t, lines, fmt) == Texts(c, lines, fmt);
  }

  lemma SameLineText(c: Card, t: Card, line: Line, fmt: Formats)
    requires SameLedger(c, t)
    ensures LineText(t, line, fmt) == LineText(c, line, fmt)
  {
  }

  lemma {:induction false} SameLines(c: Card, t: Card, keys: seq<nat>)
    requires t.agents == c.agents && t.phases == c.phases
    ensures Lines(t, keys) == Lines(c, keys)
  {
    if keys != [] { SameLines(c, t, keys[1..]); }
  }

  /** Recording an emission does not change what the card renders to. */
  lemma EmissionKeepsRendering(c: Card, now: Timestamp, forced: bool, fmt: Formats, at: Timestamp)
    ensures Render(AfterEmit(c, now, forced, fmt), at, fmt) == Render(c, at, fmt)
  {
    var t := AfterEmit(c, now, forced, fmt);
    SameDescription(c, t, at, fmt);
    SameEntries(c, t, fmt);
    SameOutput(c, t, fmt);
  }

  /**
   A call leaves the last sent rendering equal to the current one exactly when it is forced or
   due on a card with content, or nothing has changed since the last emission.
   */
  lemma FreshIff(c: Card, now: Timestamp, forced: bool, fmt: Formats)
    ensures var t := AfterEmit(c, now, forced, fmt);
            t.lastRender == Some(Render(t, now, fmt))
            <==> (!IsBlank(c) && (forced || IsDue(c, now))) || c.lastRender == Some(Render(c, now, fmt))
  {
    EmissionKeepsRendering(c, now, forced, fmt, now);
  }

  // ---------------------------------------------------------------- accumulation

  /** What happens to one agent: a delta arrives, or its container ends. */
  datatype Own = Told(detail: AgentEntry) | Ended

  /** What happens to one agent along a run. */
  function OwnEvents(ops: seq<Op>, id: string): seq<Own>
    decreases |ops|
  {
    if ops == [] then [] else OwnEvent(ops[0], id) + OwnEvents(ops[1..], id)
  }

  function OwnEvent(op: Op, id: string): seq<Own> {
    match op
    case Update(k, detail) => if k == id then [Told(detail)] else []
    case Settle(_) => [Ended]
    case _ => []
  }

  /** What is known of an agent once a delta arrives. */
  function MergedInto(before: Option<AgentEntry>, d: AgentEntry): AgentEntry {
    (if before.Some? then before.value else NO_DETAIL).Merge(d)
  }

  /** What is known of an agent after one event; the end of the container says nothing of an unknown agent. */
  function After(before: Option<AgentEntry>, o: Own): Option<AgentEntry> {
    match o
    case Told(d) => Some(MergedInto(before, d))
    case Ended => if before.Some? then Some(Settled(before.value)) else None
  }

  /** Merging and settling one after the other, onto what was known before. */
  function Folded(before: Option<AgentEntry>, os: seq<Own>): Option<AgentEntry>
    decreases |os|
  {
    if os == [] then before else Folded(After(before, os[0]), os[1..])
  }

  lemma MergedEntry(agents: Roster, id: string, d: AgentEntry, other: string)
    ensures EntryOf(Merged(agents, id, d), other)
            == if other == id then Some(MergedInto(EntryOf(agents, id), d)) else EntryOf(agents, other)
  {
    var t := Merged(agents, id, d);
    var i := IndexOf(agents, id);
    IndexIs(t, id, i);
    if other != id {
      var j := IndexOf(agents, other);
      if j < |agents| {
        IndexIs(t, other, j);
      } else {
        assert forall k :: 0 <= k < |t| ==> t[k].0 != other;
        assert IndexOf(t, other) == |t|;
      }
    }
  }

  lemma IndexIs(agents: Roster, id: string, i: nat)
    requires i < |agents| && agents[i].0 == id && forall j :: 0 <= j < i ==> agents[j].0 != id
    ensures IndexOf(agents, id) == i
  {
  }

  lemma SettledEntry(agents: Roster, id: string)
    ensures EntryOf(SettledRoster(agents), id) == After(EntryOf(agents, id), Ended)
  {
    var t, i := SettledRoster(agents), IndexOf(agents, id);
    assert forall k :: 0 <= k < |t| ==> t[k].0 == agents[k].0;
    if i < |agents| {
      IndexIs(t, id, i);
    } else {
      assert IndexOf(t, id) == |t|;
    }
  }

  /** One operation changes what is known of an agent exactly by what it means for that agent. */
  lemma EntryAfter(c: Card, op: Op, fmt: Formats, id: string)
    ensures EntryOf(Apply(c, op, fmt).agents, id) == Folded(EntryOf(c.agents, id), OwnEvent(op, id))
  {
    if op.Update? {
      MergedEntry(c.agents, op.id, op.detail, id);
      FoldFirst(EntryOf(c.agents, id), Told(op.detail), []);
    } else if op.Settle? {
      SettledEntry(c.agents, id);
      FoldFirst(EntryOf(c.agents, id), Ended, []);
    }
  }

  /** What a card knows of an agent is the fold of that agent's own events, whatever else came in between. */
  lemma {:induction false} EntryIsFoldOfItsEvents(c: Card, ops: seq<Op>, fmt: Formats, id: string)
    ensures EntryOf(Run(c, ops, fmt).agents, id) == Folded(EntryOf(c.agents, id), OwnEvents(ops, id))
    decreases |ops|
  {
    if ops != [] {
      var rest := OwnEvents(ops[1..], id);
      EntryAfter(c, ops[0], fmt, id);
      EntryIsFoldOfItsEvents(Apply(c, ops[0], fmt), ops[1..], fmt, id);
      FoldConcat(EntryOf(c.agents, id), OwnEvent(ops[0], id), rest);
    }
  }

  lemma FoldFirst(before: Option<AgentEntry>, o: Own, os: seq<Own>)
    ensures Folded(before, [o] + os) == Folded(After(before, o), os)
  {
    var all := [o] + os;
    assert all[1..] == os && all[0] == o;
    assert Folded(before, all) == Folded(After(before, all[0]), all[1..]);
  }

  lemma {:induction false} FoldConcat(before: Option<AgentEntry>, a: seq<Own>, b: seq<Own>)
    ensures Folded(before, a + b) == Folded(Folded(before, a), b)
    decreases |a|
  {
    if a == [] {
      assert a + b == b;
    } else {
      assert a + b == [a[0]] + (a[1..] + b);
      FoldFirst(before, a[0], a[1..] + b);
      FoldConcat(After(before, a[0]), a[1..], b);
    }
  }

  /** Runs in which the same happens to an agent, in the same order, agree on that agent. */
  lemma InterleavingsAgree(c: Card, ops: seq<Op>, ops': seq<Op>, fmt: Formats, id: string)
    requires OwnEvents(ops, id) == OwnEvents(ops', id)
    ensures EntryOf(Run(c, ops, fmt).agents, id) == EntryOf(Run(c, ops', fmt).agents, id)
  {
    EntryIsFoldOfItsEvents(c, ops, fmt, id);
    EntryIsFoldOfItsEvents(c, ops', fmt, id);
  }

  datatype Field =
    Label | PhaseIndex | PhaseTitle | Model | Loop | Tokens | ToolCalls | LastToolName | LastToolSummary | DurationMs

  datatype Value = Text(text: string) | Number(number: nat) | State(state: LoopState)

  function AsText(o: Option<string>): Option<Value> { if o.Some? then Some(Text(o.value)) else None }

  function AsNumber(o: Option<nat>): Option<Value> { if o.Some? then Some(Number(o.value)) else None }

  function Get(e: AgentEntry, f: Field): Option<Value> {
    match f
    case Label => AsText(e.agentLabel)
    case PhaseIndex => AsNumber(e.phaseIndex)
    case PhaseTitle => AsText(e.phaseTitle)
    case Model => AsText(e.model)
    case Loop => if e.loopState.Some? then Some(State(e.loopState.value)) else None
    case Tokens => AsNumber(e.tokens)
    case ToolCalls => AsNumber(e.toolCalls)
    case LastToolName => AsText(e.lastToolName)
    case LastToolSummary => AsText(e.lastToolSummary)
    case DurationMs => AsNumber(e.durationMs)
  }

  /** The value an event carries for a field: the end of the container carries the loop state Done. */
  function Carried(o: Own, f: Field): Option<Value> {
    match o
    case Told(d) => Get(d, f)
    case Ended => if f == Loop then Some(State(Done)) else None
  }

  /** The last value carried by the events, or the one before them. */
  function LastPresent(f: Field, before: Option<Value>, os: seq<Own>): Option<Value>
    decreases |os|
  {
    if os == [] then before
    else
      var last := Carried(os[|os| - 1], f);
      if last.Some? then last else LastPresent(f, before, os[..|os| - 1])
  }

  /** A merge, and a settlement, overwrite a field exactly when they carry it. */
  lemma AfterField(x: AgentEntry, o: Own, f: Field)
    ensures After(Some(x), o).Some? && Get(After(Some(x), o).value, f) == Over(Get(x, f), Carried(o, f))
  {
  }

  /** What is known of a known agent is, in each of the ten fields, the last value carried. */
  lemma {:induction false} FoldIsLastPresent(e: AgentEntry, os: seq<Own>, f: Field)
    ensures Folded(Some(e), os).Some? && Get(Folded(Some(e), os).value, f) == LastPresent(f, Get(e, f), os)
    decreases |os|
  {
    if os != [] {
      var front, last := os[..|os| - 1], os[|os| - 1];
      FoldIsLastPresent(e, front, f);
      assert os == front + [last];
      FoldConcat(Some(e), front, [last]);
      FoldFirst(Folded(Some(e), front), last, []);
      AfterField(Folded(Some(e), front).value, last, f);
    }
  }

  /** An agent is unknown until its first delta, which starts from an entry without values. */
  lemma {:induction false} FoldFromNothing(os: seq<Own>)
    ensures Folded(None, os).None? <==> forall i :: 0 <= i < |os| ==> os[i].Ended?
    ensures forall k :: 0 <= k < |os| && os[k].Told? && (forall i :: 0 <= i < k ==> os[i].Ended?) ==>
              Folded(None, os) == Folded(Some(NO_DETAIL), os[k..])
    decreases |os|
  {
    if os != [] {
      FoldFromNothing(os[1..]);
      if os[0].Told? {
        FoldIsLastPresent(MergedInto(None, os[0].detail), os[1..], Loop);
        assert os[0..] == os;
      }
      forall k | 0 <= k < |os| && os[k].Told? && (forall i :: 0 <= i < k ==> os[i].Ended?)
        ensures Folded(None, os) == Folded(Some(NO_DETAIL), os[k..])
      {
        if k > 0 { assert os[k..] == os[1..][k - 1..] && os[1..][k - 1].Told?; }
      }
    }
  }

  // ---------------------------------------------------------------- phases

  function KnownOver(agents: Roster, keys: seq<nat>): nat
    decreases |keys|
  {
    if keys == [] then 0 else KnownIn(agents, keys[0]) + KnownOver(agents, keys[1..])
  }

  /** The order in which the expanded output lists the roster positions. */
  function OutputOrder(agents: Roster, keys: seq<nat>): seq<nat>
    decreases |keys|
  {
    if keys == [] then [] else Members(agents, keys[0]) + OutputOrder(agents, keys[1..])
  }

  lemma {:induction false} AscendingIsSorted(s: set<nat>)
    ensures forall k: nat :: k in Ascending(s) <==> k in s
    ensures forall i, j :: 0 <= i < j < |Ascending(s)| ==> Ascending(s)[i] < Ascending(s)[j]
  {
    if s != {} {
      var m := Minimum(s);
      AscendingIsSorted(s - {m});
      var rest := Ascending(s - {m});
      assert forall j :: 0 <= j < |rest| ==> rest[j] in rest;
    }
  }

  /** Strictly before in the stable order by phase. */
  predicate Before(agents: Roster, p: nat, q: nat) {
    p < |agents| && q < |agents| &&
    (agents[p].1.PhaseKey() < agents[q].1.PhaseKey() || (agents[p].1.PhaseKey() == agents[q].1.PhaseKey() && p < q))
  }

  lemma {:induction false} OrderOverKeys(agents: Roster, keys: seq<nat>)
    requires forall i, j :: 0 <= i < j < |keys| ==> keys[i] < keys[j]
    ensures var o := OutputOrder(agents, keys);
            && (forall p: nat :: p in o <==> p < |agents| && agents[p].1.PhaseKey() in keys)
            && (forall i, j :: 0 <= i < j < |o| ==> Before(agents, o[i], o[j]))
            && |o| == KnownOver(agents, keys)
    decreases |keys|
  {
    if keys != [] {
      var first, rest := Members(agents, keys[0]), OutputOrder(agents, keys[1..]);
      OrderOverKeys(agents, keys[1..]);
      MembersAreMembers(agents, keys[0]);
      assert keys == [keys[0]] + keys[1..];
      forall i, j | 0 <= i < j < |first + rest| ensures Before(agents, (first + rest)[i], (first + rest)[j]) {
        assert i < |first| ==> first[i] in first;
        assert j < |first| ==> first[j] in first;
        assert j >= |first| ==> rest[j - |first|] in rest;
      }
    }
  }

  /** The expanded output lists every agent once, in the stable order by phase; the phases account for all agents. */
  lemma OutputIsStableSort(agents: Roster)
    ensures var o := OutputOrder(agents, Ascending(Keys(agents)));
            && (forall p: nat :: p in o <==> p < |agents|)
            && (forall i, j :: 0 <= i < j < |o| ==> Before(agents, o[i], o[j]))
            && |o| == |agents|
            && KnownOver(agents, Ascending(Keys(agents))) == |agents|
  {
    var keys := Ascending(Keys(agents));
    AscendingIsSorted(Keys(agents));
    OrderOverKeys(agents, keys);
    var o := OutputOrder(agents, keys);
    forall p: nat | p < |agents| ensures p in o {
      assert agents[p].1.PhaseKey() in Keys(agents);
    }
    OncePerPosition(o, |agents|);
  }

  /** A list of distinct numbers that are exactly those below `n` has length `n`. */
  lemma {:induction false} OncePerPosition(o: seq<nat>, n: nat)
    requires forall p: nat :: p in o <==> p < n
    requires forall i, j :: 0 <= i < j < |o| ==> o[i] != o[j]
    ensures |o| == n
    decreases n
  {
    if |o| > 0 { assert o[0] in o; }
    if n > 0 {
      assert n - 1 in o;
      var k :| 0 <= k < |o| && o[k] == n - 1;
      var rest := o[..k] + o[k + 1..];
      forall p: nat ensures p in rest <==> p < n - 1 {
        if p in o && p != n - 1 {
          var i :| 0 <= i < |o| && o[i] == p;
          assert rest[if i < k then i else i - 1] == p;
        }
      }
      OncePerPosition(rest, n - 1);
      assert |o| == |rest| + 1;
    }
  }

  /** The positions of the agent lines of an output, in order. */
  function AgentsListed(lines: seq<Line>): seq<nat> {
    if lines == [] then []
    else (if lines[0].Agent? then [lines[0].at] else []) + AgentsListed(lines[1..])
  }

  /** Headers aside, the output's lines are the agents in output order. */
  lemma {:induction false} LinesFollowOutputOrder(c: Card, keys: seq<nat>)
    ensures AgentsListed(Lines(c, keys)) == OutputOrder(c.agents, keys)
    decreases |keys|
  {
    if keys != [] {
      var members, rest := Members(c.agents, keys[0]), Lines(c, keys[1..]);
      LinesFollowOutputOrder(c, keys[1..]);
      ListedGroup(HeaderOf(c, keys[0], members), members, rest);
      HeaderListsNobody(c, keys[0], members);
    }
  }

  lemma HeaderListsNobody(c: Card, key: nat, members: seq<nat>)
    ensures AgentsListed(HeaderOf(c, key, members)) == []
  {
    var header := HeaderOf(c, key, members);
    assert header != [] ==> header[0].Header? && header[1..] == [];
  }

  lemma ListedGroup(header: seq<Line>, members: seq<nat>, rest: seq<Line>)
    ensures AgentsListed(header + AgentLines(members) + rest) == AgentsListed(header) + members + AgentsListed(rest)
  {
    ListedConcat(header + AgentLines(members), rest);
    ListedConcat(header, AgentLines(members));
    ListedAgents(members);
  }

  lemma {:induction false} ListedConcat(a: seq<Line>, b: seq<Line>)
    ensures AgentsListed(a + b) == AgentsListed(a) + AgentsListed(b)
  {
    if a == [] {
      assert a + b == b;
    } else {
      assert (a + b)[1..] == a[1..] + b && (a + b)[0] == a[0];
      ListedConcat(a[1..], b);
    }
  }

  lemma {:induction false} ListedAgents(members: seq<nat>)
    ensures AgentsListed(AgentLines(members)) == members
  {
    if members != [] {
      assert AgentLines(members)[1..] == AgentLines(members[1..]);
      ListedAgents(members[1..]);
    }
  }

  /** In every phase the done agents are among the known ones; right after settlement they are all of them. */
  lemma {:induction false} DoneWithinKnown(agents: Roster, key: nat)
    ensures DoneIn(agents, key) <= KnownIn(agents, key)
    ensures DoneIn(SettledRoster(agents), key) == KnownIn(SettledRoster(agents), key) == KnownIn(agents, key)
  {
    if agents != [] {
      var front := agents[..|agents| - 1];
      assert SettledRoster(agents)[..|agents| - 1] == SettledRoster(front);
      DoneWithinKnown(front, key);
    }
  }

  /** The positions that a longer roster adds. */
  lemma GrownSet(a: set<nat>, b: set<nat>, n: nat, grows: bool)
    requires forall i :: i in a ==> i < n
    requires b == if grows then a + {n} else a
    ensures |b| == |a| + if grows then 1 else 0
  {
  }

  /** The phase that a key stands for; key zero stands for the agents without a phase. */
  function PhaseOf(key: nat): Option<nat> { if key == 0 then None else Some(key - 1) }

  predicate KnownAt(agents: Roster, i: nat, phase: Option<nat>) { i < |agents| && agents[i].1.phaseIndex == phase }

  lemma {:induction false} KnownIsCount(agents: Roster, key: nat)
    ensures KnownIn(agents, key) == |set i: nat | i < |agents| && KnownAt(agents, i, PhaseOf(key))|
  {
    if agents != [] {
      var n, front := |agents| - 1, agents[..|agents| - 1];
      KnownIsCount(front, key);
      assert forall i: nat :: i < n ==> (KnownAt(front, i, PhaseOf(key)) <==> KnownAt(agents, i, PhaseOf(key)));
      var known0 := set i: nat | i < |front| && KnownAt(front, i, PhaseOf(key));
      var known := set i: nat | i < |agents| && KnownAt(agents, i, PhaseOf(key));
      GrownSet(known0, known, n, KnownAt(agents, n, PhaseOf(key)));
    }
  }

  predicate DoneAt(agents: Roster, i: nat, phase: Option<nat>) {
    i < |agents| && agents[i].1.phaseIndex == phase && agents[i].1.loopState == Some(Done)
  }

  lemma {:induction false} DoneIsCount(agents: Roster, key: nat)
    ensures DoneIn(agents, key) == |set i: nat | i < |agents| && DoneAt(agents, i, PhaseOf(key))|
  {
    if agents != [] {
      var n, front := |agents| - 1, agents[..|agents| - 1];
      DoneIsCount(front, key);
      assert forall i: nat :: i < n ==> (DoneAt(front, i, PhaseOf(key)) <==> DoneAt(agents, i, PhaseOf(key)));
      var done0 := set i: nat | i < |front| && DoneAt(front, i, PhaseOf(key));
      var done := set i: nat | i < |agents| && DoneAt(agents, i, PhaseOf(key));
      GrownSet(done0, done, n, DoneAt(agents, n, PhaseOf(key)));
    }
  }

  /** The two numbers shown for a phase: its agents, and those of them whose loop state is done. */
  lemma CountsAreCounts(agents: Roster, key: nat)
    ensures var phase := if key == 0 then None else Some(key - 1);
            && KnownIn(agents, key) == |set i: nat | i < |agents| && agents[i].1.phaseIndex == phase|
            && DoneIn(agents, key)
               == |set i: nat | i < |agents| && agents[i].1.phaseIndex == phase && agents[i].1.loopState == Some(Done)|
  {
    KnownIsCount(agents, key);
    DoneIsCount(agents, key);
    var phase := PhaseOf(key);
    assert (set i: nat | i < |agents| && KnownAt(agents, i, phase))
        == set i: nat | i < |agents| && agents[i].1.phaseIndex == phase;
    assert (set i: nat | i < |agents| && DoneAt(agents, i, phase))
        == set i: nat | i < |agents| && agents[i].1.phaseIndex == phase && agents[i].1.loopState == Some(Done);
  }

  function OneIf(b: bool): nat { if b then 1 else 0 }

  lemma {:induction false} CountsAfterUpdate(agents: Roster, i: nat, id: string, e: AgentEntry, key: nat)
    requires i < |agents|
    ensures var was, t := agents[i].1, agents[i := (id, e)];
            && DoneIn(t, key) + OneIf(was.PhaseKey() == key && was.IsDone())
               == DoneIn(agents, key) + OneIf(e.PhaseKey() == key && e.IsDone())
            && KnownIn(t, key) + OneIf(was.PhaseKey() == key) == KnownIn(agents, key) + OneIf(e.PhaseKey() == key)
  {
    var n, t := |agents| - 1, agents[i := (id, e)];
    if i == n {
      assert t[..n] == agents[..n];
    } else {
      assert t[..n] == agents[..n][i := (id, e)] && t[n] == agents[n];
      CountsAfterUpdate(agents[..n], i, id, e, key);
    }
  }

  /**
   An update that takes a known, unfinished agent to done without moving it to another phase raises the done count of
   its phase by one, and changes no other count.
   */
  lemma ReachingDoneRaisesCount(agents: Roster, id: string, d: AgentEntry, key: nat)
    requires EntryOf(agents, id).Some? && EntryOf(agents, id).value.loopState != Some(Done) && d.loopState == Some(Done)
    requires d.phaseIndex.None? || d.phaseIndex == EntryOf(agents, id).value.phaseIndex
    ensures var t, phase := Merged(agents, id, d), EntryOf(agents, id).value.phaseIndex;
            && KnownIn(t, key) == KnownIn(agents, key)
            && DoneIn(t, key) == DoneIn(agents, key) + OneIf(key == if phase.Some? then phase.value + 1 else 0)
  {
    var i := IndexOf(agents, id);
    CountsAfterUpdate(agents, i, id, agents[i].1.Merge(d), key);
  }

  /** What makes an update a state change: nobody has that id yet, or the delta names another loop state. */
  lemma StateChangeIff(agents: Roster, id: string, d: AgentEntry)
    ensures IsStateChange(agents, id, d)
            <==> (forall i :: 0 <= i < |agents| ==> agents[i].0 != id)
                 || (d.loopState.Some? && EntryOf(agents, id).Some?
                     && EntryOf(agents, id).value.loopState != d.loopState)
  {
    if IndexOf(agents, id) < |agents| { assert agents[IndexOf(agents, id)].0 == id; }
  }
}
