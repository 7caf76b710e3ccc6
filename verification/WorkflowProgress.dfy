/**
 The progress ledger of one workflow or background task: a stream of deltas is accumulated into
 an ordered roster, rendered as a whole, and emitted at a bounded rate.

 Padding and floating-point formatting are parameters of the model.
 */
module WorkflowProgress {
  import opened Common
  import opened Text

  const THROTTLE_MS: nat := 500

  const SUMMARY_MAX: nat := 48

  datatype CardStatus = Running | Completed | Errored | Cancelled

  datatype ToolCallStatus = CallRunning | CallCompleted | CallError | CallCanceled

  datatype ToolGroupStatus = Executing | Success

  datatype LoopState = Start | Progress | Done

  datatype CardKind = Workflow | BackgroundTask

  function AsToolCall(status: CardStatus): ToolCallStatus {
    match status
    case Running => CallRunning
    case Completed => CallCompleted
    case Errored => CallError
    case Cancelled => CallCanceled
  }

  /** The newer value of a field when the delta carries one, else the older. */
  function Over<T>(before: Option<T>, delta: Option<T>): Option<T> {
    if delta.Some? then delta else before
  }

  /** What is known of one agent; a delta has the same shape. */
  datatype AgentEntry = AgentEntry(
    agentLabel: Option<string>, phaseIndex: Option<nat>, phaseTitle: Option<string>, model: Option<string>,
    loopState: Option<LoopState>, tokens: Option<nat>, toolCalls: Option<nat>, lastToolName: Option<string>,
    lastToolSummary: Option<string>, durationMs: Option<nat>)
  {
    predicate IsDone() { loopState == Some(Done) }

    /** Every field the delta carries overwrites, every other stays. */
    function Merge(d: AgentEntry): AgentEntry {
      AgentEntry(
        Over(agentLabel, d.agentLabel), Over(phaseIndex, d.phaseIndex), Over(phaseTitle, d.phaseTitle), Over(model, d.model),
        Over(loopState, d.loopState), Over(tokens, d.tokens), Over(toolCalls, d.toolCalls),
        Over(lastToolName, d.lastToolName), Over(lastToolSummary, d.lastToolSummary), Over(durationMs, d.durationMs))
    }

    /** Position in the output: agents without a phase first, then by phase index. */
    function PhaseKey(): nat { if phaseIndex.Some? then phaseIndex.value + 1 else 0 }
  }

  const NO_DETAIL := AgentEntry(None, None, None, None, None, None, None, None, None, None)

  type Roster = seq<(string, AgentEntry)>

  datatype ToolGroupEntry = ToolGroupEntry(callId: string, name: string, status: ToolGroupStatus, description: string)

  datatype Rendered = Rendered(description: string, output: string, entries: seq<ToolGroupEntry>)

  datatype ToolCall = ToolCall(
    callId: string, name: string, args: string, status: ToolCallStatus, output: Option<string>, description: string)

  datatype Emission = Emission(frame: ToolCall, entries: seq<ToolGroupEntry>)

  /** Formatting left open: thousands of tokens, seconds, and the padded row of an agent. */
  datatype Formats = Formats(
    kiloTokens: nat -> string, seconds: nat -> string, row: (bool, string, string, string) -> string)

  /** The whole state of a card. */
  datatype Card = Card(
    kind: CardKind, headline: string, callId: string, toolName: string, args: string, startedAt: Timestamp,
    phases: map<nat, string>, agents: Roster, status: CardStatus, lastTouched: Option<string>,
    lastRender: Option<Rendered>, lastEmit: Option<Timestamp>)

  // ---------------------------------------------------------------- the roster

  /** First position of `id` in the roster, or its length. */
  function IndexOf(agents: Roster, id: string): (i: nat)
    ensures i <= |agents| && (i < |agents| ==> agents[i].0 == id)
    ensures forall j :: 0 <= j < i ==> agents[j].0 != id
  {
    if agents == [] then 0 else if agents[0].0 == id then 0 else 1 + IndexOf(agents[1..], id)
  }

  function EntryOf(agents: Roster, id: string): Option<AgentEntry> {
    var i := IndexOf(agents, id);
    if i < |agents| then Some(agents[i].1) else None
  }

  function Merged(agents: Roster, id: string, d: AgentEntry): Roster {
    var i := IndexOf(agents, id);
    if i < |agents| then agents[i := (id, agents[i].1.Merge(d))] else agents + [(id, NO_DETAIL.Merge(d))]
  }

  function Upsert(c: Card, id: string, d: AgentEntry): Card {
    c.(agents := Merged(c.agents, id, d), lastTouched := Some(id))
  }

  /** A new agent, or one that reached another loop state. */
  predicate IsStateChange(agents: Roster, id: string, d: AgentEntry) {
    var known := EntryOf(agents, id);
    known.None? || known.value.loopState != known.value.Merge(d).loopState
  }

  function Settled(e: AgentEntry): AgentEntry { if e.IsDone() then e else e.(loopState := Some(Done)) }

  function SettledRoster(agents: Roster): Roster {
    seq(|agents|, i requires 0 <= i < |agents| => (agents[i].0, Settled(agents[i].1)))
  }

  predicate DistinctIds(agents: Roster) {
    forall i, j :: 0 <= i < j < |agents| ==> agents[i].0 != agents[j].0
  }

  function Ids(agents: Roster): seq<string> {
    seq(|agents|, i requires 0 <= i < |agents| => agents[i].0)
  }

  // ---------------------------------------------------------------- rendering

  function Decimal(n: nat): string {
    if n < 10 then ["0123456789"[n]] else Decimal(n / 10) + ["0123456789"[n % 10]]
  }

  function TwoDigits(n: nat): string { if n < 10 then "0" + Decimal(n) else Decimal(n) }

  function Clock(ms: nat): string { TwoDigits(ms / 1000 / 60) + ":" + TwoDigits(ms / 1000 % 60) }

  function Elapsed(c: Card, now: Timestamp): nat {
    var d := SaturatingSub(now, c.startedAt);
    if d < 0 then 0 else d
  }

  function TokensText(fmt: Formats, tokens: Option<nat>): string {
    match tokens
    case None => "\U{2014}"
    case Some(t) => if t >= 1000 then fmt.kiloTokens(t) else Decimal(t)
  }

  /** Keeps both ends of a text that is too long. */
  function ElideMiddle(s: string, max: nat): string {
    if |s| <= max then s
    else
      var keep := (if max == 0 then 0 else max - 1) / 2;
      s[..keep] + "\U{2026}" + s[|s| - keep..]
  }

  function AfterLastDot(s: string): string
    decreases |s|
  {
    if '.' !in s then s else AfterLastDot(s[1..])
  }

  function WithoutPrefix(s: string, prefix: string): string
    requires prefix != ""
    decreases |s|
  {
    if prefix <= s then WithoutPrefix(s[|prefix|..], prefix) else s
  }

  function ShortModel(model: Option<string>): string {
    if model.None? then "?" else WithoutPrefix(AfterLastDot(model.value), "claude-")
  }

  function JoinWith(parts: seq<string>, sep: string): string {
    if parts == [] then "" else if |parts| == 1 then parts[0] else parts[0] + sep + JoinWith(parts[1..], sep)
  }

  const DOT := " \U{B7} "

  /** Agents of a phase that are done, and agents of it seen so far. */
  function DoneIn(agents: Roster, key: nat): nat {
    if agents == [] then 0
    else
      var last := agents[|agents| - 1].1;
      DoneIn(agents[..|agents| - 1], key) + (if last.PhaseKey() == key && last.IsDone() then 1 else 0)
  }

  function KnownIn(agents: Roster, key: nat): nat {
    if agents == [] then 0
    else KnownIn(agents[..|agents| - 1], key) + (if agents[|agents| - 1].1.PhaseKey() == key then 1 else 0)
  }

  function TokenSum(agents: Roster): nat {
    if agents == [] then 0
    else
      var t := agents[|agents| - 1].1.tokens;
      TokenSum(agents[..|agents| - 1]) + (if t.Some? then t.value else 0)
  }

  /** The agent the headline speaks of: the one that moved last, or the newest. */
  function Focus(c: Card): Option<AgentEntry> {
    var touched := if c.lastTouched.Some? then EntryOf(c.agents, c.lastTouched.value) else None;
    if touched.Some? then touched else if c.agents == [] then None else Some(c.agents[|c.agents| - 1].1)
  }

  function TitleOf(c: Card, e: AgentEntry): Option<string> {
    if e.phaseTitle.Some? then e.phaseTitle
    else if e.phaseIndex.Some? && e.phaseIndex.value in c.phases then Some(c.phases[e.phaseIndex.value]) else None
  }

  function Bracketed(c: Card, key: nat): string {
    "[" + Decimal(DoneIn(c.agents, key)) + "/" + Decimal(KnownIn(c.agents, key)) + "]"
  }

  function Description(c: Card, now: Timestamp, fmt: Formats): string {
    var focus := Focus(c);
    var title := if focus.Some? && TitleOf(c, focus.value).Some?
                 then [TitleOf(c, focus.value).value + " " + Bracketed(c, focus.value.PhaseKey())] else [];
    var agentLabel := if focus.Some? && focus.value.agentLabel.Some? then [focus.value.agentLabel.value] else [];
    JoinWith(
      title + agentLabel + [Decimal(|c.agents|) + " agents", TokensText(fmt, Some(TokenSum(c.agents))) + " tok",
                       Clock(Elapsed(c, now))],
      DOT)
  }

  function ToolText(e: AgentEntry): seq<string> {
    match (e.lastToolName, e.lastToolSummary)
    case (Some(name), Some(summary)) => [name + ": " + ElideMiddle(summary, SUMMARY_MAX)]
    case (Some(name), None) => [name]
    case _ => []
  }

  function ToolCount(e: AgentEntry): seq<string> {
    if e.toolCalls.Some? && e.toolCalls.value > 0 then [Decimal(e.toolCalls.value) + " tools"] else []
  }

  function DurationText(e: AgentEntry, fmt: Formats): seq<string> {
    if e.durationMs.Some? then [fmt.seconds(e.durationMs.value) + "s"] else []
  }

  /** One line of the expanded card. */
  function AgentLine(e: AgentEntry, fmt: Formats): string {
    var agentLabel := if e.agentLabel.Some? then e.agentLabel.value else "?";
    var bits := (if e.lastToolName.Some? then ToolText(e) else ToolCount(e)) + DurationText(e, fmt);
    fmt.row(e.IsDone(), agentLabel, ShortModel(e.model), TokensText(fmt, e.tokens))
    + (if bits == [] then "" else "   " + JoinWith(bits, "   "))
  }

  /** One entry of the tool group; its id is prefixed by the container's. */
  function GroupEntry(c: Card, id: string, e: AgentEntry, fmt: Formats): ToolGroupEntry {
    var title := if TitleOf(c, e).Some? then TitleOf(c, e).value else "";
    var phase := if e.phaseIndex.Some?
                 then [Replace("[P" + Decimal(e.phaseIndex.value) + " " + title + "]", " ]", "]")] else [];
    var bits := phase + [ShortModel(e.model), TokensText(fmt, e.tokens) + " tok"] + ToolCount(e) + ToolText(e)
                + DurationText(e, fmt);
    ToolGroupEntry(EntryId(c.callId, id), if e.agentLabel.Some? then e.agentLabel.value else id,
                   if e.IsDone() then Success else Executing, JoinWith(bits, DOT))
  }

  function EntryId(callId: string, id: string): string { callId + ":" + id }

  function GroupEntries(c: Card, fmt: Formats): seq<ToolGroupEntry> {
    seq(|c.agents|, i requires 0 <= i < |c.agents| => GroupEntry(c, c.agents[i].0, c.agents[i].1, fmt))
  }

  // ---------------------------------------------------------------- grouping by phase

  /** Positions of the agents of one phase, in roster order. */
  function Members(agents: Roster, key: nat): seq<nat> {
    if agents == [] then []
    else
      Members(agents[..|agents| - 1], key) + (if agents[|agents| - 1].1.PhaseKey() == key then [|agents| - 1] else [])
  }

  function Keys(agents: Roster): set<nat> { set i | 0 <= i < |agents| :: agents[i].1.PhaseKey() }

  lemma MinExists(s: set<nat>) returns (m: nat)
    requires s != {}
    ensures m in s && forall k :: k in s ==> m <= k
  {
    m :| m in s;
    var rest := s - {m};
    if rest != {} {
      var other := MinExists(rest);
      assert forall k :: k in s ==> k == m || k in rest;
      if other < m { m := other; }
    } else {
      assert s == {m};
    }
  }

  function Minimum(s: set<nat>): (m: nat)
    requires s != {}
    ensures m in s && forall k :: k in s ==> m <= k
  {
    assert exists m :: m in s && forall k :: k in s ==> m <= k by { var m := MinExists(s); }
    var m :| m in s && forall k :: k in s ==> m <= k;
    m
  }

  /** The keys in increasing order, as an ordered map lists them. */
  function Ascending(s: set<nat>): seq<nat> {
    if s == {} then []
    else
      var m := Minimum(s);
      [m] + Ascending(s - {m})
  }

  /** One line of the expanded output: a phase header, or the agent at a roster position. */
  datatype Line = Header(key: nat, title: string) | Agent(at: nat)

  /** A phase's title is the declared one, else its first agent's; a phase without a title has no header. */
  function HeaderOf(c: Card, key: nat, members: seq<nat>): seq<Line> {
    if key == 0 then []
    else if key - 1 in c.phases then [Header(key, c.phases[key - 1])]
    else if members != [] && members[0] < |c.agents| && c.agents[members[0]].1.phaseTitle.Some?
    then [Header(key, c.agents[members[0]].1.phaseTitle.value)]
    else []
  }

  function AgentLines(members: seq<nat>): seq<Line> { seq(|members|, i requires 0 <= i < |members| => Agent(members[i])) }

  function Lines(c: Card, keys: seq<nat>): seq<Line> {
    if keys == [] then []
    else
      var members := Members(c.agents, keys[0]);
      HeaderOf(c, keys[0], members) + AgentLines(members) + Lines(c, keys[1..])
  }

  function LineText(c: Card, line: Line, fmt: Formats): string {
    match line
    case Header(key, title) =>
      "Phase " + Decimal(if key == 0 then 0 else key - 1) + "  " + title + "   " + Bracketed(c, key)
    case Agent(at) => if at < |c.agents| then AgentLine(c.agents[at].1, fmt) else ""
  }

  function LineWriter(c: Card, fmt: Formats): Line -> string { line => LineText(c, line, fmt) }

  function Written(write: Line -> string, lines: seq<Line>): seq<string> {
    seq(|lines|, i requires 0 <= i < |lines| => write(lines[i]))
  }

  function Texts(c: Card, lines: seq<Line>, fmt: Formats): seq<string> { Written(LineWriter(c, fmt), lines) }

  function Output(c: Card, fmt: Formats): string { JoinLines(Texts(c, Lines(c, Ascending(Keys(c.agents))), fmt)) }

  lemma {:induction false} MembersAreMembers(agents: Roster, key: nat)
    ensures forall i: nat :: i in Members(agents, key) <==> i < |agents| && agents[i].1.PhaseKey() == key
    ensures forall i, j :: 0 <= i < j < |Members(agents, key)| ==> Members(agents, key)[i] < Members(agents, key)[j]
    ensures |Members(agents, key)| == KnownIn(agents, key)
  {
    if agents != [] {
      var front := agents[..|agents| - 1];
      MembersAreMembers(front, key);
      var was, now := Members(front, key), Members(agents, key);
      forall i: nat ensures i in now <==> i < |agents| && agents[i].1.PhaseKey() == key {
        assert i < |front| ==> agents[i] == front[i];
      }
      forall i, j | 0 <= i < j < |now| ensures now[i] < now[j] {
        assert was[i] in was;
      }
    }
  }

  // ---------------------------------------------------------------- emission

  function Render(c: Card, now: Timestamp, fmt: Formats): Rendered {
    match c.kind
    case BackgroundTask => Rendered(c.headline + DOT + Clock(Elapsed(c, now)), "", [])
    case Workflow => Rendered(Description(c, now, fmt), Output(c, fmt), GroupEntries(c, fmt))
  }

  /** A workflow without agents has nothing to show. */
  predicate IsBlank(c: Card) { c.kind == Workflow && c.agents == [] }

  predicate IsDue(c: Card, now: Timestamp) {
    c.lastEmit.None? || SaturatingSub(now, c.lastEmit.value) >= THROTTLE_MS
  }

  predicate Emits(c: Card, now: Timestamp, forced: bool, fmt: Formats) {
    !IsBlank(c) && (forced || (c.lastRender != Some(Render(c, now, fmt)) && IsDue(c, now)))
  }

  function FrameOf(c: Card, r: Rendered): ToolCall {
    ToolCall(c.callId, c.toolName, c.args, AsToolCall(c.status),
             if c.kind == Workflow then Some(r.output) else None, r.description)
  }

  function EmissionOf(c: Card, now: Timestamp, fmt: Formats): Emission {
    var r := Render(c, now, fmt);
    Emission(FrameOf(c, r), r.entries)
  }

  function AfterEmit(c: Card, now: Timestamp, forced: bool, fmt: Formats): Card {
    if Emits(c, now, forced, fmt) then c.(lastRender := Some(Render(c, now, fmt)), lastEmit := Some(now)) else c
  }
}
