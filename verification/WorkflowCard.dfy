/**
 The card as it is kept: a record updated in place by the session pump. Each method is tied to the
 step of `WorkflowRuns` it performs, so what holds along every run there holds of the record.
 */
module WorkflowLedger {
  import opened Common
  import Text
  import opened WorkflowProgress
  import opened WorkflowRuns

  /** The headline of a rosterless task; a description that repeats the tool's name is dropped. */
  function HeadlineOf(toolName: string, taskId: string, desc: Option<string>, word: string): string {
    if desc.Some? && Text.Trim(desc.value) != Text.Trim(toolName)
    then ElideMiddle(desc.value, SUMMARY_MAX) + DOT + word + " " + taskId
    else word + " " + taskId
  }

  class WorkflowCard {
    const kind: CardKind
    const headline: string
    const callId: string
    const toolName: string
    const args: string
    const startedAt: Timestamp
    var phases: map<nat, string>
    var agents: Roster
    var status: CardStatus
    var lastTouched: Option<string>
    var lastRender: Option<Rendered>
    var lastEmit: Option<Timestamp>

    function View(): Card
      reads this
    {
      Card(kind, headline, callId, toolName, args, startedAt, phases, agents, status, lastTouched, lastRender, lastEmit)
    }

    constructor (callId: string, toolName: string, args: string, now: Timestamp)
      ensures View() == Card(Workflow, "", callId, toolName, args, now, map[], [], Running, None, None, None)
    {
      this.kind, this.headline := Workflow, "";
      this.callId, this.toolName, this.args, this.startedAt := callId, toolName, args, now;
      phases, agents, status, lastTouched, lastRender, lastEmit := map[], [], Running, None, None, None;
    }

    /** `word` is "bg task" for a background command and "subagent" for delegated agent work. */
    constructor Task(
      callId: string, toolName: string, args: string, taskId: string, desc: Option<string>, now: Timestamp, word: string)
      ensures View() == Card(BackgroundTask, HeadlineOf(toolName, taskId, desc, word), callId, toolName, args, now,
                             map[], [], Running, None, None, None)
    {
      this.kind, this.headline := BackgroundTask, HeadlineOf(toolName, taskId, desc, word);
      this.callId, this.toolName, this.args, this.startedAt := callId, toolName, args, now;
      phases, agents, status, lastTouched, lastRender, lastEmit := map[], [], Running, None, None, None;
    }

    /** Reports whether the phase is new; a known phase is retitled all the same. */
    method DeclarePhase(index: nat, title: string) returns (isNew: bool)
      modifies this`phases
      ensures phases == old(phases)[index := title]
      ensures isNew <==> index !in old(phases)
      ensures forall fmt :: View() == Apply(old(View()), Declare(index, title), fmt)
    {
      isNew := index !in phases;
      phases := phases[index := title];
    }

    /** Reports a state change, which an emission is forced for. */
    method UpsertAgent(id: string, detail: AgentEntry) returns (changed: bool)
      modifies this`agents, this`lastTouched
      ensures View() == Upsert(old(View()), id, detail)
      ensures forall fmt :: View() == Apply(old(View()), Update(id, detail), fmt)
      ensures changed <==> IsStateChange(old(agents), id, detail)
      ensures lastTouched == Some(id)
    {
      lastTouched := Some(id);
      var i := 0;
      while i < |agents| && agents[i].0 != id
        invariant i <= |agents| && forall j :: 0 <= j < i ==> agents[j].0 != id
      {
        i := i + 1;
      }
      assert IndexOf(agents, id) == i;
      if i < |agents| {
        var entry := agents[i].1.Merge(detail);
        changed := agents[i].1.loopState != entry.loopState;
        agents := agents[i := (id, entry)];
      } else {
        agents := agents + [(id, NO_DETAIL.Merge(detail))];
        changed := true;
      }
    }

    /** The container is over: no agent is left unfinished. */
    method Settle(status: CardStatus)
      modifies this`status, this`agents
      ensures this.status == status && agents == SettledRoster(old(agents))
      ensures forall fmt :: View() == Apply(old(View()), WorkflowRuns.Settle(status), fmt)
    {
      this.status := status;
      ghost var was, target := agents, SettledRoster(agents);
      var i := 0;
      while i < |agents|
        invariant i <= |agents| == |target| && this.status == status
        invariant forall j :: 0 <= j < i ==> agents[j] == target[j]
        invariant forall j :: i <= j < |agents| ==> agents[j] == was[j]
      {
        if !agents[i].1.IsDone() {
          agents := agents[i := (agents[i].0, agents[i].1.(loopState := Some(Done)))];
        }
        i := i + 1;
      }
      assert agents == target;
    }

    /** The full roster, grouped by phase: positions are collected per phase, phases are listed in order. */
    method RenderOutput(fmt: Formats) returns (output: string)
      ensures output == Output(View(), fmt)
    {
      var byPhase := GroupByPhase();
      var keys := Ascending(byPhase.Keys);
      AscendingIsSorted(byPhase.Keys);
      var texts: seq<string> := [];
      var j := 0;
      while j < |keys|
        invariant j <= |keys|
        invariant ListedSoFar(View(), keys, j, texts, fmt)
      {
        assert keys[j] in keys;
        var block := PhaseTexts(keys[j], byPhase[keys[j]], fmt);
        OneMorePhase(View(), keys, j, texts, fmt);
        texts := texts + block;
        j := j + 1;
      }
      AllPhases(View(), keys, texts, fmt);
      output := Text.JoinLines(texts);
    }

    method GroupByPhase() returns (byPhase: map<nat, seq<nat>>)
      ensures Grouped(byPhase, agents)
    {
      byPhase := map[];
      var i := 0;
      while i < |agents|
        invariant i <= |agents|
        invariant Grouped(byPhase, agents[..i])
      {
        var key := agents[i].1.PhaseKey();
        GroupOneMore(byPhase, agents, i);
        byPhase := byPhase[key := (if key in byPhase then byPhase[key] else []) + [i]];
        i := i + 1;
      }
      assert agents[..i] == agents;
    }

    /** The header of a phase, when it has a title, and the lines of its agents. */
    method PhaseTexts(key: nat, members: seq<nat>, fmt: Formats) returns (texts: seq<string>)
      requires members == Members(agents, key)
      ensures texts == PhaseBlock(View(), key, fmt)
    {
      MembersAreMembers(agents, key);
      var c := View();
      var header := HeaderOf(c, key, members);
      texts := if header == [] then [] else [LineText(c, header[0], fmt)];
      var m := 0;
      NoMemberYet(c, header, members, fmt);
      while m < |members|
        invariant m <= |members|
        invariant texts == BlockUpTo(c, header, members, m, fmt)
      {
        assert members[m] in members;
        OneMoreMember(c, header, members, m, fmt);
        texts := texts + [AgentLine(c.agents[members[m]].1, fmt)];
        m := m + 1;
      }
      assert AgentLines(members)[..m] == AgentLines(members);
    }

    /** Emits when forced, or when the rendering moved and the window since the last emission is over. */
    method TakeEmission(now: Timestamp, forced: bool, fmt: Formats) returns (emission: Option<Emission>)
      modifies this`lastRender, this`lastEmit
      ensures View() == AfterEmit(old(View()), now, forced, fmt) == Apply(old(View()), Emit(now, forced), fmt)
      ensures lastRender == (if emission.Some? then Some(Render(old(View()), now, fmt)) else old(lastRender))
              && lastEmit == if emission.Some? then Some(now) else old(lastEmit)
      ensures emission == if Emits(old(View()), now, forced, fmt) then Some(EmissionOf(old(View()), now, fmt)) else None
    {
      if kind == Workflow && agents == [] { return None; }
      var rendered := RenderCard(now, fmt);
      var changed := lastRender != Some(rendered);
      var due := lastEmit.None? || SaturatingSub(now, lastEmit.value) >= THROTTLE_MS;
      if !(forced || (changed && due)) { return None; }
      var frame := ToolCall(callId, toolName, args, AsToolCall(status),
                            if kind == Workflow then Some(rendered.output) else None, rendered.description);
      lastRender, lastEmit := Some(rendered), Some(now);
      return Some(Emission(frame, rendered.entries));
    }

    method RenderCard(now: Timestamp, fmt: Formats) returns (rendered: Rendered)
      ensures rendered == Render(View(), now, fmt)
    {
      if kind == BackgroundTask {
        return Rendered(headline + DOT + Clock(Elapsed(View(), now)), "", []);
      }
      var output := RenderOutput(fmt);
      return Rendered(Description(View(), now, fmt), output, GroupEntries(View(), fmt));
    }
  }

  /** Positions collected per phase. */
  ghost predicate Grouped(byPhase: map<nat, seq<nat>>, agents: Roster) {
    byPhase.Keys == Keys(agents) && forall k :: k in byPhase ==> byPhase[k] == Members(agents, k)
  }

  lemma GroupOneMore(byPhase: map<nat, seq<nat>>, agents: Roster, i: nat)
    requires i < |agents| && Grouped(byPhase, agents[..i])
    ensures var key := agents[i].1.PhaseKey();
            Grouped(byPhase[key := (if key in byPhase then byPhase[key] else []) + [i]], agents[..i + 1])
  {
    var before, after, key := agents[..i], agents[..i + 1], agents[i].1.PhaseKey();
    assert after[..|after| - 1] == before;
    assert Keys(after) == Keys(before) + {key} by {
      assert forall j :: 0 <= j < i ==> after[j] == before[j];
    }
    if key !in byPhase { NobodyIn(before, key); }
  }

  lemma NobodyIn(agents: Roster, key: nat)
    requires key !in Keys(agents)
    ensures Members(agents, key) == []
  {
    var members := Members(agents, key);
    if members != [] { assert members[0] in members; }
    MembersAreMembers(agents, key);
  }

  function PhaseBlock(c: Card, key: nat, fmt: Formats): seq<string> {
    var members := Members(c.agents, key);
    Texts(c, HeaderOf(c, key, members) + AgentLines(members), fmt)
  }

  /** The header of a phase and the lines of its first `m` agents. */
  function BlockUpTo(c: Card, header: seq<Line>, members: seq<nat>, m: nat, fmt: Formats): seq<string>
    requires m <= |members|
  {
    Texts(c, header + AgentLines(members)[..m], fmt)
  }

  lemma NoMemberYet(c: Card, header: seq<Line>, members: seq<nat>, fmt: Formats)
    requires |header| <= 1
    ensures BlockUpTo(c, header, members, 0, fmt) == if header == [] then [] else [LineText(c, header[0], fmt)]
  {
  }

  lemma OneMoreMember(c: Card, header: seq<Line>, members: seq<nat>, m: nat, fmt: Formats)
    requires m < |members| && members[m] < |c.agents|
    ensures BlockUpTo(c, header, members, m + 1, fmt)
            == BlockUpTo(c, header, members, m, fmt) + [AgentLine(c.agents[members[m]].1, fmt)]
  {
    var lines := AgentLines(members);
    assert header + lines[..m + 1] == (header + lines[..m]) + [lines[m]];
    TextsConcat(c, header + lines[..m], [lines[m]], fmt);
  }

  /** The texts so far, followed by those of the phases to come, are the whole output. */
  ghost predicate ListedSoFar(c: Card, keys: seq<nat>, j: nat, texts: seq<string>, fmt: Formats)
    requires j <= |keys|
  {
    texts + Texts(c, Lines(c, keys[j..]), fmt) == Texts(c, Lines(c, keys), fmt)
  }

  lemma WrittenConcat(write: Line -> string, a: seq<Line>, b: seq<Line>)
    ensures Written(write, a + b) == Written(write, a) + Written(write, b)
  {
  }

  lemma TextsConcat(c: Card, a: seq<Line>, b: seq<Line>, fmt: Formats)
    ensures Texts(c, a + b, fmt) == Texts(c, a, fmt) + Texts(c, b, fmt)
  {
    WrittenConcat(LineWriter(c, fmt), a, b);
  }

  /** The texts of the first phase come first. */
  lemma FirstPhase(c: Card, keys: seq<nat>, fmt: Formats)
    requires keys != []
    ensures Texts(c, Lines(c, keys), fmt) == PhaseBlock(c, keys[0], fmt) + Texts(c, Lines(c, keys[1..]), fmt)
  {
    var members := Members(c.agents, keys[0]);
    TextsConcat(c, HeaderOf(c, keys[0], members) + AgentLines(members), Lines(c, keys[1..]), fmt);
  }

  lemma Regroup(a: seq<string>, b: seq<string>, rest: seq<string>)
    ensures a + b + rest == a + (b + rest)
  {
  }

  lemma OneMorePhase(c: Card, keys: seq<nat>, j: nat, texts: seq<string>, fmt: Formats)
    requires j < |keys| && ListedSoFar(c, keys, j, texts, fmt)
    ensures ListedSoFar(c, keys, j + 1, texts + PhaseBlock(c, keys[j], fmt), fmt)
  {
    FirstPhase(c, keys[j..], fmt);
    assert keys[j..][1..] == keys[j + 1..];
    Regroup(texts, PhaseBlock(c, keys[j], fmt), Texts(c, Lines(c, keys[j + 1..]), fmt));
  }

  lemma AllPhases(c: Card, keys: seq<nat>, texts: seq<string>, fmt: Formats)
    requires ListedSoFar(c, keys, |keys|, texts, fmt)
    ensures texts == Texts(c, Lines(c, keys), fmt)
  {
    assert keys[|keys|..] == [] && Texts(c, [], fmt) == [];
  }
}
