/** What the texts of a card say: the numbers in them can be read back, and their parts stand where a reader expects them. */
module WorkflowTexts {
  import opened Common
  import opened WorkflowProgress
  import opened WorkflowRuns
  import opened WorkflowLedger
  import Text

  // ---------------------------------------------------------------- numbers

  predicate IsDigits(s: string) { s != "" && forall i :: 0 <= i < |s| ==> '0' <= s[i] <= '9' }

  /** The number that decimal digits stand for. */
  function ValueOf(s: string): nat
    requires forall i :: 0 <= i < |s| ==> '0' <= s[i] <= '9'
  {
    if s == "" then 0 else 10 * ValueOf(s[..|s| - 1]) + (s[|s| - 1] as int - '0' as int)
  }

  lemma DigitIs(n: nat)
    requires n < 10
    ensures '0' <= "0123456789"[n] <= '9' && "0123456789"[n] as int - '0' as int == n
  {
  }

  /** A printed number reads back as itself, and has no leading zero. */
  lemma {:induction false} DecimalReadsBack(n: nat)
    ensures IsDigits(Decimal(n)) && ValueOf(Decimal(n)) == n
    ensures |Decimal(n)| == 1 <==> n < 10
    ensures n >= 10 ==> Decimal(n)[0] != '0'
    ensures n < 100 ==> |Decimal(n)| <= 2
  {
    DigitIs(n % 10);
    if n >= 10 {
      DecimalReadsBack(n / 10);
      var s := Decimal(n);
      assert s[..|s| - 1] == Decimal(n / 10);
      if n / 10 < 10 { DigitIs(n / 10); }
    } else {
      assert Decimal(n)[..0] == "";
    }
  }

  lemma TwoDigitsReadBack(n: nat)
    ensures IsDigits(TwoDigits(n)) && ValueOf(TwoDigits(n)) == n && |TwoDigits(n)| >= 2 && (n < 100 ==> |TwoDigits(n)| == 2)
  {
    DecimalReadsBack(n);
    if n < 10 {
      var s := TwoDigits(n);
      assert s[..1] == "0" && s[1] == Decimal(n)[0] && "0"[..0] == "" && Decimal(n)[..0] == "";
      assert ValueOf("0") == 0;
    }
  }

  /** A clock text shows whole minutes, a colon, and two digits of seconds below sixty. */
  lemma ClockReadsBack(ms: nat)
    ensures var s := Clock(ms);
            var m := |s| - 3;
            && m >= 2 && s[m] == ':' && IsDigits(s[..m]) && IsDigits(s[m + 1..])
            && ValueOf(s[..m]) == ms / 60_000 && ValueOf(s[m + 1..]) == ms / 1000 % 60
  {
    TwoDigitsReadBack(ms / 1000 / 60);
    TwoDigitsReadBack(ms / 1000 % 60);
    var s := Clock(ms);
    assert s[..|s| - 3] == TwoDigits(ms / 1000 / 60) && s[|s| - 2..] == TwoDigits(ms / 1000 % 60);
  }

  /** A card's clock shows the time since it was opened, and zero on a clock that went back. */
  lemma ElapsedIs(c: Card, now: Timestamp)
    ensures Elapsed(c, now) as int
            == if now < c.startedAt then 0
               else if now as int - c.startedAt as int > 0x7FFF_FFFF_FFFF_FFFF then 0x7FFF_FFFF_FFFF_FFFF
               else now as int - c.startedAt as int
  {
  }

  /** The token total of a roster is the sum over its agents; an agent without a count adds nothing. */
  lemma {:induction false} TokenSumAdds(a: Roster, b: Roster)
    ensures TokenSum(a + b) == TokenSum(a) + TokenSum(b)
    decreases |b|
  {
    if b == [] {
      assert a + b == a;
    } else {
      var n := |b| - 1;
      assert (a + b)[..|a| + n] == a + b[..n];
      TokenSumAdds(a, b[..n]);
    }
  }

  lemma TokenSumOne(id: string, e: AgentEntry)
    ensures TokenSum([(id, e)]) == if e.tokens.Some? then e.tokens.value else 0
  {
    assert [(id, e)][..0] == [];
  }

  // ---------------------------------------------------------------- shortened texts

  /** An elided text is the text itself, or its two ends around an ellipsis, equally long and as long as fits. */
  lemma ElideKeepsEnds(s: string, max: nat)
    requires max > 0
    ensures var r := ElideMiddle(s, max);
            if |s| <= max then r == s
            else exists k: nat :: 2 * k + 1 <= max <= 2 * k + 2 && 2 * k < |s| && |r| == 2 * k + 1
                                  && r[..k] == s[..k] && r[k] == '\U{2026}' && r[k + 1..] == s[|s| - k..]
  {
    if |s| > max {
      var k := (max - 1) / 2;
      var r := ElideMiddle(s, max);
      assert r[..k] == s[..k] && r[k + 1..] == s[|s| - k..];
    }
  }

  /** What stands after the last dot: a dot-free end of the text, right behind a dot unless it is all of it. */
  lemma {:induction false} AfterLastDotIs(s: string)
    ensures var r := AfterLastDot(s);
            && '.' !in r && |r| <= |s| && s[|s| - |r|..] == r && (|r| < |s| ==> s[|s| - |r| - 1] == '.')
    decreases |s|
  {
    if '.' in s {
      AfterLastDotIs(s[1..]);
      var r := AfterLastDot(s);
      assert s[1..][|s| - 1 - |r|..] == s[|s| - |r|..];
      if |r| == |s| - 1 { assert s == [s[0]] + r; }
    }
  }

  function Repeated(p: string, n: nat): string { if n == 0 then "" else p + Repeated(p, n - 1) }

  /** A prefix is taken off as often as it stands there. */
  lemma {:induction false} WithoutPrefixIs(s: string, p: string) returns (n: nat)
    requires p != ""
    ensures s == Repeated(p, n) + WithoutPrefix(s, p) && !(p <= WithoutPrefix(s, p))
    decreases |s|
  {
    if p <= s {
      var k := WithoutPrefixIs(s[|p|..], p);
      n := k + 1;
      assert s == p + s[|p|..];
    } else {
      n := 0;
    }
  }

  /** The shown model: what stands after the last dot, without leading `claude-`; a question mark without a model. */
  lemma ModelReads(model: string) returns (provider: string, n: nat)
    ensures ShortModel(None) == "?"
    ensures model == provider + Repeated("claude-", n) + ShortModel(Some(model))
    ensures provider == "" || provider[|provider| - 1] == '.'
    ensures '.' !in ShortModel(Some(model)) && !("claude-" <= ShortModel(Some(model)))
  {
    provider, n := TailReads(model, "claude-");
  }

  lemma TailReads(model: string, prefix: string) returns (provider: string, n: nat)
    requires prefix != ""
    ensures model == provider + Repeated(prefix, n) + WithoutPrefix(AfterLastDot(model), prefix)
    ensures provider == "" || provider[|provider| - 1] == '.'
    ensures '.' !in WithoutPrefix(AfterLastDot(model), prefix) && !(prefix <= WithoutPrefix(AfterLastDot(model), prefix))
  {
    AfterLastDotIs(model);
    var tail := AfterLastDot(model);
    provider := model[..|model| - |tail|];
    n := WithoutPrefixIs(tail, prefix);
    SplitThrice(model, provider, Repeated(prefix, n), WithoutPrefix(tail, prefix), tail);
  }

  lemma SplitThrice(s: string, a: string, b: string, c: string, tail: string)
    requires a <= s && s[|a|..] == tail == b + c && '.' !in tail
    ensures s == a + b + c && '.' !in c
  {
    assert s == a + tail;
    forall x | x in c ensures x in tail { }
  }

  // ---------------------------------------------------------------- the headline

  function Listed(part: Option<string>): seq<string> { if part.Some? then [part.value] else [] }

  function Led(part: Option<string>, sep: string, rest: string): string {
    if part.Some? then part.value + sep + rest else rest
  }

  lemma JoinLed(part: Option<string>, rest: seq<string>, sep: string)
    requires rest != []
    ensures JoinWith(Listed(part) + rest, sep) == Led(part, sep, JoinWith(rest, sep))
  {
    if part.Some? {
      assert (Listed(part) + rest)[1..] == rest;
    } else {
      assert Listed(part) + rest == rest;
    }
  }

  lemma JoinThree(a: string, b: string, c: string, sep: string)
    ensures JoinWith([a, b, c], sep) == a + sep + (b + sep + c)
  {
    assert [a, b, c][1..] == [b, c] && [b, c][1..] == [c];
    assert JoinWith([c], sep) == c;
    assert JoinWith([b, c], sep) == b + sep + c;
  }

  lemma JoinParts(title: Option<string>, name: Option<string>, a: string, b: string, c: string, sep: string)
    ensures JoinWith(Listed(title) + Listed(name) + [a, b, c], sep)
            == Led(title, sep, Led(name, sep, a + sep + (b + sep + c)))
  {
    JoinThree(a, b, c, sep);
    JoinLed(name, [a, b, c], sep);
    assert Listed(title) + Listed(name) + [a, b, c] == Listed(title) + (Listed(name) + [a, b, c]);
    JoinLed(title, Listed(name) + [a, b, c], sep);
  }

  /** The agent that a headline speaks of: the one updated last, as long as it is in the roster, else the newest. */
  lemma FocusIs(c: Card, i: nat)
    requires i < |c.agents|
    requires if exists id :: c.lastTouched == Some(id) && exists k :: 0 <= k < |c.agents| && c.agents[k].0 == id
             then Some(c.agents[i].0) == c.lastTouched && forall k :: 0 <= k < i ==> c.agents[k].0 != c.agents[i].0
             else i == |c.agents| - 1
    ensures Focus(c) == Some(c.agents[i].1)
  {
    if c.lastTouched.Some? {
      var k := IndexOf(c.agents, c.lastTouched.value);
      if k < |c.agents| { assert c.agents[k].0 == c.lastTouched.value; }
    }
  }

  /** Right after an update the headline speaks of the updated agent. */
  lemma UpdateMovesFocus(c: Card, id: string, d: AgentEntry)
    ensures var t := Upsert(c, id, d);
            EntryOf(t.agents, id).Some? && Focus(t) == EntryOf(t.agents, id)
  {
    MergedEntry(c.agents, id, d, id);
  }

  /** A phase's title with the done and known agents of the phase behind it. */
  function Counted(title: Option<string>, done: nat, known: nat): Option<string> {
    if title.None? then None else Some(title.value + " " + ("[" + Decimal(done) + "/" + Decimal(known) + "]"))
  }

  /** The title an agent's phase is shown with: the agent's own, else the declared one. */
  function PhaseTitle(c: Card, e: AgentEntry): Option<string> {
    if e.phaseTitle.None? && e.phaseIndex.Some? && e.phaseIndex.value in c.phases then Some(c.phases[e.phaseIndex.value])
    else e.phaseTitle
  }

  /**
   The headline of a workflow that speaks of agent `e`: the title of its phase with done and known agents, its label,
   the number of agents, the token total, and the clock.
   */
  lemma HeadlineReads(c: Card, now: Timestamp, fmt: Formats, e: AgentEntry)
    requires c.kind == Workflow && Focus(c) == Some(e)
    ensures var key := if e.phaseIndex.Some? then e.phaseIndex.value + 1 else 0;
            var title := Counted(PhaseTitle(c, e), DoneIn(c.agents, key), KnownIn(c.agents, key));
            Render(c, now, fmt).description
            == Led(title, " \U{B7} ", Led(e.agentLabel, " \U{B7} ",
                   Decimal(|c.agents|) + " agents" + " \U{B7} " + (TokensText(fmt, Some(TokenSum(c.agents))) + " tok"
                   + " \U{B7} " + Clock(Elapsed(c, now)))))
  {
    var title := Counted(PhaseTitle(c, e), DoneIn(c.agents, e.PhaseKey()), KnownIn(c.agents, e.PhaseKey()));
    JoinParts(title, e.agentLabel, Decimal(|c.agents|) + " agents", TokensText(fmt, Some(TokenSum(c.agents))) + " tok",
              Clock(Elapsed(c, now)), DOT);
    DescriptionIs(c, now, fmt, e, title);
  }

  lemma DescriptionIs(c: Card, now: Timestamp, fmt: Formats, e: AgentEntry, title: Option<string>)
    requires Focus(c) == Some(e)
    requires title == Counted(PhaseTitle(c, e), DoneIn(c.agents, e.PhaseKey()), KnownIn(c.agents, e.PhaseKey()))
    ensures Description(c, now, fmt)
            == JoinWith(Listed(title) + Listed(e.agentLabel)
                        + [Decimal(|c.agents|) + " agents", TokensText(fmt, Some(TokenSum(c.agents))) + " tok",
                           Clock(Elapsed(c, now))], DOT)
  {
  }

  /** A rosterless task shows its headline and the clock, and nothing to expand. */
  lemma TaskReads(c: Card, now: Timestamp, fmt: Formats)
    requires c.kind == BackgroundTask
    ensures Render(c, now, fmt) == Rendered(c.headline + " \U{B7} " + Clock(Elapsed(c, now)), "", [])
  {
  }

  /** The headline of a task names its id, after the description unless that repeats the tool's name. */
  lemma TaskHeadlineReads(toolName: string, taskId: string, desc: Option<string>, word: string)
    ensures HeadlineOf(toolName, taskId, desc, word)
            == if desc.None? || Text.Trim(desc.value) == Text.Trim(toolName) then word + " " + taskId
               else ElideMiddle(desc.value, 48) + " \U{B7} " + word + " " + taskId
  {
  }

  // ---------------------------------------------------------------- rows and headers

  /** How a token count is shown. */
  lemma TokensRead(fmt: Formats, t: nat)
    ensures TokensText(fmt, None) == "\U{2014}"
    ensures t < 1000 ==> IsDigits(TokensText(fmt, Some(t))) && ValueOf(TokensText(fmt, Some(t))) == t
    ensures t >= 1000 ==> TokensText(fmt, Some(t)) == fmt.kiloTokens(t)
  {
    DecimalReadsBack(t);
  }

  /** What an agent is busy with: its last tool and, if known, the shortened summary of what that does. */
  function ToolReads(e: AgentEntry): seq<string> {
    if e.lastToolName.None? then []
    else [if e.lastToolSummary.Some? then e.lastToolName.value + ": " + ElideMiddle(e.lastToolSummary.value, 48)
          else e.lastToolName.value]
  }

  function CountReads(e: AgentEntry): seq<string> {
    if e.toolCalls.None? || e.toolCalls.value == 0 then [] else [Decimal(e.toolCalls.value) + " tools"]
  }

  function SecondsRead(e: AgentEntry, fmt: Formats): seq<string> {
    if e.durationMs.None? then [] else [fmt.seconds(e.durationMs.value) + "s"]
  }

  /**
   A line of the expanded output: mark, label, model and tokens in a row, then the last tool, or the number of tool
   calls as long as no tool is known, then the duration.
   */
  lemma AgentLineReads(e: AgentEntry, fmt: Formats)
    ensures var name := if e.agentLabel.Some? then e.agentLabel.value else "?";
            var row := fmt.row(e.loopState == Some(Done), name, ShortModel(e.model), TokensText(fmt, e.tokens));
            var bits := (if e.lastToolName.Some? then ToolReads(e) else CountReads(e)) + SecondsRead(e, fmt);
            AgentLine(e, fmt) == if bits == [] then row else row + "   " + JoinWith(bits, "   ")
  {
    BitsRead(e, fmt);
  }

  /**
   An entry of the tool group: container and agent id, the label or else the id, success exactly when done, and as
   description the phase, model, tokens, number of tool calls, last tool and duration, as far as known.
   */
  lemma GroupEntryReads(c: Card, i: nat, fmt: Formats)
    requires i < |c.agents|
    ensures var (id, e) := c.agents[i];
            var title := if e.phaseTitle.Some? then e.phaseTitle.value
                         else if e.phaseIndex.Some? && e.phaseIndex.value in c.phases then c.phases[e.phaseIndex.value]
                         else "";
            var phase := if e.phaseIndex.None? then []
                         else [Text.Replace("[P" + Decimal(e.phaseIndex.value) + " " + title + "]", " ]", "]")];
            var entry := GroupEntries(c, fmt)[i];
            && entry.callId == c.callId + ":" + id
            && entry.name == (if e.agentLabel.Some? then e.agentLabel.value else id)
            && (entry.status == Success <==> e.loopState == Some(Done))
            && entry.description
               == JoinWith(phase + [ShortModel(e.model), TokensText(fmt, e.tokens) + " tok"] + CountReads(e) + ToolReads(e)
                           + SecondsRead(e, fmt), " \U{B7} ")
  {
    var e := c.agents[i].1;
    BitsRead(e, fmt);
    assert GroupEntries(c, fmt)[i] == GroupEntry(c, c.agents[i].0, e, fmt);
  }

  lemma BitsRead(e: AgentEntry, fmt: Formats)
    ensures ToolText(e) == ToolReads(e) && ToolCount(e) == CountReads(e) && DurationText(e, fmt) == SecondsRead(e, fmt)
  {
  }

  /** The header of a phase: its number, its title, and its done and known agents. */
  lemma HeaderReads(c: Card, index: nat, title: string, fmt: Formats)
    ensures LineText(c, Header(index + 1, title), fmt)
            == "Phase " + Decimal(index) + "  " + title + "   [" + Decimal(DoneIn(c.agents, index + 1)) + "/"
               + Decimal(KnownIn(c.agents, index + 1)) + "]"
  {
    HeaderParts("Phase " + Decimal(index) + "  " + title + "   ", Decimal(DoneIn(c.agents, index + 1)),
                Decimal(KnownIn(c.agents, index + 1)));
  }

  lemma HeaderParts(front: string, done: string, known: string)
    ensures front + ("[" + done + "/" + known + "]") == front + "[" + done + "/" + known + "]"
  {
  }

  /** The output has one header for each phase of an agent that has a title: the declared one, or its first agent's. */
  lemma {:induction false} HeadersIff(c: Card, keys: seq<nat>, line: Line)
    requires line.Header? && forall k :: 0 <= k < |keys| ==> exists i :: 0 <= i < |c.agents| && c.agents[i].1.PhaseKey() == keys[k]
    ensures line in Lines(c, keys)
            <==> line.key in keys && line.key > 0
                 && if line.key - 1 in c.phases then line.title == c.phases[line.key - 1]
                    else exists i :: 0 <= i < |c.agents| && c.agents[i].1.phaseIndex == Some(line.key - 1)
                                     && c.agents[i].1.phaseTitle == Some(line.title)
                                     && forall j :: 0 <= j < i ==> c.agents[j].1.phaseIndex != Some(line.key - 1)
    decreases |keys|
  {
    if keys != [] {
      var members := Members(c.agents, keys[0]);
      var block := HeaderOf(c, keys[0], members) + AgentLines(members);
      assert Lines(c, keys) == block + Lines(c, keys[1..]);
      assert keys == [keys[0]] + keys[1..];
      HeadersIff(c, keys[1..], line);
      assert line in block <==> line in HeaderOf(c, keys[0], members) by {
        assert forall i :: 0 <= i < |AgentLines(members)| ==> AgentLines(members)[i].Agent?;
      }
      assert keys[0] in keys;
      FirstMemberIs(c.agents, keys[0]);
      if line.key == keys[0] { HeaderIff(c, keys[0], members, line); }
    }
  }

  lemma FirstMemberIs(agents: Roster, key: nat)
    requires exists i :: 0 <= i < |agents| && agents[i].1.PhaseKey() == key
    ensures var members := Members(agents, key);
            && members != [] && members[0] < |agents| && agents[members[0]].1.PhaseKey() == key
            && forall j :: 0 <= j < members[0] ==> agents[j].1.PhaseKey() != key
  {
    var members := Members(agents, key);
    MembersAreMembers(agents, key);
    var i :| 0 <= i < |agents| && agents[i].1.PhaseKey() == key;
    assert i in members;
    assert members[0] in members;
    assert forall j :: j in members ==> members[0] <= j;
    assert forall j: nat :: j < |agents| && agents[j].1.PhaseKey() == key ==> j in members;
  }

  lemma HeaderIff(c: Card, key: nat, members: seq<nat>, line: Line)
    requires line.Header? && line.key == key && members != [] && members[0] < |c.agents|
    requires c.agents[members[0]].1.PhaseKey() == key
    requires forall j :: 0 <= j < members[0] ==> c.agents[j].1.PhaseKey() != key
    ensures line in HeaderOf(c, key, members)
            <==> key > 0
                 && if key - 1 in c.phases then line.title == c.phases[key - 1]
                    else exists i :: 0 <= i < |c.agents| && c.agents[i].1.phaseIndex == Some(key - 1)
                                     && c.agents[i].1.phaseTitle == Some(line.title)
                                     && forall j :: 0 <= j < i ==> c.agents[j].1.phaseIndex != Some(key - 1)
  {
    var first := members[0];
    if key > 0 && key - 1 !in c.phases {
      assert c.agents[first].1.phaseIndex == Some(key - 1);
      forall i | 0 <= i < |c.agents| && c.agents[i].1.phaseIndex == Some(key - 1)
                 && forall j :: 0 <= j < i ==> c.agents[j].1.phaseIndex != Some(key - 1)
        ensures i == first
      {
        assert c.agents[i].1.PhaseKey() == key;
      }
    }
  }

  // ---------------------------------------------------------------- emissions

  /** When a call sends something: there is something to show, and it is forced, or new and 500 ms after the last. */
  lemma EmitsIff(c: Card, now: Timestamp, forced: bool, fmt: Formats)
    ensures Emits(c, now, forced, fmt)
            <==> (c.kind == BackgroundTask || c.agents != [])
                 && (forced || (c.lastRender != Some(Render(c, now, fmt))
                                && (c.lastEmit.None? || now as int - c.lastEmit.value as int >= 500)))
  {
  }

  /** What a call sends: the launching call's own id, name and arguments, the outcome so far, and the rendering. */
  lemma FrameReads(c: Card, now: Timestamp, fmt: Formats)
    ensures var frame, r := EmissionOf(c, now, fmt).frame, Render(c, now, fmt);
            && frame.callId == c.callId && frame.name == c.toolName && frame.args == c.args
            && frame.description == r.description
            && frame.output == (if c.kind == BackgroundTask then None else Some(r.output))
            && (frame.status == CallRunning <==> c.status == Running)
            && (frame.status == CallCompleted <==> c.status == Completed)
            && (frame.status == CallError <==> c.status == Errored)
            && (frame.status == CallCanceled <==> c.status == Cancelled)
  {
  }
}
