/**
 The task manager run by one caller at a time: rebuilds, runtime tokens, awaited teardown and
 the idle scan. What interleavings can do is the subject of TaskLifecycle.

 The factory's outcome, the agents' answers and the clock are parameters.
 */
module TaskManager {
  import opened Common
  import opened Types
  import RuntimeToken
  import ActiveLease

  type ConvId = string
  type Agent = nat

  datatype AgentError = FactoryFailed | KillFailed

  datatype AgentType = Acp | OtherAgent

  datatype ConversationStatus = Pending | Running | Finished

  /** What an agent says about itself to the idle scan. */
  datatype AgentReport = AgentReport(
    agentType: AgentType, status: Option<ConversationStatus>, lastActivity: Timestamp, liveBackgroundTasks: nat)

  datatype ManagedAgentTask = ManagedAgentTask(agent: Agent, capabilities: RuntimeCapabilities)

  const TEAM_RUNTIME_TOKEN_SESSION_GENERATION := "default"

  /** The slot of a conversation: `None` is an empty once-cell left by a failed build. */
  type Slots = map<ConvId, Option<ManagedAgentTask>>

  predicate HasTask(slots: Slots, conv: ConvId) { conv in slots && slots[conv].Some? }

  /** A running task that cannot serve the request has to be replaced. */
  predicate Outgrown(slots: Slots, conv: ConvId, want: RuntimeCapabilities) {
    HasTask(slots, conv) && !slots[conv].value.capabilities.Satisfies(want)
  }

  /** Scopes of a new task's token: the helper scope, and the team scopes when team-bound. */
  function TokenScopes(teamBound: bool): set<RuntimeToken.Scope> {
    {RuntimeToken.ConversationHelper} + (if teamBound then {RuntimeToken.TeamContext, RuntimeToken.TeamCall} else {})
  }

  /** Is this agent idle at time `now`: ACP, out of a turn, quiet for longer than the threshold, no live work? */
  predicate IsIdle(report: AgentReport, now: Timestamp, threshold: Timestamp) {
    && report.agentType == Acp
    && (report.status == None || report.status == Some(Finished))
    && SaturatingSub(now, report.lastActivity) > threshold
    && report.liveBackgroundTasks == 0
  }

  /** One entry met by the idle scan: its id, and the clock its lease lookup would read. */
  datatype Visit = Visit(id: ConvId, reading: Timestamp)

  /** The scan picks `v`: an initialised idle task without an active lease. */
  predicate Picks(slots: Slots, reports: map<Agent, AgentReport>, last: ActiveLease.Leases,
                  now: Timestamp, threshold: Timestamp, v: Visit)
  {
    && HasTask(slots, v.id)
    && slots[v.id].value.agent in reports
    && IsIdle(reports[slots[v.id].value.agent], now, threshold)
    && ActiveLease.Answer(last, v.id, v.reading) == None
  }

  /** The ids the scan collects, in the order it meets them. */
  function Picked(slots: Slots, reports: map<Agent, AgentReport>, last: ActiveLease.Leases,
                  now: Timestamp, threshold: Timestamp, visits: seq<Visit>): seq<ConvId>
  {
    if visits == [] then []
    else
      var front := Picked(slots, reports, last, now, threshold, visits[..|visits| - 1]);
      var v := visits[|visits| - 1];
      if Picks(slots, reports, last, now, threshold, v) then front + [v.id] else front
  }

  /** An id is collected exactly when some visit picks it. */
  lemma {:induction false} PickedIff(slots: Slots, reports: map<Agent, AgentReport>, last: ActiveLease.Leases,
                                     now: Timestamp, threshold: Timestamp, visits: seq<Visit>, id: ConvId)
    ensures id in Picked(slots, reports, last, now, threshold, visits)
            <==> exists i :: 0 <= i < |visits| && visits[i].id == id
                             && Picks(slots, reports, last, now, threshold, visits[i])
  {
    if visits != [] {
      var front := visits[..|visits| - 1];
      PickedIff(slots, reports, last, now, threshold, front, id);
      assert forall i :: 0 <= i < |front| ==> front[i] == visits[i];
    }
  }

  /** The ids are those of increasing positions of the walk. */
  predicate InWalkingOrder(ids: seq<ConvId>, visits: seq<Visit>, at: seq<nat>) {
    && |at| == |ids|
    && (forall k :: 0 <= k < |at| ==> at[k] < |visits| && visits[at[k]].id == ids[k])
    && (forall j, k :: 0 <= j < k < |at| ==> at[j] < at[k])
  }

  /** The ids are collected in the order in which they are met. */
  lemma {:induction false} PickedInOrder(slots: Slots, reports: map<Agent, AgentReport>, last: ActiveLease.Leases,
                                         now: Timestamp, threshold: Timestamp, visits: seq<Visit>) returns (at: seq<nat>)
    ensures InWalkingOrder(Picked(slots, reports, last, now, threshold, visits), visits, at)
  {
    at := [];
    if visits != [] {
      var n := |visits| - 1;
      at := PickedInOrder(slots, reports, last, now, threshold, visits[..n]);
      if Picks(slots, reports, last, now, threshold, visits[n]) { at := at + [n]; }
    }
  }

  /** A walk over the map: every conversation with a slot is met once. */
  ghost predicate Walks(visits: seq<Visit>, slots: Slots) {
    && (forall i :: 0 <= i < |visits| ==> visits[i].id in slots)
    && (forall id :: id in slots ==> exists i :: 0 <= i < |visits| && visits[i].id == id)
    && (forall i, j :: 0 <= i < j < |visits| ==> visits[i].id != visits[j].id)
  }

  /** The visit that meets `id`. */
  ghost function VisitOf(visits: seq<Visit>, slots: Slots, id: ConvId): (v: Visit)
    requires Walks(visits, slots) && id in slots
    ensures v in visits && v.id == id
  {
    var i :| 0 <= i < |visits| && visits[i].id == id;
    visits[i]
  }

  lemma VisitOfIs(visits: seq<Visit>, slots: Slots, i: nat)
    requires Walks(visits, slots) && i < |visits|
    ensures VisitOf(visits, slots, visits[i].id) == visits[i]
  {
    var v := VisitOf(visits, slots, visits[i].id);
    var k :| 0 <= k < |visits| && visits[k] == v;
  }

  /** The idle rule without saturation: a threshold at the end of the `i64` range is never exceeded. */
  predicate IdleInPlainTerms(report: AgentReport, now: Timestamp, threshold: Timestamp) {
    && report.agentType == Acp && (report.status == None || report.status == Some(Finished))
    && now as int - report.lastActivity as int > threshold as int && threshold as int < 0x7FFF_FFFF_FFFF_FFFF
    && report.liveBackgroundTasks == 0
  }

  lemma PicksInPlainTerms(slots: Slots, reports: map<Agent, AgentReport>, last: ActiveLease.Leases,
                          now: Timestamp, threshold: Timestamp, v: Visit)
    requires HasTask(slots, v.id) && slots[v.id].value.agent in reports
    ensures Picks(slots, reports, last, now, threshold, v)
            <==> IdleInPlainTerms(reports[slots[v.id].value.agent], now, threshold)
                 && (v.id in last ==> last[v.id] <= v.reading)
  {
  }

  /** A walk collects exactly the conversations that are picked when met. */
  lemma WalkCollectsIff(slots: Slots, reports: map<Agent, AgentReport>, last: ActiveLease.Leases,
                        now: Timestamp, threshold: Timestamp, visits: seq<Visit>, id: ConvId)
    requires Walks(visits, slots)
    ensures id in Picked(slots, reports, last, now, threshold, visits)
            <==> id in slots && Picks(slots, reports, last, now, threshold, VisitOf(visits, slots, id))
  {
    PickedIff(slots, reports, last, now, threshold, visits, id);
    if id in slots {
      var v := VisitOf(visits, slots, id);
      var k :| 0 <= k < |visits| && visits[k] == v;
      assert forall i :: 0 <= i < |visits| && visits[i].id == id ==> i == k;
    }
  }

  lemma WalkCollects(slots: Slots, reports: map<Agent, AgentReport>, last: ActiveLease.Leases,
                     now: Timestamp, threshold: Timestamp, visits: seq<Visit>)
    requires Walks(visits, slots)
    ensures forall id :: id in Picked(slots, reports, last, now, threshold, visits)
                         <==> id in slots && Picks(slots, reports, last, now, threshold, VisitOf(visits, slots, id))
  {
    forall id
      ensures id in Picked(slots, reports, last, now, threshold, visits)
              <==> id in slots && Picks(slots, reports, last, now, threshold, VisitOf(visits, slots, id))
    {
      WalkCollectsIff(slots, reports, last, now, threshold, visits, id);
    }
  }

  /** The agents of the listed conversations, in that order; conversations without a task add none. */
  function AgentsOf(slots: Slots, order: seq<ConvId>): seq<Agent> {
    if order == [] then []
    else
      var last := order[|order| - 1];
      AgentsOf(slots, order[..|order| - 1]) + (if HasTask(slots, last) then [slots[last].value.agent] else [])
  }

  /** The slots that are not listed. */
  function Unlisted(slots: Slots, order: seq<ConvId>): Slots {
    map conv | conv in slots && conv !in order :: slots[conv]
  }

  /** The grants left after dropping the listed conversations one by one. */
  function Dropped(grants: RuntimeToken.Grants, order: seq<ConvId>): RuntimeToken.Grants {
    if order == [] then grants
    else RuntimeToken.Apply(Dropped(grants, order[..|order| - 1]), RuntimeToken.DropConversation(order[|order| - 1]))
  }

  lemma {:induction false} DroppedIff(grants: RuntimeToken.Grants, order: seq<ConvId>)
    ensures forall p :: p in Dropped(grants, order) <==> p in grants && p.conversationId !in order
  {
    if order != [] {
      var front, last := order[..|order| - 1], order[|order| - 1];
      DroppedIff(grants, front);
      assert forall id :: id in order <==> id in front || id == last;
    }
  }

  /** What removing the next listed conversation changes. */
  lemma ClearNext(slots: Slots, grants: RuntimeToken.Grants, order: seq<ConvId>, i: nat)
    requires i < |order| && order[i] in slots
    requires forall j, k :: 0 <= j < k < |order| ==> order[j] != order[k]
    ensures var next := order[i];
            var left := Unlisted(slots, order[..i]);
            && next in left && left[next] == slots[next]
            && Unlisted(slots, order[..i + 1]) == left - {next}
            && AgentsOf(slots, order[..i + 1])
               == AgentsOf(slots, order[..i]) + (if HasTask(left, next) then [left[next].value.agent] else [])
            && Dropped(grants, order[..i + 1])
               == RuntimeToken.Apply(Dropped(grants, order[..i]), RuntimeToken.DropConversation(next))
  {
    assert order[..i + 1] == order[..i] + [order[i]] && order[..i + 1][..i] == order[..i];
    assert forall conv :: conv in order[..i + 1] <==> conv in order[..i] || conv == order[i];
  }

  // ---------------------------------------------------------------- tokens of a rebuild

  /** The request for a new task's token. */
  function IssueFor(options: BuildTaskOptions, generated: string, now: nat): RuntimeToken.Op {
    RuntimeToken.Issue(RuntimeToken.Pair(options.userId, options.conversationId),
                       TEAM_RUNTIME_TOKEN_SESSION_GENERATION, TokenScopes(options.teamBound), generated, now)
  }

  /** That request, unless the kill before it failed. */
  function OwnIssue(options: BuildTaskOptions, killOk: bool, generated: string, now: nat): Option<RuntimeToken.Op> {
    if killOk then Some(IssueFor(options, generated, now)) else None
  }

  /** The grants once a conversation is revoked and a request, if any, is served. */
  function Revoked(grants: RuntimeToken.Grants, conv: ConvId, issue: Option<RuntimeToken.Op>): RuntimeToken.Grants {
    var left := RuntimeToken.Apply(grants, RuntimeToken.DropConversation(conv));
    if issue.Some? then RuntimeToken.Apply(left, issue.value) else left
  }

  /** The environment with its runtime-token entries replaced by one. */
  function Tokened(env: Env, token: Option<string>): Env {
    if token.Some? then Without(env, {RUNTIME_TOKEN_ENV}) + [(RUNTIME_TOKEN_ENV, token.value)] else env
  }

  /**
   What a rebuild does to tokens: every earlier token of the conversation is dead, grants elsewhere are untouched,
   and the pair of the new task holds a token that covers the task's scopes; it is the newly generated one unless
   the options name another conversation.
   */
  lemma RebuildRevokesAndIssues(grants: RuntimeToken.Grants, conv: ConvId, options: BuildTaskOptions,
                                generated: string, now: nat)
    requires RuntimeToken.WellFormed(grants) && !RuntimeToken.Live(grants, generated)
    ensures var after := Revoked(grants, conv, Some(IssueFor(options, generated, now)));
            var p := RuntimeToken.Pair(options.userId, options.conversationId);
            && RuntimeToken.WellFormed(after)
            && (forall q :: q in grants && q.conversationId == conv ==> !RuntimeToken.Live(after, grants[q].token))
            && (forall q :: q in grants && q.conversationId != conv && q != p ==> q in after && after[q] == grants[q])
            && RuntimeToken.Covers(after, p, TEAM_RUNTIME_TOKEN_SESSION_GENERATION, TokenScopes(options.teamBound))
            && (options.conversationId == conv ==>
                  after[p].token == generated && after[p].claims.scopes == TokenScopes(options.teamBound))
  {
    var left := RuntimeToken.Apply(grants, RuntimeToken.DropConversation(conv));
    assert forall q :: q in left ==> q in grants && left[q] == grants[q] && left[q].token != generated;
  }

  /** Whatever it held before, the environment then holds exactly that one token. */
  lemma TokenedHoldsOne(env: Env, token: string, other: string)
    ensures ValuesOf(Tokened(env, Some(token)), RUNTIME_TOKEN_ENV) == [token]
    ensures other != RUNTIME_TOKEN_ENV ==> ValuesOf(Tokened(env, Some(token)), other) == ValuesOf(env, other)
  {
    ReplacedEntry(env, RUNTIME_TOKEN_ENV, token, other);
  }

  /** Nothing is left once every conversation with a slot is listed. */
  lemma ClearedAll(slots: Slots, grants: RuntimeToken.Grants, order: seq<ConvId>)
    requires forall conv :: conv in order <==> conv in slots
    ensures Unlisted(slots, order) == map[]
    ensures forall p :: p in Dropped(grants, order) <==> p in grants && p.conversationId !in slots
  {
    DroppedIff(grants, order);
  }

  class WorkerTaskManager {
    var tasks: Slots
    /** Every call of an agent's kill, in order. */
    var killed: seq<Agent>
    const leases: ActiveLease.ActiveLeaseRegistry
    const tokens: RuntimeToken.RuntimeTokenService?

    ghost predicate Valid()
      reads this, leases, tokens
    {
      leases.Valid() && (tokens != null ==> tokens.Valid())
    }

    constructor (leases: ActiveLease.ActiveLeaseRegistry, tokens: RuntimeToken.RuntimeTokenService?)
      requires leases.Valid() && (tokens != null ==> tokens.Valid())
      ensures Valid() && tasks == map[] && killed == [] && this.leases == leases && this.tokens == tokens
    {
      this.leases, this.tokens := leases, tokens;
      tasks, killed := map[], [];
    }

    ghost function TokenFrame(): set<object> { if tokens == null then {} else {tokens} }

    /** Drops every token of the conversation, if there is a token service. */
    method InvalidateRuntimeTokens(conv: ConvId)
      requires Valid()
      modifies TokenFrame()
      ensures Valid()
      ensures tokens != null ==> tokens.used == old(tokens.used)
      ensures tokens != null ==>
                tokens.grants == RuntimeToken.Apply(old(tokens.grants), RuntimeToken.DropConversation(conv))
    {
      if tokens != null { tokens.InvalidateConversationId(conv); }
    }

    /** Removes the task, drops its tokens, kills its agent if it had one. */
    method Kill(conv: ConvId, killOk: bool) returns (r: Result<(), AgentError>)
      requires Valid()
      modifies `tasks, `killed, TokenFrame()
      ensures Valid()
      ensures tokens != null ==> tokens.used == old(tokens.used)
      ensures tasks == old(tasks) - {conv}
      ensures killed == old(killed) + if HasTask(old(tasks), conv) then [old(tasks)[conv].value.agent] else []
      ensures r == if HasTask(old(tasks), conv) && !killOk then Err(KillFailed) else Ok(())
      ensures tokens != null ==>
                tokens.grants == if conv in old(tasks)
                                 then RuntimeToken.Apply(old(tokens.grants), RuntimeToken.DropConversation(conv))
                                 else old(tokens.grants)
    {
      if conv in tasks {
        var slot := tasks[conv];
        tasks := tasks - {conv};
        InvalidateRuntimeTokens(conv);
        if slot.Some? {
          killed := killed + [slot.value.agent];
          if !killOk { return Err(KillFailed); }
        }
      }
      return Ok(());
    }

    /** The first `i` listed conversations are removed, their agents killed, their tokens dropped. */
    ghost predicate ClearedTo(slots: Slots, killed0: seq<Agent>, grants: RuntimeToken.Grants, order: seq<ConvId>, i: nat)
      requires i <= |order|
      reads this, tokens
    {
      && tasks == Unlisted(slots, order[..i])
      && killed == killed0 + AgentsOf(slots, order[..i])
      && (tokens != null ==> tokens.grants == Dropped(grants, order[..i]))
    }

    /** The part of `Clear` for one listed conversation. */
    method ClearOne(order: seq<ConvId>, i: nat, ghost slots: Slots, ghost killed0: seq<Agent>,
                    ghost grants: RuntimeToken.Grants)
      requires Valid() && i < |order| && order[i] in slots && ClearedTo(slots, killed0, grants, order, i)
      requires forall j, k :: 0 <= j < k < |order| ==> order[j] != order[k]
      modifies `tasks, `killed, TokenFrame()
      ensures Valid() && ClearedTo(slots, killed0, grants, order, i + 1)
    {
      ClearNext(slots, grants, order, i);
      var slot := tasks[order[i]];
      tasks := tasks - {order[i]};
      InvalidateRuntimeTokens(order[i]);
      if slot.Some? { killed := killed + [slot.value.agent]; }
    }

    /** Removes, kills and un-tokens every task; `order` is the order in which the map lists its keys. */
    method Clear(order: seq<ConvId>)
      requires Valid()
      requires forall conv :: conv in order <==> conv in tasks
      requires forall i, j :: 0 <= i < j < |order| ==> order[i] != order[j]
      modifies `tasks, `killed, TokenFrame()
      ensures Valid() && tasks == map[]
      ensures killed == old(killed) + AgentsOf(old(tasks), order)
      ensures tokens != null ==> forall p :: p in tokens.grants <==>
                                               p in old(tokens.grants) && p.conversationId !in old(tasks)
    {
      ghost var tasks0, grants0 := tasks, if tokens != null then tokens.grants else map[];
      for i := 0 to |order|
        invariant Valid() && ClearedTo(tasks0, old(killed), grants0, order, i)
      {
        ClearOne(order, i, tasks0, old(killed), grants0);
      }
      assert order[..|order|] == order;
      ClearedAll(tasks0, grants0, order);
    }

    /** Issues a token for the new task and puts it into the environment handed to the factory. */
    method RefreshRuntimeToken(options: BuildTaskOptions, generated: string, now: nat)
      requires Valid()
      requires tokens != null ==> generated !in tokens.used && RuntimeToken.IsTokenText(generated)
      modifies TokenFrame(), options`runtimeEnv
      ensures Valid()
      ensures tokens != null ==>
                tokens.grants == RuntimeToken.Apply(old(tokens.grants), IssueFor(options, generated, now))
      ensures tokens != null ==>
                var p := RuntimeToken.Pair(options.userId, options.conversationId);
                && p in tokens.grants && tokens.grants[p].claims.generation == "default"
                && RuntimeToken.ConversationHelper in tokens.grants[p].claims.scopes
                && (options.teamBound ==> RuntimeToken.TeamContext in tokens.grants[p].claims.scopes
                                          && RuntimeToken.TeamCall in tokens.grants[p].claims.scopes)
                && (!options.teamBound && p !in old(tokens.grants) ==>
                      tokens.grants[p].claims.scopes == {RuntimeToken.ConversationHelper})
      ensures options.runtimeEnv == Tokened(old(options.runtimeEnv), TokenOf(options))
    {
      if tokens == null { return; }
      var scopes := {RuntimeToken.ConversationHelper};
      if options.teamBound {
        scopes := scopes + {RuntimeToken.TeamContext, RuntimeToken.TeamCall};
      }
      assert scopes == TokenScopes(options.teamBound);
      var p := RuntimeToken.Pair(options.userId, options.conversationId);
      var issued := tokens.IssueToken(p, TEAM_RUNTIME_TOKEN_SESSION_GENERATION, scopes, generated, now);
      options.SetRuntimeToken(issued.token);
    }

    /** Kills a task that was outgrown; if that works, its replacement gets a token of its own. */
    method ReplaceOutgrown(conv: ConvId, options: BuildTaskOptions, killOk: bool, generated: string, now: nat)
      requires Valid() && HasTask(tasks, conv)
      requires tokens != null ==> generated !in tokens.used && RuntimeToken.IsTokenText(generated)
      modifies `tasks, `killed, TokenFrame(), options`runtimeEnv
      ensures Valid() && tasks == old(tasks) - {conv}
      ensures killed == old(killed) + [old(tasks)[conv].value.agent]
      ensures tokens != null ==> tokens.grants == Revoked(old(tokens.grants), conv, OwnIssue(options, killOk, generated, now))
      ensures options.runtimeEnv == if killOk then Tokened(old(options.runtimeEnv), TokenOf(options))
                                    else old(options.runtimeEnv)
    {
      var _ := Kill(conv, killOk);
      if killOk { RefreshRuntimeToken(options, generated, now); }
    }

    /** The token the options' pair holds, if there is a token service. */
    ghost function TokenOf(options: BuildTaskOptions): Option<string>
      reads this, tokens, options
    {
      var p := RuntimeToken.Pair(options.userId, options.conversationId);
      if tokens != null && p in tokens.grants then Some(tokens.grants[p].token) else None
    }

    /**
     Returns a task that satisfies the request, building one when there is none and replacing one
     that falls short. `built` is what the factory would answer; `called` says whether it ran, on
     the options as they stand on return.
     */
    method GetOrBuildTask(conv: ConvId, options: BuildTaskOptions, built: Result<Agent, AgentError>, killOk: bool,
                          generated: string, now: nat)
      returns (r: Result<Agent, AgentError>, called: bool)
      requires Valid()
      requires tokens != null ==> generated !in tokens.used && RuntimeToken.IsTokenText(generated)
      modifies `tasks, `killed, TokenFrame(), options`runtimeEnv
      ensures Valid()
      // what is returned
      ensures r.Ok? ==> HasTask(tasks, conv) && tasks[conv].value.agent == r.value
                        && tasks[conv].value.capabilities.Satisfies(options.capabilities)
      ensures var rebuild := Outgrown(old(tasks), conv, options.capabilities);
              && (called <==> if rebuild then killOk else !HasTask(old(tasks), conv))
              && r == (if called then built
                       else if rebuild then Err(KillFailed)
                       else Ok(old(tasks)[conv].value.agent))
              && killed == old(killed) + (if rebuild then [old(tasks)[conv].value.agent] else [])
      ensures var want := options.capabilities.contextVersion;
              HasTask(old(tasks), conv) && (want.None? || (old(tasks)[conv].value.capabilities.contextVersion.Some?
                                                           && old(tasks)[conv].value.capabilities.contextVersion.value
                                                              >= want.value)) ==>
                r == Ok(old(tasks)[conv].value.agent) && !called && tasks == old(tasks) && killed == old(killed)
      // what happens to the map
      ensures called && r.Err? ==> tasks == old(tasks)[conv := None]
      ensures called && r.Ok? ==> tasks == old(tasks)[conv := Some(ManagedAgentTask(r.value, options.capabilities))]
      ensures !called ==> tasks == if r.Err? then old(tasks) - {conv} else old(tasks)
      // tokens and environment
      ensures !Outgrown(old(tasks), conv, options.capabilities) ==>
                options.runtimeEnv == old(options.runtimeEnv)
                && (tokens != null ==> tokens.grants == old(tokens.grants))
      ensures Outgrown(old(tasks), conv, options.capabilities) ==>
                && (tokens != null ==>
                      tokens.grants == Revoked(old(tokens.grants), conv, OwnIssue(options, killOk, generated, now)))
                && options.runtimeEnv == if killOk then Tokened(old(options.runtimeEnv), TokenOf(options))
                                         else old(options.runtimeEnv)
    {
      if conv in tasks && tasks[conv].Some? && !tasks[conv].value.capabilities.Satisfies(options.capabilities) {
        ReplaceOutgrown(conv, options, killOk, generated, now);
        if !killOk { return Err(KillFailed), false; }
      }
      if conv !in tasks {
        tasks := tasks[conv := None];
      }
      if tasks[conv].Some? {
        return Ok(tasks[conv].value.agent), false;
      }
      r, called := built, true;
      if r.Ok? {
        tasks := tasks[conv := Some(ManagedAgentTask(r.value, options.capabilities))];
      }
    }

    /** The walk itself: the ids that are picked when met, in walking order. */
    method Walk(threshold: Timestamp, now: Timestamp, visits: seq<Visit>, reports: map<Agent, AgentReport>)
      returns (ids: seq<ConvId>)
      requires Valid()
      requires forall i :: 0 <= i < |visits| ==> visits[i].id in tasks
      requires forall id :: HasTask(tasks, id) ==> tasks[id].value.agent in reports
      requires leases.clock <= now
      requires forall i :: 0 <= i < |visits| ==> now <= visits[i].reading
      requires forall i, j :: 0 <= i < j < |visits| ==> visits[i].reading <= visits[j].reading
      modifies leases`leases, leases`clock
      ensures Valid()
      ensures ids == Picked(tasks, reports, leases.last, now, threshold, visits)
    {
      ids := [];
      for i := 0 to |visits|
        invariant Valid()
        invariant ids == Picked(tasks, reports, leases.last, now, threshold, visits[..i])
        invariant i == 0 ==> leases.clock <= now
        invariant i > 0 ==> leases.clock <= visits[i - 1].reading
      {
        var v := visits[i];
        assert visits[..i + 1][..i] == visits[..i];
        assert visits[..i + 1][i] == v;
        var slot := tasks[v.id];
        if slot.Some? {
          var report := reports[slot.value.agent];
          var idleMs := SaturatingSub(now, report.lastActivity);
          if report.agentType != Acp || !(report.status == None || report.status == Some(Finished)) || idleMs <= threshold {
          } else if report.liveBackgroundTasks > 0 {
          } else {
            var lease := leases.ActiveUntil(v.id, v.reading);
            if lease == None {
              ids := ids + [v.id];
            }
          }
        }
      }
      assert visits[..|visits|] == visits;
    }

    /**
     Collects exactly the idle tasks of the map. The map is walked in any order; lease lookups read a clock
     that does not go back.
     */
    method CollectIdle(threshold: Timestamp, now: Timestamp, visits: seq<Visit>, reports: map<Agent, AgentReport>)
      returns (ids: seq<ConvId>)
      requires Valid() && Walks(visits, tasks)
      requires forall id :: HasTask(tasks, id) ==> tasks[id].value.agent in reports
      requires leases.clock <= now
      requires forall i :: 0 <= i < |visits| ==> now <= visits[i].reading
      requires forall i, j :: 0 <= i < j < |visits| ==> visits[i].reading <= visits[j].reading
      modifies leases`leases, leases`clock
      ensures Valid()
      ensures forall id :: id in ids <==>
                             id in tasks
                             && Picks(tasks, reports, leases.last, now, threshold, VisitOf(visits, tasks, id))
      ensures forall i :: 0 <= i < |visits| ==>
                (visits[i].id in ids <==>
                 && HasTask(tasks, visits[i].id)
                 && var report := reports[tasks[visits[i].id].value.agent];
                    && report.agentType == Acp && (report.status == None || report.status == Some(Finished))
                    && now as int - report.lastActivity as int > threshold as int
                    && threshold as int < 0x7FFF_FFFF_FFFF_FFFF
                    && report.liveBackgroundTasks == 0
                    && (visits[i].id in leases.last ==> leases.last[visits[i].id] <= visits[i].reading))
    {
      ids := Walk(threshold, now, visits, reports);
      WalkCollects(tasks, reports, leases.last, now, threshold, visits);
      forall i | 0 <= i < |visits|
        ensures visits[i].id in ids <==> Picks(tasks, reports, leases.last, now, threshold, visits[i])
      {
        VisitOfIs(visits, tasks, i);
      }
      forall i | 0 <= i < |visits| && HasTask(tasks, visits[i].id)
        ensures Picks(tasks, reports, leases.last, now, threshold, visits[i])
                <==> IdleInPlainTerms(reports[tasks[visits[i].id].value.agent], now, threshold)
                     && (visits[i].id in leases.last ==> leases.last[visits[i].id] <= visits[i].reading)
      {
        PicksInPlainTerms(tasks, reports, leases.last, now, threshold, visits[i]);
      }
    }
  }

  /** A token that covers the task's scopes validates for each of them. */
  lemma CoveredTokenValidates(grants: RuntimeToken.Grants, p: RuntimeToken.Pair, generation: string,
                              scopes: set<RuntimeToken.Scope>, scope: RuntimeToken.Scope,
                              r: Result<RuntimeToken.Claims, RuntimeToken.TokenError>)
    requires RuntimeToken.WellFormed(grants) && RuntimeToken.Covers(grants, p, generation, scopes) && scope in scopes
    requires RuntimeToken.IsTokenText(grants[p].token)
    requires RuntimeToken.ValidAnswer(grants, Some(grants[p].token), p, scope, generation, r)
    ensures r == Ok(grants[p].claims)
  {
    RuntimeToken.TokenTextIsTrimmed(grants[p].token);
    RuntimeToken.ValidationSucceedsIff(grants, Some(grants[p].token), p, scope, generation, r);
  }

  /** A token that the conversation held before a rebuild is unknown, whoever presents it for whatever. */
  lemma EarlierTokenIsUnknown(
    grants: RuntimeToken.Grants, conv: ConvId, options: BuildTaskOptions, generated: string, now: nat,
    held: RuntimeToken.Pair, p: RuntimeToken.Pair, scope: RuntimeToken.Scope, generation: string,
    r: Result<RuntimeToken.Claims, RuntimeToken.TokenError>)
    requires RuntimeToken.WellFormed(grants) && !RuntimeToken.Live(grants, generated)
    requires held in grants && held.conversationId == conv && RuntimeToken.IsTokenText(grants[held].token)
    requires var after := Revoked(grants, conv, Some(IssueFor(options, generated, now)));
             RuntimeToken.ValidAnswer(after, Some(grants[held].token), p, scope, generation, r)
    ensures r == Err(RuntimeToken.Unknown)
  {
    RebuildRevokesAndIssues(grants, conv, options, generated, now);
    RuntimeToken.TokenTextIsTrimmed(grants[held].token);
  }

  /** What the token of a rebuilt task answers for each scope; `isNew` says that it was issued by the rebuild. */
  lemma OwnTokenAnswers(grants: RuntimeToken.Grants, p: RuntimeToken.Pair, teamBound: bool, isNew: bool,
                        scope: RuntimeToken.Scope, r: Result<RuntimeToken.Claims, RuntimeToken.TokenError>)
    requires RuntimeToken.WellFormed(grants)
    requires RuntimeToken.Covers(grants, p, TEAM_RUNTIME_TOKEN_SESSION_GENERATION, TokenScopes(teamBound))
    requires isNew ==> grants[p].claims.scopes == TokenScopes(teamBound)
    requires RuntimeToken.IsTokenText(grants[p].token)
    requires RuntimeToken.ValidAnswer(grants, Some(grants[p].token), p, scope, TEAM_RUNTIME_TOKEN_SESSION_GENERATION, r)
    ensures scope == RuntimeToken.ConversationHelper
            || (teamBound && (scope == RuntimeToken.TeamContext || scope == RuntimeToken.TeamCall)) ==>
              r == Ok(grants[p].claims) && scope in grants[p].claims.scopes
    ensures isNew && !teamBound && (scope == RuntimeToken.TeamContext || scope == RuntimeToken.TeamCall) ==>
              r == Err(RuntimeToken.ScopeMissing)
  {
    RuntimeToken.TokenTextIsTrimmed(grants[p].token);
    if scope in TokenScopes(teamBound) {
      CoveredTokenValidates(grants, p, TEAM_RUNTIME_TOKEN_SESSION_GENERATION, TokenScopes(teamBound), scope, r);
    }
  }

  lemma RebuiltTokensAreText(grants: RuntimeToken.Grants, conv: ConvId, options: BuildTaskOptions, generated: string,
                             now: nat)
    requires RuntimeToken.IsTokenText(generated) && forall q :: q in grants ==> RuntimeToken.IsTokenText(grants[q].token)
    ensures var after := Revoked(grants, conv, Some(IssueFor(options, generated, now)));
            forall q :: q in after ==> RuntimeToken.IsTokenText(after[q].token)
  {
  }

  /**
   A client that rebuilds an outgrown task and then presents tokens: the one it finds in the factory's environment,
   and one that the conversation held before.
   */
  method RebuildThenValidate(
    manager: WorkerTaskManager, tokens: RuntimeToken.RuntimeTokenService, conv: ConvId, options: BuildTaskOptions,
    built: Result<Agent, AgentError>, generated: string, now: nat, scope: RuntimeToken.Scope,
    held: RuntimeToken.Pair, earlierToken: string, other: RuntimeToken.Pair, otherScope: RuntimeToken.Scope,
    generation: string)
    returns (r: Result<Agent, AgentError>, own: Result<RuntimeToken.Claims, RuntimeToken.TokenError>,
             earlier: Result<RuntimeToken.Claims, RuntimeToken.TokenError>)
    requires manager.Valid() && manager.tokens == tokens
    requires conv in manager.tasks && manager.tasks[conv].Some? && options.capabilities.contextVersion.Some?
             && var version := manager.tasks[conv].value.capabilities.contextVersion;
                version.None? || version.value < options.capabilities.contextVersion.value
    requires generated !in tokens.used && RuntimeToken.IsTokenText(generated)
    requires held in tokens.grants && held.conversationId == conv && tokens.grants[held].token == earlierToken
    modifies manager`tasks, manager`killed, tokens, options`runtimeEnv
    ensures manager.Valid() && r == built
    ensures |ValuesOf(options.runtimeEnv, RUNTIME_TOKEN_ENV)| == 1
    ensures RuntimeToken.ValidAnswer(
              tokens.grants, Some(ValuesOf(options.runtimeEnv, RUNTIME_TOKEN_ENV)[0]),
              RuntimeToken.Pair(options.userId, options.conversationId), scope, TEAM_RUNTIME_TOKEN_SESSION_GENERATION, own)
    ensures RuntimeToken.ValidAnswer(tokens.grants, Some(earlierToken), other, otherScope, generation, earlier)
    ensures scope == RuntimeToken.ConversationHelper
            || (options.teamBound && (scope == RuntimeToken.TeamContext || scope == RuntimeToken.TeamCall)) ==>
              && own.Ok? && own.value.userId == options.userId && own.value.conversationId == options.conversationId
              && scope in own.value.scopes && own.value.generation == "default"
    ensures options.conversationId == conv && !options.teamBound
            && (scope == RuntimeToken.TeamContext || scope == RuntimeToken.TeamCall) ==>
              own == Err(RuntimeToken.ScopeMissing)
    ensures earlier == Err(RuntimeToken.Unknown)
  {
    ghost var grants, env := tokens.grants, options.runtimeEnv;
    tokens.GrantsAreWellFormed();
    var called;
    r, called := manager.GetOrBuildTask(conv, options, built, true, generated, now);
    RebuildRevokesAndIssues(grants, conv, options, generated, now);
    own, earlier := PresentTokens(tokens, options, grants, env, conv, generated, now, scope, held, earlierToken, other,
                                  otherScope, generation);
  }

  /** The two validations, after a rebuild that started from `grants` and `env`. */
  method PresentTokens(
    tokens: RuntimeToken.RuntimeTokenService, options: BuildTaskOptions, ghost grants: RuntimeToken.Grants,
    ghost env: Env, ghost conv: ConvId, ghost generated: string, ghost now: nat, scope: RuntimeToken.Scope,
    ghost held: RuntimeToken.Pair, earlierToken: string, other: RuntimeToken.Pair, otherScope: RuntimeToken.Scope,
    generation: string)
    returns (own: Result<RuntimeToken.Claims, RuntimeToken.TokenError>,
             earlier: Result<RuntimeToken.Claims, RuntimeToken.TokenError>)
    requires tokens.Valid() && tokens.grants == Revoked(grants, conv, Some(IssueFor(options, generated, now)))
    requires RuntimeToken.WellFormed(grants) && !RuntimeToken.Live(grants, generated)
    requires RuntimeToken.IsTokenText(generated) && forall q :: q in grants ==> RuntimeToken.IsTokenText(grants[q].token)
    requires RuntimeToken.Pair(options.userId, options.conversationId) in tokens.grants
    requires var p := RuntimeToken.Pair(options.userId, options.conversationId);
             options.runtimeEnv == Tokened(env, Some(tokens.grants[p].token))
    requires held in grants && held.conversationId == conv && grants[held].token == earlierToken
    ensures |ValuesOf(options.runtimeEnv, RUNTIME_TOKEN_ENV)| == 1
    ensures RuntimeToken.ValidAnswer(
              tokens.grants, Some(ValuesOf(options.runtimeEnv, RUNTIME_TOKEN_ENV)[0]),
              RuntimeToken.Pair(options.userId, options.conversationId), scope, TEAM_RUNTIME_TOKEN_SESSION_GENERATION, own)
    ensures RuntimeToken.ValidAnswer(tokens.grants, Some(earlierToken), other, otherScope, generation, earlier)
    ensures scope == RuntimeToken.ConversationHelper
            || (options.teamBound && (scope == RuntimeToken.TeamContext || scope == RuntimeToken.TeamCall)) ==>
              && own.Ok? && own.value.userId == options.userId && own.value.conversationId == options.conversationId
              && scope in own.value.scopes && own.value.generation == "default"
    ensures options.conversationId == conv && !options.teamBound
            && (scope == RuntimeToken.TeamContext || scope == RuntimeToken.TeamCall) ==>
              own == Err(RuntimeToken.ScopeMissing)
    ensures earlier == Err(RuntimeToken.Unknown)
  {
    var p := RuntimeToken.Pair(options.userId, options.conversationId);
    TokenedHoldsOne(env, tokens.grants[p].token, RUNTIME_TOKEN_ENV);
    var mine := ValuesOf(options.runtimeEnv, RUNTIME_TOKEN_ENV);
    own := tokens.Validate(Some(mine[0]), p, scope, TEAM_RUNTIME_TOKEN_SESSION_GENERATION);
    earlier := tokens.Validate(Some(earlierToken), other, otherScope, generation);
    tokens.GrantsAreWellFormed();
    RebuildRevokesAndIssues(grants, conv, options, generated, now);
    RebuiltTokensAreText(grants, conv, options, generated, now);
    OwnTokenAnswers(tokens.grants, p, options.teamBound, options.conversationId == conv, scope, own);
    EarlierTokenIsUnknown(grants, conv, options, generated, now, held, other, otherScope, generation, earlier);
  }
}
