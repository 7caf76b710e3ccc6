/** What holds of the catalog cache along every sequence of its operations. */
module RegistryRuns {
  import opened Common
  import opened Availability
  import opened Sorting
  import opened AgentRegistries

  const EMPTY := Snapshot(map[], map[], [])

  /** The repository answers with distinct rows, and for the id that was asked for; probes complete in some order. */
  ghost predicate Enabled(s: Snapshot, op: Op) {
    match op
    case DoHydrate(rows, host, done) => DistinctRows(rows) && multiset(done) == multiset(CheckedRows(rows, host))
    case DoRefresh(host, done) => ChecksOf(done, s.byId, host)
    case DoReload(id, row, _) => row.Some? ==> row.value.meta.id == id
    case DoHandshake(_) => true
    case DoRecheck(rs) => |rs| == |s.pending|
  }

  ghost predicate IsRun(s: Snapshot, ops: seq<Op>)
    decreases |ops|
  {
    ops == [] || (Enabled(s, ops[0]) && IsRun(Apply(s, ops[0]), ops[1..]))
  }

  ghost function Exec(s: Snapshot, ops: seq<Op>): Snapshot
    requires IsRun(s, ops)
    decreases |ops|
  {
    if ops == [] then s else Exec(Apply(s, ops[0]), ops[1..])
  }

  /** Rows are stored under their own ids, and reasons belong to unavailable rows. */
  ghost predicate Agreed(s: Snapshot) { Keyed(s.byId) && Consistent(s.byId, s.reasons) }

  /** The rows that are unavailable without a reason. */
  function Unexplained(s: Snapshot): set<string> {
    set id | id in s.byId && !s.byId[id].available && id !in s.reasons
  }

  /** The handshakes that first cache a row of which the snapshot tells nothing. */
  predicate IsGapHandshake(s: Snapshot, op: Op) {
    op.DoHandshake? && Cacheable(op.row) && op.row.value.meta.id !in s.byId && IsGap(op.row.value.Decoded())
  }

  /** The handshakes whose row brings a reason along. */
  predicate BringsReason(op: Op) {
    op.DoHandshake? && Cacheable(op.row) && ApplyCached(op.row.value.Decoded()).1.Some?
  }

  /** How an operation changes which rows are unexplained. */
  function UnexplainedAfter(s: Snapshot, op: Op, before: set<string>): set<string> {
    match op
    case DoHydrate(_, _, _) => {}
    case DoRefresh(_, _) => {}
    case DoReload(id, _, _) => before - {id}
    case DoHandshake(row) =>
      if IsGapHandshake(s, op) then before + {row.value.meta.id}
      else if BringsReason(op) then before - {row.value.meta.id} else before
    case DoRecheck(_) => before
  }

  lemma CompleteIsExplained(s: Snapshot)
    ensures Complete(s.byId, s.reasons) <==> Unexplained(s) == {}
  {
    forall id | id in s.byId && !s.byId[id].available && id !in s.reasons ensures id in Unexplained(s) {}
  }

  lemma HydrateStep(s: Snapshot, op: Op)
    requires op.DoHydrate? && Enabled(s, op)
    ensures Agreed(Apply(s, op)) && Unexplained(Apply(s, op)) == {}
  {
    HydratedAgrees(op.rows, op.host, op.done);
    CompleteIsExplained(Apply(s, op));
  }

  lemma RefreshStep(s: Snapshot, op: Op)
    requires op.DoRefresh? && Agreed(s)
    ensures Agreed(Apply(s, op)) && Unexplained(Apply(s, op)) == {}
  {
    RefreshAgrees(s.byId, op.host);
    CompleteIsExplained(Apply(s, op));
  }

  lemma ReloadStep(s: Snapshot, op: Op)
    requires op.DoReload? && Agreed(s) && Enabled(s, op)
    ensures Agreed(Apply(s, op)) && Unexplained(Apply(s, op)) == Unexplained(s) - {op.id}
  {
  }

  lemma HandshakeStep(s: Snapshot, op: Op)
    requires op.DoHandshake? && Agreed(s)
    ensures Agreed(Apply(s, op)) && Unexplained(Apply(s, op)) == UnexplainedAfter(s, op, Unexplained(s))
  {
    if Cacheable(op.row) {
      var m := op.row.value.Decoded();
      HandshakeAgreesIff(s.byId, s.reasons, m);
      CachedGapIff(m);
      var t := Apply(s, op);
      forall id | id != m.id ensures id in Unexplained(t) <==> id in Unexplained(s) {}
      assert m.id in Unexplained(t) <==> m.id in UnexplainedAfter(s, op, Unexplained(s));
    }
  }

  lemma RecheckStep(s: Snapshot, op: Op)
    requires op.DoRecheck? && Agreed(s) && Enabled(s, op)
    ensures Agreed(Apply(s, op)) && Unexplained(Apply(s, op)) == Unexplained(s)
  {
    RecheckKeepsAvailability(s.byId, s.pending, op.rs);
  }

  /** Every operation keeps the agreement, and changes the unexplained rows exactly as said. */
  lemma StepAgrees(s: Snapshot, op: Op)
    requires Agreed(s) && Enabled(s, op)
    ensures Agreed(Apply(s, op)) && Unexplained(Apply(s, op)) == UnexplainedAfter(s, op, Unexplained(s))
  {
    match op
    case DoHydrate(_, _, _) => HydrateStep(s, op);
    case DoRefresh(_, _) => RefreshStep(s, op);
    case DoReload(_, _, _) => ReloadStep(s, op);
    case DoHandshake(_) => HandshakeStep(s, op);
    case DoRecheck(_) => RecheckStep(s, op);
  }

  // ---------------------------------------------------------------- whole runs

  /** The unexplained rows of a run, told from its operations. */
  ghost function UnexplainedAlong(s: Snapshot, ops: seq<Op>, before: set<string>): set<string>
    requires IsRun(s, ops)
    decreases |ops|
  {
    if ops == [] then before
    else UnexplainedAlong(Apply(s, ops[0]), ops[1..], UnexplainedAfter(s, ops[0], before))
  }

  /**
   Along every run a recorded reason belongs to a present, unavailable row, and the unavailable rows without one are
   those left by gap handshakes and not probed, or given a reason, since.
   */
  lemma {:induction false} RunAgrees(s: Snapshot, ops: seq<Op>)
    requires Agreed(s) && IsRun(s, ops)
    ensures Agreed(Exec(s, ops)) && Unexplained(Exec(s, ops)) == UnexplainedAlong(s, ops, Unexplained(s))
    decreases |ops|
  {
    if ops != [] {
      StepAgrees(s, ops[0]);
      RunAgrees(Apply(s, ops[0]), ops[1..]);
    }
  }

  /** After every prefix of the run each unavailable row has a reason. */
  ghost predicate AlwaysComplete(s: Snapshot, ops: seq<Op>)
    requires IsRun(s, ops)
    decreases |ops|
  {
    Complete(s.byId, s.reasons) && (ops != [] ==> AlwaysComplete(Apply(s, ops[0]), ops[1..]))
  }

  ghost predicate NoGapHandshake(s: Snapshot, ops: seq<Op>)
    requires IsRun(s, ops)
    decreases |ops|
  {
    ops != [] ==> !IsGapHandshake(s, ops[0]) && NoGapHandshake(Apply(s, ops[0]), ops[1..])
  }

  lemma {:induction false} AlwaysCompleteFrom(s: Snapshot, ops: seq<Op>)
    requires Agreed(s) && Complete(s.byId, s.reasons) && IsRun(s, ops)
    ensures AlwaysComplete(s, ops) <==> NoGapHandshake(s, ops)
    decreases |ops|
  {
    if ops != [] {
      var t := Apply(s, ops[0]);
      StepAgrees(s, ops[0]);
      CompleteIsExplained(s);
      CompleteIsExplained(t);
      if IsGapHandshake(s, ops[0]) {
        assert ops[0].row.value.meta.id in Unexplained(t);
      } else {
        AlwaysCompleteFrom(t, ops[1..]);
      }
    }
  }

  /**
   From the empty registry, every unavailable row has a reason all along exactly if no handshake first caches a gap
   row.
   */
  lemma RunCompleteIff(ops: seq<Op>)
    requires IsRun(EMPTY, ops)
    ensures Agreed(Exec(EMPTY, ops))
    ensures AlwaysComplete(EMPTY, ops) <==> NoGapHandshake(EMPTY, ops)
  {
    RunAgrees(EMPTY, ops);
    AlwaysCompleteFrom(EMPTY, ops);
  }

  function ReasonFor(s: Snapshot, id: string): Option<Reason> { if id in s.reasons then Some(s.reasons[id]) else None }

  /**
   In every reachable registry a row is shown as missing exactly when it is unavailable, but for rows that are
   unexplained and were never checked: these are shown as unchecked.
   */
  lemma ShownMissingIff(ops: seq<Op>, id: string)
    requires IsRun(EMPTY, ops) && id in Exec(EMPTY, ops).byId
    ensures var s := Exec(EMPTY, ops);
            ManagementStatusOf(s.byId[id], ReasonFor(s, id)) == Missing
            <==> !s.byId[id].available && (id !in UnexplainedAlong(EMPTY, ops, {}) || s.byId[id].HasSnapshot())
  {
    RunAgrees(EMPTY, ops);
    assert Unexplained(EMPTY) == {};
    var s := Exec(EMPTY, ops);
    assert id in Unexplained(s) <==> !s.byId[id].available && id !in s.reasons;
  }
}
