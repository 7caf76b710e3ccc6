/**
 The catalog cache: rows by id, the reasons for which rows are unavailable, and the ids whose version
 probe awaits a recheck. Probes complete in any order.
 */
module AgentRegistries {
  import opened Common
  import opened Availability
  import opened Sorting

  const SYSTEM_DEFAULT_USER_ID := "system_default_user"

  /** A stored row; one that cannot be decoded is skipped. */
  datatype Row = Row(userId: Option<string>, decodes: bool, meta: Meta)
  {
    function Decoded(): Meta { meta.(available := false, resolvedCommand := None) }

    predicate IsGlobal() { userId.None? || userId.value == SYSTEM_DEFAULT_USER_ID }
  }

  type Rows = map<string, Meta>

  type Reasons = map<string, Reason>

  // ---------------------------------------------------------------- the maps of a list of checked rows

  /** The decodable rows, probed and checked. */
  function CheckedRows(rows: seq<Row>, host: Host): seq<Checked> {
    if rows == [] then []
    else (if rows[0].decodes then [Check(rows[0].Decoded(), host)] else []) + CheckedRows(rows[1..], host)
  }

  function ById(done: seq<Checked>): Rows {
    if done == [] then map[]
    else
      var last := done[|done| - 1].meta;
      ById(done[..|done| - 1])[last.id := last]
  }

  function ReasonsOf(done: seq<Checked>): Reasons {
    if done == [] then map[]
    else
      var before, last := ReasonsOf(done[..|done| - 1]), done[|done| - 1];
      if last.reason.Some? then before[last.meta.id := last.reason.value] else before
  }

  function PendingOf(done: seq<Checked>): seq<string> {
    if done == [] then []
    else
      var last := done[|done| - 1];
      PendingOf(done[..|done| - 1]) + (if last.outcome == PendingRecheck then [last.meta.id] else [])
  }

  /** Checks that share an id agree on the row, and on the reason if both have one. */
  ghost predicate AgreeById(done: seq<Checked>) {
    forall a, b :: a in done && b in done && a.meta.id == b.meta.id ==>
      a.meta == b.meta && (a.reason.Some? && b.reason.Some? ==> a.reason == b.reason)
  }

  ghost predicate DistinctRows(rows: seq<Row>) {
    forall i, j :: 0 <= i < j < |rows| ==> rows[i].meta.id != rows[j].meta.id
  }

  /** Every row is found under its id, and there are no other ids. */
  ghost predicate HoldsRows(byId: Rows, done: seq<Checked>) {
    && (forall c :: c in done ==> c.meta.id in byId && byId[c.meta.id] == c.meta)
    && (forall id :: id in byId ==> exists c :: c in done && c.meta.id == id)
  }

  /** Every reason is found under its row's id, and there are no other reasons. */
  ghost predicate HoldsReasons(reasons: Reasons, done: seq<Checked>) {
    && (forall c :: c in done && c.reason.Some? ==> c.meta.id in reasons && reasons[c.meta.id] == c.reason.value)
    && (forall id :: id in reasons ==> exists c :: c in done && c.meta.id == id && c.reason.Some?)
  }

  lemma SnocMembers<T>(xs: seq<T>)
    requires xs != []
    ensures forall x :: x in xs <==> x in xs[..|xs| - 1] || x == xs[|xs| - 1]
  {
    assert xs == xs[..|xs| - 1] + [xs[|xs| - 1]];
  }

  lemma {:induction false} ByIdHolds(done: seq<Checked>)
    requires AgreeById(done)
    ensures HoldsRows(ById(done), done)
  {
    if done != [] {
      var front, last := done[..|done| - 1], done[|done| - 1];
      SnocMembers(done);
      ByIdHolds(front);
      forall c | c in done ensures c.meta.id in ById(done) && ById(done)[c.meta.id] == c.meta {
        assert c.meta.id == last.meta.id ==> c.meta == last.meta;
      }
      forall id | id in ById(done) ensures exists c :: c in done && c.meta.id == id {
        if id == last.meta.id {
          assert last in done;
        } else {
          var c :| c in front && c.meta.id == id;
          assert c in done;
        }
      }
    }
  }

  lemma {:induction false} ReasonsHold(done: seq<Checked>)
    requires AgreeById(done)
    ensures HoldsReasons(ReasonsOf(done), done)
  {
    if done != [] {
      var front, last := done[..|done| - 1], done[|done| - 1];
      SnocMembers(done);
      ReasonsHold(front);
      forall c | c in done && c.reason.Some?
        ensures c.meta.id in ReasonsOf(done) && ReasonsOf(done)[c.meta.id] == c.reason.value
      {
        assert c.meta.id == last.meta.id && last.reason.Some? ==> c.reason == last.reason;
      }
      forall id | id in ReasonsOf(done) ensures exists c :: c in done && c.meta.id == id && c.reason.Some? {
        if id in ReasonsOf(front) {
          var c :| c in front && c.meta.id == id && c.reason.Some?;
          assert c in done;
        } else {
          assert last in done;
        }
      }
    }
  }

  // ---------------------------------------------------------------- completion order

  lemma SameMembers<T>(a: seq<T>, b: seq<T>)
    requires multiset(a) == multiset(b)
    ensures forall x :: x in a <==> x in b
  {
    forall x ensures x in a <==> x in b {
      assert x in a <==> x in multiset(a);
      assert x in b <==> x in multiset(b);
    }
  }

  lemma {:induction false} PendingConcat(a: seq<Checked>, b: seq<Checked>)
    ensures PendingOf(a + b) == PendingOf(a) + PendingOf(b)
    decreases |b|
  {
    if b == [] {
      assert a + b == a;
    } else {
      var front, last := b[..|b| - 1], b[|b| - 1];
      assert (a + b)[..|a + b| - 1] == a + front && (a + b)[|a + b| - 1] == last;
      PendingConcat(a, front);
    }
  }

  lemma WithoutOne<T>(front: seq<T>, left: seq<T>, right: seq<T>, x: T)
    requires multiset(front + [x]) == multiset(left + [x] + right)
    ensures multiset(front) == multiset(left + right)
  {
    assert multiset(front + [x]) == multiset(front) + multiset{x};
    assert multiset(left + [x] + right) == multiset(left + right) + multiset{x};
    forall y ensures multiset(front)[y] == multiset(left + right)[y] {
      assert (multiset(front) + multiset{x})[y] == (multiset(left + right) + multiset{x})[y];
    }
  }

  /** Where a row stands does not matter for which ids are pending. */
  lemma PendingMoved(left: seq<Checked>, x: Checked, right: seq<Checked>)
    ensures multiset(PendingOf(left + [x] + right)) == multiset(PendingOf(left + right)) + multiset(PendingOf([x]))
  {
    PendingConcat(left, right);
    PendingConcat(left + [x], right);
    PendingConcat(left, [x]);
  }

  /** Which ids are pending, and how often, does not depend on the completion order. */
  lemma {:induction false} PendingPermutes(a: seq<Checked>, b: seq<Checked>)
    requires multiset(a) == multiset(b)
    ensures multiset(PendingOf(a)) == multiset(PendingOf(b))
    decreases |a|
  {
    assert |multiset(a)| == |a| && |multiset(b)| == |b|;
    if a != [] {
      var front, last := a[..|a| - 1], a[|a| - 1];
      SameMembers(a, b);
      assert last in a;
      var k :| 0 <= k < |b| && b[k] == last;
      var left, right := b[..k], b[k + 1..];
      assert a == front + [last] + [] && front + [] == front;
      assert b == left + [last] + right;
      WithoutOne(front, left, right, last);
      PendingPermutes(front, left + right);
      PendingMoved(front, last, []);
      PendingMoved(left, last, right);
    }
  }

  lemma RowsAgree(a: seq<Checked>, b: seq<Checked>, rows: Rows, rows': Rows)
    requires forall c :: c in a <==> c in b
    requires HoldsRows(rows, a) && HoldsRows(rows', b)
    ensures rows == rows'
  {
    forall id ensures id in rows <==> id in rows' {
      if id in rows { var c :| c in a && c.meta.id == id; assert c in b; }
      if id in rows' { var c :| c in b && c.meta.id == id; assert c in a; }
    }
    forall id | id in rows ensures rows[id] == rows'[id] {
      var c :| c in a && c.meta.id == id;
      assert c in b;
    }
  }

  lemma ReasonsAgree(a: seq<Checked>, b: seq<Checked>, reasons: Reasons, reasons': Reasons)
    requires forall c :: c in a <==> c in b
    requires HoldsReasons(reasons, a) && HoldsReasons(reasons', b)
    ensures reasons == reasons'
  {
    forall id ensures id in reasons <==> id in reasons' {
      if id in reasons { var c :| c in a && c.meta.id == id && c.reason.Some?; assert c in b; }
      if id in reasons' { var c :| c in b && c.meta.id == id && c.reason.Some?; assert c in a; }
    }
    forall id | id in reasons ensures reasons[id] == reasons'[id] {
      var c :| c in a && c.meta.id == id && c.reason.Some?;
      assert c in b;
    }
  }

  /** The maps and the pending list built from two lists of checks are the same. */
  predicate SameResult(a: seq<Checked>, b: seq<Checked>) {
    ById(a) == ById(b) && ReasonsOf(a) == ReasonsOf(b) && Sort(PendingOf(a)) == Sort(PendingOf(b))
  }

  /** Checks that agree by id give the same maps and pending list in every completion order. */
  lemma CompletionOrderIsIrrelevant(a: seq<Checked>, b: seq<Checked>)
    requires multiset(a) == multiset(b) && AgreeById(a)
    ensures SameResult(a, b)
  {
    SameMembers(a, b);
    ByIdHolds(a);
    ByIdHolds(b);
    RowsAgree(a, b, ById(a), ById(b));
    ReasonsHold(a);
    ReasonsHold(b);
    ReasonsAgree(a, b, ReasonsOf(a), ReasonsOf(b));
    PendingPermutes(a, b);
    SortSorts(PendingOf(a));
    SortSorts(PendingOf(b));
    SortedIsUnique(Sort(PendingOf(a)), Sort(PendingOf(b)));
  }

  /** Any check can complete last, and then it decides what is stored under its id. */
  lemma LastWins(a: seq<Checked>, c: Checked) returns (b: seq<Checked>)
    requires c in a
    ensures multiset(b) == multiset(a)
    ensures c.meta.id in ById(b) && ById(b)[c.meta.id] == c.meta
    ensures c.reason.Some? ==> c.meta.id in ReasonsOf(b) && ReasonsOf(b)[c.meta.id] == c.reason.value
  {
    var k :| 0 <= k < |a| && a[k] == c;
    var rest := a[..k] + a[k + 1..];
    b := rest + [c];
    assert a == a[..k] + [c] + a[k + 1..];
    assert b[..|b| - 1] == rest && b[|b| - 1] == c;
  }

  /** The result depends on the completion order exactly when two checks that share an id disagree. */
  lemma OrderIsIrrelevantIff(a: seq<Checked>)
    ensures (forall b :: multiset(a) == multiset(b) ==> SameResult(a, b)) <==> AgreeById(a)
  {
    if AgreeById(a) {
      forall b | multiset(a) == multiset(b) ensures SameResult(a, b) { CompletionOrderIsIrrelevant(a, b); }
    } else {
      var c, d :| c in a && d in a && c.meta.id == d.meta.id
                  && !(c.meta == d.meta && (c.reason.Some? && d.reason.Some? ==> c.reason == d.reason));
      var b := LastWins(a, c);
      var b' := LastWins(a, d);
      assert !SameResult(a, b) || !SameResult(a, b');
    }
  }

  lemma {:induction false} CheckedComesFrom(rows: seq<Row>, host: Host, c: Checked) returns (i: nat)
    requires c in CheckedRows(rows, host)
    ensures i < |rows| && rows[i].decodes && c == Check(rows[i].Decoded(), host)
  {
    if rows[0].decodes && c == Check(rows[0].Decoded(), host) {
      i := 0;
    } else {
      var k := CheckedComesFrom(rows[1..], host, c);
      i := k + 1;
    }
  }

  /** Rows with distinct ids agree by id once checked. */
  lemma DistinctRowsAgree(rows: seq<Row>, host: Host)
    requires DistinctRows(rows)
    ensures AgreeById(CheckedRows(rows, host))
  {
    var done := CheckedRows(rows, host);
    forall a, b | a in done && b in done && a.meta.id == b.meta.id ensures a == b {
      var i := CheckedComesFrom(rows, host, a);
      var j := CheckedComesFrom(rows, host, b);
    }
  }

  // ---------------------------------------------------------------- agreement of the maps

  /** Every recorded reason belongs to a present, unavailable row. */
  ghost predicate Consistent(byId: Rows, reasons: Reasons) {
    forall id :: id in reasons ==> id in byId && !byId[id].available
  }

  /** Every unavailable row has a recorded reason. */
  ghost predicate Complete(byId: Rows, reasons: Reasons) {
    forall id :: id in byId && !byId[id].available ==> id in reasons
  }

  lemma CheckedMapsAgree(done: seq<Checked>, byId: Rows, reasons: Reasons)
    requires HoldsRows(byId, done) && HoldsReasons(reasons, done)
    requires forall c :: c in done ==> (c.meta.available <==> c.reason.None?)
    ensures Consistent(byId, reasons) && Complete(byId, reasons)
  {
    forall id | id in reasons ensures id in byId && !byId[id].available {
      var c :| c in done && c.meta.id == id && c.reason.Some?;
    }
    forall id | id in byId && !byId[id].available ensures id in reasons {
      var c :| c in done && c.meta.id == id;
    }
  }

  // ---------------------------------------------------------------- refresh

  function Refreshed(m: Meta, c: Checked): Meta {
    m.(available := c.meta.available, resolvedCommand := c.meta.resolvedCommand)
  }

  function RefreshedRows(byId: Rows, host: Host): Rows {
    map id | id in byId :: RefreshedRow(byId, id, host)
  }

  function RefreshedReasons(byId: Rows, host: Host): Reasons {
    map id | id in byId && Check(byId[id], host).reason.Some? :: Check(byId[id], host).reason.value
  }

  /** A row is stored under its own id. */
  ghost predicate Keyed(byId: Rows) { forall id :: id in byId ==> byId[id].id == id }

  /** Each cached row has been checked once, in some order. */
  ghost predicate ChecksOf(done: seq<Checked>, byId: Rows, host: Host) {
    && (forall i, j :: 0 <= i < j < |done| ==> done[i].meta.id != done[j].meta.id)
    && (forall c :: c in done ==> c.meta.id in byId && c == Check(byId[c.meta.id], host))
    && (forall id :: id in byId ==> exists c :: c in done && c.meta.id == id)
  }

  /** The first `i` rows are refreshed, the others are as before. */
  ghost predicate PartlyRefreshed(now: Rows, before: Rows, host: Host, done: seq<Checked>, i: nat)
    requires i <= |done|
  {
    && now.Keys == before.Keys
    && (forall j :: 0 <= j < i ==> var id := done[j].meta.id; id in now && now[id] == RefreshedRow(before, id, host))
    && (forall j :: i <= j < |done| ==> var id := done[j].meta.id; id in now && now[id] == before[id])
  }

  function RefreshedRow(byId: Rows, id: string, host: Host): Meta
    requires id in byId
  {
    Refreshed(byId[id], Check(byId[id], host))
  }

  lemma RefreshOneMore(now: Rows, before: Rows, host: Host, done: seq<Checked>, i: nat)
    requires ChecksOf(done, before, host) && i < |done| && PartlyRefreshed(now, before, host, done, i)
    ensures var id := done[i].meta.id;
            id in now && PartlyRefreshed(now[id := Refreshed(now[id], done[i])], before, host, done, i + 1)
  {
    var id := done[i].meta.id;
    assert done[i] in done;
    var next := now[id := Refreshed(now[id], done[i])];
    forall j | 0 <= j < |done| && j != i ensures done[j].meta.id in now && next[done[j].meta.id] == now[done[j].meta.id] {
      assert done[j].meta.id != id;
    }
  }

  lemma RefreshedAll(now: Rows, before: Rows, host: Host, done: seq<Checked>)
    requires ChecksOf(done, before, host) && PartlyRefreshed(now, before, host, done, |done|)
    ensures now == RefreshedRows(before, host)
  {
    forall id | id in before ensures now[id] == RefreshedRow(before, id, host) {
      var c :| c in done && c.meta.id == id;
      var j :| 0 <= j < |done| && done[j] == c;
    }
  }

  /** After a refresh exactly the rows that the inline check leaves to the recheck are pending. */
  lemma RefreshedPending(done: seq<Checked>, byId: Rows, host: Host, id: string)
    requires ChecksOf(done, byId, host)
    ensures id in Sort(PendingOf(done)) <==> id in byId && AwaitsRecheck(ApplyProbe(byId[id], host).0, host)
  {
    SortSorts(PendingOf(done));
    SameMembers(Sort(PendingOf(done)), PendingOf(done));
    PendingMembers(done, id);
    if id in byId {
      var c :| c in done && c.meta.id == id;
      PendingIff(ApplyProbe(byId[id], host).0, ApplyProbe(byId[id], host).1, host);
    }
  }

  lemma {:induction false} CheckedContains(rows: seq<Row>, host: Host, i: nat)
    requires i < |rows| && rows[i].decodes
    ensures Check(rows[i].Decoded(), host) in CheckedRows(rows, host)
  {
    if i > 0 { CheckedContains(rows[1..], host, i - 1); }
  }

  /** The stored rows that a startup leaves to the recheck. */
  predicate StartsPending(row: Row, host: Host) {
    row.decodes && AwaitsRecheck(ApplyProbe(row.Decoded(), host).0, host)
  }

  /** After startup exactly the ids of such rows are pending. */
  lemma HydratedPending(rows: seq<Row>, host: Host, done: seq<Checked>, id: string)
    requires multiset(done) == multiset(CheckedRows(rows, host))
    ensures id in Sort(PendingOf(done))
            <==> exists i :: 0 <= i < |rows| && rows[i].meta.id == id && StartsPending(rows[i], host)
  {
    SortSorts(PendingOf(done));
    SameMembers(Sort(PendingOf(done)), PendingOf(done));
    SameMembers(done, CheckedRows(rows, host));
    PendingMembers(done, id);
    if c: Checked :| c in done && c.meta.id == id && c.outcome == PendingRecheck {
      var i := CheckedComesFrom(rows, host, c);
      PendingIff(ApplyProbe(rows[i].Decoded(), host).0, ApplyProbe(rows[i].Decoded(), host).1, host);
    }
    forall i | 0 <= i < |rows| && rows[i].meta.id == id && StartsPending(rows[i], host)
      ensures Check(rows[i].Decoded(), host) in done && Check(rows[i].Decoded(), host).outcome == PendingRecheck
    {
      CheckedContains(rows, host, i);
      PendingIff(ApplyProbe(rows[i].Decoded(), host).0, ApplyProbe(rows[i].Decoded(), host).1, host);
    }
  }

  lemma RefreshedReasonsHold(done: seq<Checked>, byId: Rows, host: Host)
    requires ChecksOf(done, byId, host)
    ensures ReasonsOf(done) == RefreshedReasons(byId, host)
  {
    ReasonsHold(done);
    assert HoldsReasons(RefreshedReasons(byId, host), done);
    ReasonsAgree(done, done, ReasonsOf(done), RefreshedReasons(byId, host));
  }

  lemma RefreshAgrees(byId: Rows, host: Host)
    ensures Consistent(RefreshedRows(byId, host), RefreshedReasons(byId, host))
    ensures Complete(RefreshedRows(byId, host), RefreshedReasons(byId, host))
  {
  }

  lemma {:induction false} PendingMembers(done: seq<Checked>, id: string)
    ensures id in PendingOf(done) <==> exists c :: c in done && c.meta.id == id && c.outcome == PendingRecheck
  {
    if done != [] {
      var front, last := done[..|done| - 1], done[|done| - 1];
      SnocMembers(done);
      PendingMembers(front, id);
    }
  }

  // ---------------------------------------------------------------- recheck

  function RecheckOne(byId: Rows, id: string, r: Recheck): Rows {
    if id in byId then byId[id := Rechecked(byId[id], r)] else byId
  }

  /** The pending rows one after the other; the measurement of each is given. */
  function RecheckAll(byId: Rows, pending: seq<string>, rs: seq<Recheck>): Rows
    requires |rs| == |pending|
  {
    if pending == [] then byId
    else
      var n := |pending| - 1;
      RecheckOne(RecheckAll(byId, pending[..n], rs[..n]), pending[n], rs[n])
  }

  /** A recheck writes snapshots of pending rows: no row comes, goes, or changes availability. */
  lemma {:induction false} RecheckKeepsAvailability(byId: Rows, pending: seq<string>, rs: seq<Recheck>)
    requires |rs| == |pending|
    ensures var after := RecheckAll(byId, pending, rs);
            && after.Keys == byId.Keys
            && (forall id :: id in byId && id !in pending ==> after[id] == byId[id])
            && (forall id :: id in byId ==>
                  && after[id].id == byId[id].id
                  && after[id].available == byId[id].available
                  && after[id].resolvedCommand == byId[id].resolvedCommand)
  {
    if pending != [] {
      var n := |pending| - 1;
      RecheckKeepsAvailability(byId, pending[..n], rs[..n]);
      SnocMembers(pending);
    }
  }

  /** An id that stands at `i` and nowhere else. */
  predicate StandsOnlyAt(pending: seq<string>, i: nat) {
    i < |pending| && forall j :: 0 <= j < |pending| && j != i ==> pending[j] != pending[i]
  }

  /** Each pending row ends up with its own last measurement. */
  lemma {:induction false} RecheckSettles(byId: Rows, pending: seq<string>, rs: seq<Recheck>, i: nat)
    requires |rs| == |pending| && i < |pending| && pending[i] in byId
    requires forall j :: 0 <= j < |pending| && j != i ==> pending[j] != pending[i]
    ensures pending[i] in RecheckAll(byId, pending, rs)
    ensures RecheckAll(byId, pending, rs)[pending[i]] == Rechecked(byId[pending[i]], rs[i])
    ensures RecheckAll(byId, pending, rs)[pending[i]].lastStatus
            == if rs[i].failure.None? then Some(Online) else Some(Offline)
  {
    var n := |pending| - 1;
    if i < n {
      RecheckSettles(byId, pending[..n], rs[..n], i);
    } else {
      RecheckKeepsAvailability(byId, pending[..n], rs[..n]);
      assert forall j :: 0 <= j < n ==> pending[..n][j] != pending[i];
    }
  }

  /**
   What a whole recheck writes for a pending row, field by field: the verdict, the error and its text exactly on failure,
   the time and cost of the measurement, and the reading under success or failure, whichever it was.
   */
  lemma RecheckWrites(byId: Rows, pending: seq<string>, rs: seq<Recheck>, i: nat)
    requires |rs| == |pending| && i < |pending| && pending[i] in byId
    requires forall j :: 0 <= j < |pending| && j != i ==> pending[j] != pending[i]
    ensures pending[i] in RecheckAll(byId, pending, rs)
    ensures var m, t, r := byId[pending[i]], RecheckAll(byId, pending, rs)[pending[i]], rs[i];
            && (if r.failure.None? then t.lastStatus == Some(Online) else t.lastStatus == Some(Offline))
            && t.lastKind == Some(Startup) && t.latencyMs == Some(r.latencyMs) && t.checkedAt == Some(r.at)
            && (t.errorCode.Some? <==> r.failure.Some?) && (t.errorMessage.Some? <==> r.failure.Some?)
            && (r.failure.Some? ==> t.errorMessage == Some(r.failure.value.detail)
                                    && t.failureAt == Some(r.at) && t.successAt == m.successAt)
            && (r.failure.None? ==> t.successAt == Some(r.at) && t.failureAt == m.failureAt)
            && (t.errorCode == Some("version_probe_timeout") <==> r.failure.Some? && r.failure.value.VersionTimeout?)
            && (t.errorCode == Some("version_probe_failed") <==> r.failure.Some? && r.failure.value.VersionFailed?)
            && (t.errorCode == Some("package_lock_invalid") <==> r.failure.Some? && r.failure.value.SkipLookup?)
            && (t.errorCode == Some("command_not_found")
                <==> r.failure.Some? && (r.failure.value.NothingToProbe? || r.failure.value.CommandNotFound?))
  {
    RecheckSettles(byId, pending, rs, i);
  }

  /** So an available row that does not run inside the application is shown online exactly when its recheck worked. */
  lemma RecheckedIsShownOnlineIff(byId: Rows, pending: seq<string>, rs: seq<Recheck>, i: nat, reason: Option<Reason>)
    requires |rs| == |pending| && i < |pending| && pending[i] in byId
    requires forall j :: 0 <= j < |pending| && j != i ==> pending[j] != pending[i]
    requires var m := byId[pending[i]]; m.available && !(m.enabled && m.command.None? && m.source == Internal)
    ensures pending[i] in RecheckAll(byId, pending, rs)
    ensures var shown := ManagementStatusOf(RecheckAll(byId, pending, rs)[pending[i]], reason);
            if rs[i].failure.None? then shown == ShownOnline else shown == ShownOffline
  {
    RecheckSettles(byId, pending, rs, i);
    ShownAs(RecheckAll(byId, pending, rs)[pending[i]], reason);
  }

  /**
   The recheck is the memory of slowness: the next check of a rechecked row skips the version probe exactly when
   the row was measured slow, or would have no version probe to run.
   */
  lemma RecheckedRowSkipsProbeIff(byId: Rows, pending: seq<string>, rs: seq<Recheck>, i: nat, host: Host)
    requires |rs| == |pending| && i < |pending| && pending[i] in byId
    requires forall j :: 0 <= j < |pending| && j != i ==> pending[j] != pending[i]
    ensures pending[i] in RecheckAll(byId, pending, rs)
    ensures IgnoresVersion(RecheckAll(byId, pending, rs)[pending[i]], host)
            <==> MeasuredSlow(rs[i], host.slowThresholdMs) || !IsVersionChecked(ApplyProbe(byId[pending[i]], host).0)
  {
    RecheckSettles(byId, pending, rs, i);
    var m, r := byId[pending[i]], rs[i];
    IgnoresVersionIff(Rechecked(m, r), host);
    RecheckedIsSlowIff(m, r, host.slowThresholdMs);
    RecheckedProbesAlike(m, r, host);
  }

  /** Writing a snapshot does not change what the probe finds. */
  lemma RecheckedProbesAlike(m: Meta, r: Recheck, host: Host)
    ensures ApplyProbe(Rechecked(m, r), host).0 == Rechecked(ApplyProbe(m, host).0, r)
    ensures HasSlowHistory(ApplyProbe(Rechecked(m, r), host).0, host.slowThresholdMs)
            <==> HasSlowHistory(Rechecked(m, r), host.slowThresholdMs)
  {
  }

  // ---------------------------------------------------------------- handshake

  /** The row a handshake caches: its availability is the cached one when there is one. */
  function HandshakeMeta(byId: Rows, m: Meta): Meta {
    var t := ApplyCached(m).0;
    if m.id in byId then t.(available := byId[m.id].available, resolvedCommand := byId[m.id].resolvedCommand) else t
  }

  function HandshakeReason(byId: Rows, reasons: Reasons, m: Meta): Option<Reason> {
    var reason := ApplyCached(m).1;
    if m.id !in byId then reason
    else if byId[m.id].available then None
    else if m.id in reasons then Some(reasons[m.id]) else reason
  }

  function WithReason(reasons: Reasons, id: string, reason: Option<Reason>): Reasons {
    if reason.Some? then reasons[id := reason.value] else reasons - {id}
  }

  /**
   A handshake keeps every reason with an unavailable row. It leaves a row unavailable without a reason
   exactly when it is the first to cache a row of which the snapshot tells nothing.
   */
  lemma HandshakeAgreesIff(byId: Rows, reasons: Reasons, m: Meta)
    requires Consistent(byId, reasons)
    ensures var byId', reasons' := byId[m.id := HandshakeMeta(byId, m)],
                                   WithReason(reasons, m.id, HandshakeReason(byId, reasons, m));
            && Consistent(byId', reasons')
            && (Complete(byId, reasons) ==> (Complete(byId', reasons') <==> !(m.id !in byId && IsGap(m))))
  {
    CachedGapIff(m);
    var t := HandshakeMeta(byId, m);
    var reason := HandshakeReason(byId, reasons, m);
    var byId', reasons' := byId[m.id := t], WithReason(reasons, m.id, reason);
    assert m.id in reasons' <==> reason.Some?;
    assert forall id :: id != m.id ==> (id in reasons' <==> id in reasons) && (id in byId' <==> id in byId);
    assert m.id in byId' && byId'[m.id] == t;
    if Complete(byId, reasons) {
      assert Complete(byId', reasons') <==> (t.available || reason.Some?) by {
        assert forall id :: id in byId' && id != m.id ==> byId'[id] == byId[id];
      }
    }
  }

  /** A handshake for an uncached builtin row that was never health-checked leaves the cache without a reason. */
  lemma FirstHandshakeCanLeaveNoReason()
    ensures exists m: Meta :: var byId: Rows, reasons: Reasons := map[], map[];
                              && Complete(byId, reasons)
                              && !Complete(byId[m.id := HandshakeMeta(byId, m)],
                                           WithReason(reasons, m.id, HandshakeReason(byId, reasons, m)))
  {
    var m := Meta("a", true, false, Some("claude"), None, Builtin, Some("claude"), None, None, false, None, None, None,
                  None, None, None, None, None);
    HandshakeAgreesIff(map[], map[], m);
  }

  // ---------------------------------------------------------------- operations as steps

  /** What the registry holds. */
  datatype Snapshot = Snapshot(byId: Rows, reasons: Reasons, pending: seq<string>)

  /** An operation with what it is given by the repository and the probes. */
  datatype Op =
    | DoHydrate(rows: seq<Row>, host: Host, done: seq<Checked>)
    | DoRefresh(host: Host, done: seq<Checked>)
    | DoReload(id: string, row: Option<Row>, host: Host)
    | DoHandshake(row: Option<Row>)
    | DoRecheck(rs: seq<Recheck>)

  predicate Decodable(row: Option<Row>) { row.Some? && row.value.decodes }

  /** A handshake reaches the cache only for a decodable row shared by all users. */
  predicate Cacheable(row: Option<Row>) { Decodable(row) && row.value.IsGlobal() }

  function Apply(s: Snapshot, op: Op): Snapshot
    requires op.DoRecheck? ==> |op.rs| == |s.pending|
  {
    match op
    case DoHydrate(_, _, done) => Snapshot(ById(done), ReasonsOf(done), Sort(PendingOf(done)))
    case DoRefresh(host, done) =>
      Snapshot(RefreshedRows(s.byId, host), RefreshedReasons(s.byId, host), Sort(PendingOf(done)))
    case DoReload(id, row, host) =>
      if Decodable(row) then
        var (m, reason) := ApplyProbe(row.value.Decoded(), host);
        s.(byId := s.byId[id := m], reasons := WithReason(s.reasons, id, reason))
      else s.(byId := s.byId - {id}, reasons := s.reasons - {id})
    case DoHandshake(row) =>
      if Cacheable(row) then
        var m := row.value.Decoded();
        s.(byId := s.byId[m.id := HandshakeMeta(s.byId, m)],
           reasons := WithReason(s.reasons, m.id, HandshakeReason(s.byId, s.reasons, m)))
      else s
    case DoRecheck(rs) => s.(byId := RecheckAll(s.byId, s.pending, rs), pending := [])
  }

  // ---------------------------------------------------------------- the registry

  class AgentRegistry {
    var byId: Rows
    var unavailableReasons: Reasons
    var pendingRecheck: seq<string>

    function View(): Snapshot
      reads this
    {
      Snapshot(byId, unavailableReasons, pendingRecheck)
    }

    constructor ()
      ensures byId == map[] && unavailableReasons == map[] && pendingRecheck == []
      ensures Agrees() && Complete(byId, unavailableReasons)
    {
      byId, unavailableReasons, pendingRecheck := map[], map[], [];
    }

    ghost predicate Agrees()
      reads this
    {
      Keyed(byId) && Consistent(byId, unavailableReasons)
    }

    /** Startup. `done` are the checks of the stored rows in the order in which their probes completed. */
    method Hydrate(rows: seq<Row>, host: Host, done: seq<Checked>)
      requires multiset(done) == multiset(CheckedRows(rows, host))
      modifies this
      ensures View() == Apply(old(View()), DoHydrate(rows, host, done))
      ensures DistinctRows(rows) ==>
                var checked := CheckedRows(rows, host);
                && byId == ById(checked) && unavailableReasons == ReasonsOf(checked)
                && pendingRecheck == Sort(PendingOf(checked))
      ensures DistinctRows(rows) ==> Agrees() && Complete(byId, unavailableReasons)
    {
      var rowsById: Rows, reasons: Reasons, pending: seq<string> := map[], map[], [];
      var i := 0;
      while i < |done|
        invariant i <= |done|
        invariant rowsById == ById(done[..i]) && reasons == ReasonsOf(done[..i]) && pending == PendingOf(done[..i])
      {
        assert done[..i + 1][..i] == done[..i];
        var c := done[i];
        if c.reason.Some? { reasons := reasons[c.meta.id := c.reason.value]; }
        if c.outcome == PendingRecheck { pending := pending + [c.meta.id]; }
        rowsById := rowsById[c.meta.id := c.meta];
        i := i + 1;
      }
      assert done[..i] == done;
      byId, unavailableReasons, pendingRecheck := rowsById, reasons, Sort(pending);
      if DistinctRows(rows) { HydratedAgrees(rows, host, done); }
    }

    /** Probes every cached row again; persisted verdicts are left alone. */
    method RefreshAvailability(host: Host, done: seq<Checked>)
      requires Keyed(byId) && ChecksOf(done, byId, host)
      modifies this
      ensures View() == Apply(old(View()), DoRefresh(host, done))
      ensures byId.Keys == old(byId.Keys)
      ensures forall id :: id in byId ==>
                && byId[id].available == Check(old(byId)[id], host).meta.available
                && byId[id].resolvedCommand == Check(old(byId)[id], host).meta.resolvedCommand
                && byId[id] == old(byId)[id].(available := byId[id].available,
                                              resolvedCommand := byId[id].resolvedCommand)
      ensures Agrees() && Complete(byId, unavailableReasons)
    {
      var reasons, pending := CollectChecks(done);
      pendingRecheck := Sort(pending);
      UpdateRows(host, done);
      unavailableReasons := reasons;
      RefreshedReasonsHold(done, old(byId), host);
      RefreshAgrees(old(byId), host);
    }

    /** The reasons and pending ids of checks, in completion order. */
    method CollectChecks(done: seq<Checked>) returns (reasons: Reasons, pending: seq<string>)
      ensures reasons == ReasonsOf(done) && pending == PendingOf(done)
    {
      reasons, pending := map[], [];
      var i := 0;
      while i < |done|
        invariant i <= |done|
        invariant reasons == ReasonsOf(done[..i]) && pending == PendingOf(done[..i])
      {
        assert done[..i + 1][..i] == done[..i];
        var c := done[i];
        if c.outcome == PendingRecheck { pending := pending + [c.meta.id]; }
        if c.reason.Some? { reasons := reasons[c.meta.id := c.reason.value]; }
        i := i + 1;
      }
      assert done[..i] == done;
    }

    /** Writes the checks back into the cached rows: availability and resolved command, nothing else. */
    method UpdateRows(host: Host, done: seq<Checked>)
      requires Keyed(byId) && ChecksOf(done, byId, host)
      modifies this`byId
      ensures byId == RefreshedRows(old(byId), host)
    {
      ghost var before := byId;
      var i := 0;
      while i < |done|
        invariant i <= |done|
        invariant PartlyRefreshed(byId, before, host, done, i)
      {
        var c := done[i];
        RefreshOneMore(byId, before, host, done, i);
        if c.meta.id in byId { byId := byId[c.meta.id := Refreshed(byId[c.meta.id], c)]; }
        i := i + 1;
      }
      RefreshedAll(byId, before, host, done);
    }

    /** Refetches and probes one row; a row that is gone, or cannot be decoded, is dropped. */
    method ReloadOne(id: string, fetched: Result<Option<Row>, string>, host: Host)
      returns (r: Result<Option<Meta>, string>)
      requires fetched.Ok? && fetched.value.Some? ==> fetched.value.value.meta.id == id
      modifies this`byId, this`unavailableReasons
      ensures View() == if fetched.Err? then old(View()) else Apply(old(View()), DoReload(id, fetched.value, host))
      ensures r == if fetched.Err? then Err(fetched.error)
                   else Ok(if Decodable(fetched.value) then Some(ApplyProbe(fetched.value.value.Decoded(), host).0) else None)
      ensures fetched.Ok? && (fetched.value.None? || !fetched.value.value.decodes) ==>
                r == Ok(None) && byId == old(byId) - {id} && unavailableReasons == old(unavailableReasons) - {id}
      ensures fetched.Ok? && fetched.value.Some? && fetched.value.value.decodes ==>
                && r.Ok? && r.value.Some? && byId == old(byId)[id := r.value.value]
                && (id in unavailableReasons <==> !byId[id].available)
                && unavailableReasons - {id} == old(unavailableReasons) - {id}
      ensures old(Agrees()) ==> Agrees()
      ensures old(Complete(byId, unavailableReasons)) ==> Complete(byId, unavailableReasons)
    {
      if fetched.Err? { return Err(fetched.error); }
      if fetched.value.None? || !fetched.value.value.decodes {
        byId := byId - {id};
        unavailableReasons := unavailableReasons - {id};
        return Ok(None);
      }
      var (m, reason) := ApplyProbe(fetched.value.value.Decoded(), host);
      UpdateReason(m.id, reason);
      byId := byId[m.id := m];
      return Ok(Some(m));
    }

    method UpdateReason(id: string, reason: Option<Reason>)
      modifies this`unavailableReasons
      ensures unavailableReasons == WithReason(old(unavailableReasons), id, reason)
    {
      if reason.Some? {
        unavailableReasons := unavailableReasons[id := reason.value];
      } else {
        unavailableReasons := unavailableReasons - {id};
      }
    }

    /** The cache part of a handshake; `row` is what the repository returned after its own write. */
    method ApplyHandshake(row: Option<Row>)
      modifies this`byId, this`unavailableReasons
      ensures View() == Apply(old(View()), DoHandshake(row))
      ensures (row.None? || !row.value.decodes
               || (row.value.userId.Some? && row.value.userId.value != "system_default_user")) ==> View() == old(View())
      ensures row.Some? && row.value.decodes
              && (row.value.userId.None? || row.value.userId.value == "system_default_user") ==>
                var id := row.value.meta.id;
                && byId.Keys == old(byId.Keys) + {id}
                && (id in old(byId) ==>
                      byId[id] == row.value.meta.(available := old(byId)[id].available,
                                                  resolvedCommand := old(byId)[id].resolvedCommand))
                && (id !in old(byId) ==>
                      byId[id] == row.value.meta.(available := byId[id].available, resolvedCommand := None))
                && (id in old(byId) && !old(byId)[id].available && id in old(unavailableReasons) ==>
                      id in unavailableReasons && unavailableReasons[id] == old(unavailableReasons)[id])
                && (id in old(byId) && old(byId)[id].available ==> id !in unavailableReasons)
      ensures old(Agrees()) ==> Agrees()
      ensures old(Agrees() && Complete(byId, unavailableReasons)) ==>
                (Complete(byId, unavailableReasons)
                 <==> !(Cacheable(row) && row.value.meta.id !in old(byId) && IsGap(row.value.Decoded())))
    {
      if !Cacheable(row) { return; }
      var (m, reason) := ApplyCached(row.value.Decoded());
      if m.id in byId {
        m := m.(available := byId[m.id].available, resolvedCommand := byId[m.id].resolvedCommand);
        if m.available {
          reason := None;
        } else if m.id in unavailableReasons {
          reason := Some(unavailableReasons[m.id]);
        }
      }
      if Agrees() { HandshakeAgreesIff(byId, unavailableReasons, row.value.Decoded()); }
      UpdateReason(m.id, reason);
      byId := byId[m.id := m];
    }

    /** Settles the pending rows in order; `rs` are the measurements, one for each. */
    method RunSlowProbeRecheck(rs: seq<Recheck>)
      requires |rs| == |pendingRecheck|
      modifies this`byId, this`pendingRecheck
      ensures View() == Apply(old(View()), DoRecheck(rs))
      ensures forall i: nat :: StandsOnlyAt(old(pendingRecheck), i) && old(pendingRecheck)[i] in old(byId) ==>
                var id := old(pendingRecheck)[i];
                && id in byId
                && byId[id].lastStatus == (if rs[i].failure.None? then Some(Online) else Some(Offline))
                && (byId[id].errorCode.Some? <==> rs[i].failure.Some?)
                && (rs[i].failure.None? ==> byId[id].successAt == Some(rs[i].at)
                                            && byId[id].failureAt == old(byId)[id].failureAt)
                && (rs[i].failure.Some? ==> byId[id].failureAt == Some(rs[i].at)
                                            && byId[id].successAt == old(byId)[id].successAt)
      ensures old(Agrees()) ==> Agrees()
      ensures old(Complete(byId, unavailableReasons)) ==> Complete(byId, unavailableReasons)
    {
      var pending := pendingRecheck;
      ghost var before := byId;
      pendingRecheck := [];
      var i := 0;
      while i < |pending|
        invariant i <= |pending| && pendingRecheck == []
        invariant byId == RecheckAll(before, pending[..i], rs[..i])
      {
        assert pending[..i + 1][..i] == pending[..i] && rs[..i + 1][..i] == rs[..i];
        var id := pending[i];
        if id in byId { byId := byId[id := Rechecked(byId[id], rs[i])]; }
        i := i + 1;
      }
      assert pending[..i] == pending && rs[..i] == rs;
      RecheckKeepsAvailability(before, pending, rs);
      forall i: nat | StandsOnlyAt(pending, i) && pending[i] in before
        ensures pending[i] in byId && byId[pending[i]] == Rechecked(before[pending[i]], rs[i])
      {
        RecheckSettles(before, pending, rs, i);
      }
    }
  }

  lemma HydratedAgrees(rows: seq<Row>, host: Host, done: seq<Checked>)
    requires DistinctRows(rows) && multiset(done) == multiset(CheckedRows(rows, host))
    ensures var checked := CheckedRows(rows, host);
            ById(done) == ById(checked) && ReasonsOf(done) == ReasonsOf(checked)
            && Sort(PendingOf(done)) == Sort(PendingOf(checked))
    ensures Keyed(ById(done)) && Consistent(ById(done), ReasonsOf(done)) && Complete(ById(done), ReasonsOf(done))
  {
    var checked := CheckedRows(rows, host);
    DistinctRowsAgree(rows, host);
    CompletionOrderIsIrrelevant(checked, done);
    ByIdHolds(checked);
    ReasonsHold(checked);
    forall c | c in checked ensures c.meta.available <==> c.reason.None? {
      var i := CheckedComesFrom(rows, host, c);
    }
    CheckedMapsAgree(checked, ById(checked), ReasonsOf(checked));
    forall id | id in ById(checked) ensures ById(checked)[id].id == id {
      var c :| c in checked && c.meta.id == id;
    }
  }
}
