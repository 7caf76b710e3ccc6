/**
 Foreground leases with lazy expiry: an expired lease is dropped by the lookup that meets it.
 Clock readings are parameters.
 */
module ActiveLease {
  import opened Common

  type Leases = map<string, Timestamp>

  /** What a lookup answers on a given map. */
  function Answer(leases: Leases, id: string, now: Timestamp): Option<Timestamp> {
    if id in leases && leases[id] > now then Some(leases[id]) else None
  }

  /** The map a lookup leaves behind. */
  function Prune(leases: Leases, id: string, now: Timestamp): Leases {
    if id in leases && leases[id] <= now then leases - {id} else leases
  }

  // ---------------------------------------------------------------- whole runs

  datatype LeaseOp = Renew(id: string, now: Timestamp) | Query(id: string, now: Timestamp)

  /** The answers of a run that drops expired leases as the source does. */
  function Pruned(leases: Leases, ttl: Timestamp, ops: seq<LeaseOp>): seq<Option<Timestamp>>
    decreases |ops|
  {
    if ops == [] then []
    else match ops[0]
      case Renew(id, now) => Pruned(leases[id := SaturatingAdd(now, ttl)], ttl, ops[1..])
      case Query(id, now) => [Answer(leases, id, now)] + Pruned(Prune(leases, id, now), ttl, ops[1..])
  }

  /** The answers of a run that only remembers the last renewal of every id. */
  function Unpruned(last: Leases, ttl: Timestamp, ops: seq<LeaseOp>): seq<Option<Timestamp>>
    decreases |ops|
  {
    if ops == [] then []
    else match ops[0]
      case Renew(id, now) => Unpruned(last[id := SaturatingAdd(now, ttl)], ttl, ops[1..])
      case Query(id, now) => [Answer(last, id, now)] + Unpruned(last, ttl, ops[1..])
  }

  /** Lookups read a clock that never goes back behind `clock`; renewals may read any time. */
  predicate ForwardQueries(ops: seq<LeaseOp>, clock: Timestamp)
    decreases |ops|
  {
    ops != [] ==>
      if ops[0].Query? then clock <= ops[0].now && ForwardQueries(ops[1..], ops[0].now)
      else ForwardQueries(ops[1..], clock)
  }

  /** `leases` is `last` without some renewals that had expired by `clock`. */
  ghost predicate Hides(leases: Leases, last: Leases, clock: Timestamp) {
    && (forall id :: id in leases ==> id in last && leases[id] == last[id])
    && (forall id :: id in last && id !in leases ==> last[id] <= clock)
  }

  /** Lazy expiry is invisible: on a forward clock both runs answer every lookup alike. */
  lemma {:induction false} LazyExpiryIsInvisible(leases: Leases, last: Leases, ttl: Timestamp,
                                                 ops: seq<LeaseOp>, clock: Timestamp)
    requires Hides(leases, last, clock) && ForwardQueries(ops, clock)
    ensures Pruned(leases, ttl, ops) == Unpruned(last, ttl, ops)
    decreases |ops|
  {
    if ops != [] {
      match ops[0]
      case Renew(id, now) =>
        var expires := SaturatingAdd(now, ttl);
        LazyExpiryIsInvisible(leases[id := expires], last[id := expires], ttl, ops[1..], clock);
      case Query(id, now) =>
        LazyExpiryIsInvisible(Prune(leases, id, now), last, ttl, ops[1..], now);
    }
  }

  /** Lookups of one id at the readings `ts`. */
  function Lookups(id: string, ts: seq<Timestamp>): seq<LeaseOp> {
    if ts == [] then [] else [Query(id, ts[0])] + Lookups(id, ts[1..])
  }

  predicate NeverBack(ts: seq<Timestamp>) {
    forall i, j :: 0 <= i < j < |ts| ==> ts[i] <= ts[j]
  }

  lemma {:induction false} ForwardLookups(id: string, ts: seq<Timestamp>, clock: Timestamp)
    requires NeverBack(ts) && (ts != [] ==> clock <= ts[0])
    ensures ForwardQueries(Lookups(id, ts), clock)
    decreases |ts|
  {
    if ts != [] {
      assert Lookups(id, ts)[1..] == Lookups(id, ts[1..]);
      ForwardLookups(id, ts[1..], ts[0]);
    }
  }

  /** Without dropping, each lookup is answered on its own. */
  lemma {:induction false} UnprunedAt(last: Leases, ttl: Timestamp, id: string, ts: seq<Timestamp>, k: nat)
    requires k < |ts|
    ensures |Unpruned(last, ttl, Lookups(id, ts))| == |ts|
    ensures Unpruned(last, ttl, Lookups(id, ts))[k] == Answer(last, id, ts[k])
    decreases |ts|
  {
    assert Lookups(id, ts)[1..] == Lookups(id, ts[1..]);
    if |ts| == 1 {
      assert Unpruned(last, ttl, Lookups(id, ts[1..])) == [];
    } else {
      UnprunedAt(last, ttl, id, ts[1..], if k == 0 then 0 else k - 1);
    }
  }

  /** Once a lookup has met the lease expired, every later one finds none. */
  lemma {:induction false} PrunedAfter(leases: Leases, ttl: Timestamp, id: string, ts: seq<Timestamp>, i: nat, k: nat)
    requires i < k < |ts| && (id in leases ==> leases[id] <= ts[i])
    ensures k < |Pruned(leases, ttl, Lookups(id, ts))| && Pruned(leases, ttl, Lookups(id, ts))[k] == None
    decreases |ts|
  {
    var next := Prune(leases, id, ts[0]);
    assert Lookups(id, ts)[1..] == Lookups(id, ts[1..]);
    if i > 0 {
      PrunedAfter(next, ttl, id, ts[1..], i - 1, k - 1);
    } else if k > 1 {
      PrunedAfter(next, ttl, id, ts[1..], 0, k - 1);
    } else {
      assert Lookups(id, ts[1..]) == [Query(id, ts[1])] + Lookups(id, ts[2..]);
    }
  }

  /**
   Lookups of an id are answered, for all leases, as if none were ever dropped exactly when the clock never goes back.
   */
  lemma LookupsAgreeIff(ttl: Timestamp, id: string, ts: seq<Timestamp>)
    ensures (forall leases: Leases :: Pruned(leases, ttl, Lookups(id, ts)) == Unpruned(leases, ttl, Lookups(id, ts)))
            <==> NeverBack(ts)
  {
    if NeverBack(ts) {
      forall leases: Leases ensures Pruned(leases, ttl, Lookups(id, ts)) == Unpruned(leases, ttl, Lookups(id, ts)) {
        ForwardLookups(id, ts, I64_MIN);
        LazyExpiryIsInvisible(leases, leases, ttl, Lookups(id, ts), I64_MIN);
      }
    } else {
      var i, k :| 0 <= i < k < |ts| && ts[i] > ts[k];
      var leases: Leases := map[id := ts[i]];
      UnprunedAt(leases, ttl, id, ts, k);
      PrunedAfter(leases, ttl, id, ts, i, k);
      assert Pruned(leases, ttl, Lookups(id, ts)) != Unpruned(leases, ttl, Lookups(id, ts));
    }
  }

  // ---------------------------------------------------------------- the registry

  const ACTIVE_LEASE_TTL_MS: Timestamp := 90_000

  class ActiveLeaseRegistry {
    var leases: Leases
    const ttl: Timestamp
    /** The last renewal of every id, never dropped. */
    ghost var last: Leases
    /** The latest clock reading of any lookup. */
    ghost var clock: Timestamp

    ghost predicate Valid()
      reads this
    {
      Hides(leases, last, clock)
    }

    constructor (ttl: Timestamp := ACTIVE_LEASE_TTL_MS)
      ensures Valid() && last == map[] && clock == I64_MIN && this.ttl == ttl
    {
      this.ttl := ttl;
      leases, last, clock := map[], map[], I64_MIN;
    }

    method Renew(id: string, now: Timestamp) returns (expires: Timestamp)
      requires Valid()
      modifies `leases, `last
      ensures Valid() && expires == SaturatingAdd(now, ttl) && last == old(last)[id := expires]
      ensures -0x8000_0000_0000_0000 <= now as int + ttl as int <= 0x7FFF_FFFF_FFFF_FFFF ==>
                expires as int == now as int + ttl as int
      ensures now as int + ttl as int > 0x7FFF_FFFF_FFFF_FFFF ==> expires as int == 0x7FFF_FFFF_FFFF_FFFF
      ensures now as int + ttl as int < -0x8000_0000_0000_0000 ==> expires as int == -0x8000_0000_0000_0000
    {
      expires := SaturatingAdd(now, ttl);
      leases := leases[id := expires];
      last := last[id := expires];
    }

    method RenewMany(ids: seq<string>, now: Timestamp) returns (count: nat, expires: Timestamp)
      requires Valid()
      modifies `leases, `last
      ensures Valid() && count == |ids| && expires == SaturatingAdd(now, ttl)
      ensures -0x8000_0000_0000_0000 <= now as int + ttl as int <= 0x7FFF_FFFF_FFFF_FFFF ==>
                expires as int == now as int + ttl as int
      ensures now as int + ttl as int > 0x7FFF_FFFF_FFFF_FFFF ==> expires as int == 0x7FFF_FFFF_FFFF_FFFF
      ensures now as int + ttl as int < -0x8000_0000_0000_0000 ==> expires as int == -0x8000_0000_0000_0000
      ensures forall id :: id in last <==> id in old(last) || id in ids
      ensures forall id :: id in last ==> last[id] == if id in ids then expires else old(last)[id]
    {
      expires := SaturatingAdd(now, ttl);
      count := 0;
      for i := 0 to |ids|
        invariant Valid() && count == i
        invariant forall id :: id in last <==> id in old(last) || id in ids[..i]
        invariant forall id :: id in last ==> last[id] == if id in ids[..i] then expires else old(last)[id]
      {
        leases := leases[ids[i] := expires];
        last := last[ids[i] := expires];
        count := count + 1;
        assert ids[..i + 1] == ids[..i] + [ids[i]];
      }
      assert ids[..|ids|] == ids;
    }

    /** The lease of `id`, judged by its last renewal alone, whatever was dropped meanwhile. */
    method ActiveUntil(id: string, now: Timestamp) returns (r: Option<Timestamp>)
      requires Valid() && clock <= now
      modifies `leases, `clock
      ensures Valid() && clock == now
      ensures r == Answer(last, id, now)
      ensures leases == Prune(old(leases), id, now)
    {
      clock := now;
      if id !in leases {
        return None;
      }
      var expires := leases[id];
      if expires > now {
        return Some(expires);
      }
      leases := leases - {id};
      return None;
    }
  }

  // ---------------------------------------------------------------- how long a lease lasts

  /** The expiry of a lease in plain integers: the sum, or the nearest end of the `i64` range. */
  lemma ExpiryIs(now: Timestamp, ttl: Timestamp)
    ensures var sum := now as int + ttl as int;
            SaturatingAdd(now, ttl) as int
            == if sum > 0x7FFF_FFFF_FFFF_FFFF then 0x7FFF_FFFF_FFFF_FFFF
               else if sum < -0x8000_0000_0000_0000 then -0x8000_0000_0000_0000 else sum
  {
  }

  /** No operation of `ops` renews `id`. */
  predicate NoRenewal(ops: seq<LeaseOp>, id: string) {
    forall i :: 0 <= i < |ops| ==> !(ops[i].Renew? && ops[i].id == id)
  }

  /** The answers of a run come one behind the other. */
  lemma {:induction false} UnprunedEnd(last: Leases, ttl: Timestamp, ops: seq<LeaseOp>, id: string, t: Timestamp)
    requires NoRenewal(ops, id)
    ensures var answers := Unpruned(last, ttl, ops + [Query(id, t)]);
            answers != [] && answers[|answers| - 1] == Answer(last, id, t)
    decreases |ops|
  {
    var all := ops + [Query(id, t)];
    if ops == [] {
      assert all[1..] == [] && Unpruned(last, ttl, all[1..]) == [];
    } else {
      assert all[0] == ops[0] && all[1..] == ops[1..] + [Query(id, t)];
      match ops[0]
      case Renew(k, now) => UnprunedEnd(last[k := SaturatingAdd(now, ttl)], ttl, ops[1..], id, t);
      case Query(_, _) => UnprunedEnd(last, ttl, ops[1..], id, t);
    }
  }

  /**
   A lease lasts for the time to live: in every run with a forward clock that renews `id` at `now` and not again, a
   lookup at `t` finds it exactly while `t` lies before `now + ttl`, or before the end of the `i64` range.
   */
  lemma LeaseLasts(leases: Leases, ttl: Timestamp, id: string, now: Timestamp, between: seq<LeaseOp>, t: Timestamp,
                   clock: Timestamp)
    requires NoRenewal(between, id)
    requires ForwardQueries([Renew(id, now)] + between + [Query(id, t)], clock)
    ensures var answers := Pruned(leases, ttl, [Renew(id, now)] + between + [Query(id, t)]);
            var sum := now as int + ttl as int;
            var expiry := if sum > 0x7FFF_FFFF_FFFF_FFFF then 0x7FFF_FFFF_FFFF_FFFF
                          else if sum < -0x8000_0000_0000_0000 then -0x8000_0000_0000_0000 else sum;
            answers != [] && answers[|answers| - 1] == if t < expiry then Some(expiry) else None
  {
    var ops := [Renew(id, now)] + between + [Query(id, t)];
    LazyExpiryIsInvisible(leases, leases, ttl, ops, clock);
    assert ops[0] == Renew(id, now) && ops[1..] == between + [Query(id, t)];
    ExpiryIs(now, ttl);
    UnprunedEnd(leases[id := SaturatingAdd(now, ttl)], ttl, between, id, t);
  }

  /** A new registry keeps a renewed lease for ninety seconds, or until the end of the `i64` range. */
  method RenewThenLookUp(id: string, now: Timestamp, t: Timestamp) returns (renewed: Timestamp, found: Option<Timestamp>)
    ensures renewed as int == if now as int + 90_000 <= 0x7FFF_FFFF_FFFF_FFFF then now as int + 90_000
                              else 0x7FFF_FFFF_FFFF_FFFF
    ensures found == if t < renewed then Some(renewed) else None
  {
    var registry := new ActiveLeaseRegistry();
    renewed := registry.Renew(id, now);
    found := registry.ActiveUntil(id, t);
  }

  /** And so it does for each of many, and for no other id. */
  method RenewManyThenLookUp(ids: seq<string>, id: string, now: Timestamp, t: Timestamp)
    returns (count: nat, renewed: Timestamp, found: Option<Timestamp>)
    ensures count == |ids|
    ensures renewed as int == if now as int + 90_000 <= 0x7FFF_FFFF_FFFF_FFFF then now as int + 90_000
                              else 0x7FFF_FFFF_FFFF_FFFF
    ensures found == if id in ids && t < renewed then Some(renewed) else None
  {
    var registry := new ActiveLeaseRegistry();
    count, renewed := registry.RenewMany(ids, now);
    found := registry.ActiveUntil(id, t);
  }
}
