/**
 Runtime tokens. The service keeps live tokens in a map keyed by their hash; it behaves like
 a map from (user, conversation) to at most one grant.

 The random generator and the hash are parameters: generated tokens are new, and the hash has
 no collisions.
 */
module RuntimeToken {
  import opened Common
  import opened Text

  datatype Scope = TeamContext | TeamCall | ConversationHelper

  datatype Claims = Claims(userId: string, conversationId: string, scopes: set<Scope>, issuedAt: nat, generation: string)

  /** A token together with what it grants. */
  datatype Grant = Grant(token: string, claims: Claims)

  datatype TokenError =
    | Missing | Unknown | UserMismatch | ConversationMismatch | ScopeMissing | GenerationMismatch

  // ---------------------------------------------------------------- the simple form

  datatype Pair = Pair(userId: string, conversationId: string)

  type Grants = map<Pair, Grant>

  function PairOf(g: Grant): Pair { Pair(g.claims.userId, g.claims.conversationId) }

  /** The grant of a pair already covers a request. */
  predicate Covers(grants: Grants, p: Pair, generation: string, scopes: set<Scope>) {
    p in grants && grants[p].claims.generation == generation && scopes <= grants[p].claims.scopes
  }

  datatype Op =
    | Issue(p: Pair, generation: string, scopes: set<Scope>, token: string, now: nat)
    | DropPair(p: Pair)
    | DropConversation(conversationId: string)
    | DropGeneration(conversationId: string, generation: string)

  function Apply(grants: Grants, op: Op): Grants {
    match op
    case Issue(p, generation, scopes, token, now) =>
      if Covers(grants, p, generation, scopes) then grants
      else grants[p := Grant(token, Claims(p.userId, p.conversationId, scopes, now, generation))]
    case DropPair(p) => grants - {p}
    case DropConversation(id) => map p | p in grants && p.conversationId != id :: grants[p]
    case DropGeneration(id, generation) =>
      map p | p in grants && !(p.conversationId == id && grants[p].claims.generation == generation) :: grants[p]
  }

  /** Some live grant carries this token. */
  predicate Live(grants: Grants, token: string) {
    exists p :: p in grants && grants[p].token == token
  }

  /** What a validation must answer, decided on the simple form alone. */
  ghost predicate ValidAnswer(grants: Grants, raw: Option<string>, p: Pair, scope: Scope, generation: string,
                              r: Result<Claims, TokenError>)
  {
    if raw.None? || Trim(raw.value) == "" then r == Err(Missing)
    else if !Live(grants, Trim(raw.value)) then r == Err(Unknown)
    else
      exists q :: q in grants && grants[q].token == Trim(raw.value) &&
                  r == if q.userId != p.userId then Err(UserMismatch)
                       else if q.conversationId != p.conversationId then Err(ConversationMismatch)
                       else if scope !in grants[q].claims.scopes then Err(ScopeMissing)
                       else if grants[q].claims.generation != generation then Err(GenerationMismatch)
                       else Ok(grants[q].claims)
  }

  /** Every grant sits under its own pair, and no token serves two pairs. */
  ghost predicate WellFormed(grants: Grants) {
    && (forall p :: p in grants ==> PairOf(grants[p]) == p)
    && (forall p, q :: p in grants && q in grants && grants[p].token == grants[q].token ==> p == q)
  }

  /** A validation succeeds exactly when the grant of the named pair carries the token, the scope and the generation. */
  lemma ValidationSucceedsIff(grants: Grants, raw: Option<string>, p: Pair, scope: Scope, generation: string,
                              r: Result<Claims, TokenError>)
    requires WellFormed(grants) && ValidAnswer(grants, raw, p, scope, generation, r)
    ensures r.Ok? <==> raw.Some? && Trim(raw.value) != "" && p in grants && grants[p].token == Trim(raw.value)
                       && scope in grants[p].claims.scopes && grants[p].claims.generation == generation
    ensures r.Ok? ==> p in grants && r.value == grants[p].claims
  {
    if raw.Some? && Trim(raw.value) != "" && Live(grants, Trim(raw.value)) {
      var q :| q in grants && grants[q].token == Trim(raw.value);
    }
  }

  /** Which error a failing validation gives: the first check that the token's own grant does not pass. */
  lemma ValidationFailsAs(grants: Grants, raw: Option<string>, p: Pair, scope: Scope, generation: string,
                          r: Result<Claims, TokenError>, q: Pair)
    requires WellFormed(grants) && ValidAnswer(grants, raw, p, scope, generation, r)
    ensures r == Err(Missing) <==> raw.None? || Trim(raw.value) == ""
    ensures raw.Some? && Trim(raw.value) != "" ==>
              (r == Err(Unknown) <==> forall o :: o in grants ==> grants[o].token != Trim(raw.value))
    ensures raw.Some? && Trim(raw.value) != "" && q in grants && grants[q].token == Trim(raw.value) ==>
              && (r == Err(UserMismatch) <==> q.userId != p.userId)
              && (r == Err(ConversationMismatch) <==> q.userId == p.userId && q.conversationId != p.conversationId)
              && (r == Err(ScopeMissing) <==> q == p && scope !in grants[q].claims.scopes)
              && (r == Err(GenerationMismatch) <==>
                    q == p && scope in grants[q].claims.scopes && grants[q].claims.generation != generation)
  {
  }

  // ---------------------------------------------------------------- whole runs

  function Run(grants: Grants, ops: seq<Op>): Grants
    decreases |ops|
  {
    if ops == [] then grants else Run(Apply(grants, ops[0]), ops[1..])
  }

  /** Every token generated along `ops` is new with respect to `used` and to the ones before it. */
  ghost predicate FreshTokens(ops: seq<Op>, used: set<string>)
    decreases |ops|
  {
    ops != [] ==>
      if ops[0].Issue? then ops[0].token !in used && FreshTokens(ops[1..], used + {ops[0].token})
      else FreshTokens(ops[1..], used)
  }

  /** A token that was used once and is dead never comes back to life. */
  lemma {:induction false} RevokedStaysRevoked(grants: Grants, ops: seq<Op>, used: set<string>, token: string)
    requires FreshTokens(ops, used) && token in used && !Live(grants, token)
    ensures !Live(Run(grants, ops), token)
    decreases |ops|
  {
    if ops != [] {
      assert !Live(Apply(grants, ops[0]), token);
      RevokedStaysRevoked(Apply(grants, ops[0]), ops[1..],
                          if ops[0].Issue? then used + {ops[0].token} else used, token);
    }
  }

  /** From the start, however tokens are issued and dropped, no token ever serves two pairs. */
  lemma {:induction false} RunsAreWellFormed(grants: Grants, ops: seq<Op>, used: set<string>)
    requires WellFormed(grants) && FreshTokens(ops, used) && forall p :: p in grants ==> grants[p].token in used
    ensures WellFormed(Run(grants, ops))
    decreases |ops|
  {
    if ops != [] {
      var next := Apply(grants, ops[0]);
      RunsAreWellFormed(next, ops[1..], if ops[0].Issue? then used + {ops[0].token} else used);
    }
  }

  // ---------------------------------------------------------------- the hash-keyed form

  /** The hash-keyed map holds exactly the grants of the simple form. */
  ghost predicate Represents(hash: string -> string, tokens: map<string, Grant>, grants: Grants) {
    && (forall h :: h in tokens ==> hash(tokens[h].token) == h && PairOf(tokens[h]) in grants
                                    && grants[PairOf(tokens[h])] == tokens[h])
    && (forall p :: p in grants ==> PairOf(grants[p]) == p && hash(grants[p].token) in tokens
                                    && tokens[hash(grants[p].token)] == grants[p])
  }

  /** The grants that a hash-keyed map holds are well-formed. */
  lemma RepresentedIsWellFormed(hash: string -> string, tokens: map<string, Grant>, grants: Grants)
    requires Represents(hash, tokens, grants)
    ensures WellFormed(grants)
  {
    forall p, q | p in grants && q in grants && grants[p].token == grants[q].token ensures p == q {
      assert tokens[hash(grants[p].token)] == grants[p] && tokens[hash(grants[q].token)] == grants[q];
    }
  }

  /** A new token for a pair without entries becomes the pair's grant. */
  lemma RepresentsInsert(hash: string -> string, original: string -> string,
                         tokens: map<string, Grant>, grants: Grants, g: Grant)
    requires forall t :: original(hash(t)) == t
    requires Represents(hash, tokens, grants) && PairOf(g) !in grants
    requires forall p :: p in grants ==> grants[p].token != g.token
    ensures Represents(hash, tokens[hash(g.token) := g], grants[PairOf(g) := g])
  {
  }

  /** Dropping the entries of some pairs drops the grants of those pairs. */
  lemma RepresentsDrop(hash: string -> string, tokens: map<string, Grant>, grants: Grants,
                       tokens': map<string, Grant>, grants': Grants)
    requires Represents(hash, tokens, grants)
    requires forall p :: p in grants' ==> p in grants && grants'[p] == grants[p]
    requires forall h :: h in tokens' <==> h in tokens && PairOf(tokens[h]) in grants'
    requires forall h :: h in tokens' ==> tokens'[h] == tokens[h]
    ensures Represents(hash, tokens', grants')
  {
  }

  /** Issuing hands out the pair's old token exactly when its grant covers the request. */
  lemma IssueReusesIff(grants: Grants, p: Pair, generation: string, scopes: set<Scope>, token: string, now: nat)
    requires p in grants && grants[p].token != token
    ensures Apply(grants, Issue(p, generation, scopes, token, now))[p].token == grants[p].token
            <==> grants[p].claims.generation == generation && scopes <= grants[p].claims.scopes
    ensures forall q :: q != p && q in grants ==>
                          Apply(grants, Issue(p, generation, scopes, token, now))[q] == grants[q]
  {
  }

  /** Dropping a pair and inserting its new grant is what issuing means when the old grant falls short. */
  lemma ReplacementIsIssue(grants: Grants, p: Pair, g: Grant, now: nat)
    requires PairOf(g) == p && g.claims.issuedAt == now
    requires !Covers(grants, p, g.claims.generation, g.claims.scopes)
    ensures Apply(grants, Issue(p, g.claims.generation, g.claims.scopes, g.token, now)) == Apply(grants, DropPair(p))[p := g]
  {
  }

  /** Generated tokens are hex text: not empty and free of surrounding whitespace. */
  predicate IsTokenText(token: string) { token != "" && IsTrimmed(token) }

  lemma TokenTextIsTrimmed(token: string)
    requires IsTokenText(token)
    ensures Trim(token) == token
  {
    TrimIsTrimmed(token);
  }

  class RuntimeTokenService {
    const hash: string -> string
    /** The hash has no collisions: it can be inverted on what it was applied to. */
    ghost const original: string -> string
    var tokens: map<string, Grant>
    ghost var grants: Grants
    ghost var used: set<string>

    ghost predicate Valid()
      reads this
    {
      && (forall t :: original(hash(t)) == t)
      && Represents(hash, tokens, grants)
      && (forall p :: p in grants ==> grants[p].token in used)
      && (forall t :: t in used ==> IsTokenText(t))
    }

    constructor (hash: string -> string, ghost original: string -> string)
      requires forall t :: original(hash(t)) == t
      ensures Valid() && grants == map[] && used == {} && this.hash == hash
    {
      this.hash, this.original := hash, original;
      tokens, grants, used := map[], map[], {};
    }

    /** Scans the entries, in any order, for one that covers the request. */
    method ExistingToken(p: Pair, generation: string, scopes: set<Scope>) returns (r: Option<Grant>)
      requires Valid()
      ensures r == if Covers(grants, p, generation, scopes) then Some(grants[p]) else None
    {
      var rest := tokens.Keys;
      while rest != {}
        invariant rest <= tokens.Keys
        invariant forall h :: h in tokens.Keys - rest ==>
                                !(PairOf(tokens[h]) == p && Covers(grants, p, generation, scopes))
        decreases rest
      {
        var h :| h in rest;
        var claims := tokens[h].claims;
        if claims.userId == p.userId && claims.conversationId == p.conversationId
           && claims.generation == generation && scopes <= claims.scopes
        {
          return Some(tokens[h]);
        }
        rest := rest - {h};
      }
      return None;
    }

    /** Hands out the covering token of the pair, or replaces whatever the pair had by `generated`. */
    method IssueToken(p: Pair, generation: string, scopes: set<Scope>, generated: string, now: nat) returns (r: Grant)
      requires Valid() && generated !in used && IsTokenText(generated)
      modifies this
      ensures Valid()
      ensures grants == Apply(old(grants), Issue(p, generation, scopes, generated, now))
      ensures used == old(used) + {generated}
      ensures p in grants && r == grants[p]
      ensures Covers(grants, p, generation, scopes)
      ensures r == if p in old(grants) && old(grants)[p].claims.generation == generation
                      && scopes <= old(grants)[p].claims.scopes
                   then old(grants)[p]
                   else Grant(generated, Claims(p.userId, p.conversationId, scopes, now, generation))
      ensures forall q :: q != p ==>
                (q in grants <==> q in old(grants)) && (q in grants ==> grants[q] == old(grants)[q])
    {
      var existing := ExistingToken(p, generation, scopes);
      if existing.Some? {
        used := used + {generated};
        return existing.value;
      }
      r := Grant(generated, Claims(p.userId, p.conversationId, scopes, now, generation));
      ReplacementIsIssue(grants, p, r, now);
      InvalidateConversation(p.userId, p.conversationId);
      Insert(r);
    }

    /** What the service relies on between calls: no token of its grants serves two pairs. */
    lemma GrantsAreWellFormed()
      requires Valid()
      ensures WellFormed(grants)
    {
      RepresentedIsWellFormed(hash, tokens, grants);
    }

    method Insert(g: Grant)
      requires Valid() && PairOf(g) !in grants && g.token !in used && IsTokenText(g.token)
      modifies this
      ensures Valid() && grants == old(grants)[PairOf(g) := g] && used == old(used) + {g.token}
    {
      RepresentsInsert(hash, original, tokens, grants, g);
      tokens := tokens[hash(g.token) := g];
      grants := grants[PairOf(g) := g];
      used := used + {g.token};
    }

    method Validate(raw: Option<string>, p: Pair, scope: Scope, generation: string) returns (r: Result<Claims, TokenError>)
      requires Valid()
      ensures ValidAnswer(grants, raw, p, scope, generation, r)
    {
      if raw.None? || Trim(raw.value) == "" {
        return Err(Missing);
      }
      var token := Trim(raw.value);
      if hash(token) !in tokens {
        return Err(Unknown);
      }
      var claims := tokens[hash(token)].claims;
      assert PairOf(tokens[hash(token)]) in grants;
      if claims.userId != p.userId { return Err(UserMismatch); }
      if claims.conversationId != p.conversationId { return Err(ConversationMismatch); }
      if scope !in claims.scopes { return Err(ScopeMissing); }
      if claims.generation != generation { return Err(GenerationMismatch); }
      return Ok(claims);
    }

    method InvalidateConversation(userId: string, conversationId: string)
      requires Valid()
      modifies `tokens, `grants
      ensures Valid() && grants == Apply(old(grants), DropPair(Pair(userId, conversationId)))
      ensures forall p :: p in grants <==>
                            p in old(grants) && !(p.userId == userId && p.conversationId == conversationId)
      ensures forall p :: p in grants ==> grants[p] == old(grants)[p]
    {
      var kept := map h | h in tokens &&
                          !(tokens[h].claims.userId == userId && tokens[h].claims.conversationId == conversationId)
                    :: tokens[h];
      Retain(kept, DropPair(Pair(userId, conversationId)));
    }

    method InvalidateConversationId(conversationId: string)
      requires Valid()
      modifies `tokens, `grants
      ensures Valid() && grants == Apply(old(grants), DropConversation(conversationId))
      ensures forall p :: p in grants <==> p in old(grants) && p.conversationId != conversationId
      ensures forall p :: p in grants ==> grants[p] == old(grants)[p]
    {
      var kept := map h | h in tokens && tokens[h].claims.conversationId != conversationId :: tokens[h];
      Retain(kept, DropConversation(conversationId));
    }

    method InvalidateGeneration(conversationId: string, generation: string)
      requires Valid()
      modifies `tokens, `grants
      ensures Valid() && grants == Apply(old(grants), DropGeneration(conversationId, generation))
      ensures forall p :: p in grants <==>
                            p in old(grants) && !(p.conversationId == conversationId
                                                  && old(grants)[p].claims.generation == generation)
      ensures forall p :: p in grants ==> grants[p] == old(grants)[p]
    {
      var kept := map h | h in tokens && !(tokens[h].claims.conversationId == conversationId
                                           && tokens[h].claims.generation == generation)
                    :: tokens[h];
      Retain(kept, DropGeneration(conversationId, generation));
    }

    /** Keeps the entries that survive `op`, and moves the simple form along. */
    method Retain(kept: map<string, Grant>, ghost op: Op)
      requires Valid() && !op.Issue?
      requires forall h :: h in kept <==> h in tokens && PairOf(tokens[h]) in Apply(grants, op)
      requires forall h :: h in kept ==> kept[h] == tokens[h]
      modifies `tokens, `grants
      ensures Valid() && grants == Apply(old(grants), op)
    {
      RepresentsDrop(hash, tokens, grants, kept, Apply(grants, op));
      tokens := kept;
      grants := Apply(grants, op);
    }
  }
}
