/** Turns a vendor's skill-delivery declaration and the resolved skills into launch arguments. */
module SkillDelivery {
  import opened Common
  import opened Text
  import opened Sorting

  const VIEW_DIR := "{skill_view_dir}"
  const VIEW_SKILLS_DIR := "{skill_view_skills_dir}"
  const SKILL_DIR := "{skill_dir}"

  datatype Mode = Injected | Argv | Protocol

  datatype Delivery = Delivery(mode: Mode, args: seq<string>, allowDirArgs: seq<string>)

  datatype PlanInput = PlanInput(
    delivery: Option<Delivery>, viewDir: Option<string>, viewSkillsDir: Option<string>, skillDirs: seq<string>)

  datatype Plan = Plan(
    mode: Mode, extraArgs: seq<string>, protocolSkillsRoot: Option<string>, unknownPlaceholders: seq<string>)

  // ---------------------------------------------------------------- substitution

  function ReplaceOpt(s: string, pat: string, with: Option<string>): string
    requires pat != ""
  {
    if with.Some? then Replace(s, pat, with.value) else s
  }

  /** The source's two passes: the skills root first, then the plugin root. */
  function Substituted(arg: string, viewDir: Option<string>, viewSkillsDir: Option<string>): string {
    ReplaceOpt(ReplaceOpt(arg, VIEW_SKILLS_DIR, viewSkillsDir), VIEW_DIR, viewDir)
  }

  /** The reference: one pass that replaces two patterns of the original text at once. */
  function ReplaceBoth(s: string, a: string, withA: string, b: string, withB: string): string
    requires a != "" && b != ""
    decreases |s|
  {
    if s == "" then ""
    else if a <= s then withA + ReplaceBoth(s[|a|..], a, withA, b, withB)
    else if b <= s then withB + ReplaceBoth(s[|b|..], a, withA, b, withB)
    else [s[0]] + ReplaceBoth(s[1..], a, withA, b, withB)
  }

  /** What the placeholders of an argument mean, whatever order they are replaced in. */
  function Simultaneous(arg: string, viewDir: Option<string>, viewSkillsDir: Option<string>): string {
    match (viewSkillsDir, viewDir)
    case (Some(w2), Some(w1)) => ReplaceBoth(arg, VIEW_SKILLS_DIR, w2, VIEW_DIR, w1)
    case (Some(w2), None) => Replace(arg, VIEW_SKILLS_DIR, w2)
    case (None, Some(w1)) => Replace(arg, VIEW_DIR, w1)
    case (None, None) => arg
  }

  predicate BraceFree(s: string) { '{' !in s && '}' !in s }

  /** Braces around a text without braces. */
  predicate IsPlaceholder(p: string) {
    |p| >= 2 && p[0] == '{' && p[|p| - 1] == '}' && '{' !in p[1..] && '}' !in p[..|p| - 1]
  }

  /** Two placeholders, neither of which starts the other. */
  predicate AreDistinct(a: string, b: string) {
    IsPlaceholder(a) && IsPlaceholder(b) && !(a <= b) && !(b <= a)
  }

  lemma BracedIsPlaceholder(inner: string, p: string)
    requires BraceFree(inner) && p == "{" + inner + "}"
    ensures IsPlaceholder(p)
  {
    assert p[1..] == inner + "}" && p[..|p| - 1] == "{" + inner;
  }

  lemma DifferentAt(a: string, b: string, i: nat)
    requires i < |a| && i < |b| && a[i] != b[i]
    ensures !(a <= b) && !(b <= a)
  {
  }

  lemma ViewDirIsPlaceholder()
    ensures IsPlaceholder(VIEW_DIR)
  {
    BracedIsPlaceholder("skill_view_dir", VIEW_DIR);
  }

  lemma ViewSkillsDirIsPlaceholder()
    ensures IsPlaceholder(VIEW_SKILLS_DIR)
  {
    BracedIsPlaceholder("skill_view_skills_dir", VIEW_SKILLS_DIR);
  }

  lemma ViewPlaceholders()
    ensures AreDistinct(VIEW_SKILLS_DIR, VIEW_DIR)
  {
    ViewDirIsPlaceholder();
    ViewSkillsDirIsPlaceholder();
    DifferentAt(VIEW_SKILLS_DIR, VIEW_DIR, 12);
  }

  /** Text that cannot start a placeholder passes through a replacement. */
  lemma {:induction false} SkipPlain(w: string, x: string, pat: string, with: string)
    requires pat != "" && pat[0] == '{' && '{' !in w
    ensures Replace(w + x, pat, with) == w + Replace(x, pat, with)
  {
    if w == "" {
      assert w + x == x;
    } else {
      assert (w + x)[0] == w[0] && (w + x)[1..] == w[1..] + x;
      assert w[0] in w;
      SkipPlain(w[1..], x, pat, with);
    }
  }

  /** It passes through the simultaneous replacement, too. */
  lemma {:induction false} SkipPlainBoth(w: string, x: string, a: string, withA: string, b: string, withB: string)
    requires AreDistinct(a, b) && '{' !in w
    ensures ReplaceBoth(w + x, a, withA, b, withB) == w + ReplaceBoth(x, a, withA, b, withB)
  {
    if w == "" {
      assert w + x == x;
    } else {
      assert (w + x)[0] == w[0] && (w + x)[1..] == w[1..] + x;
      assert w[0] in w;
      SkipPlainBoth(w[1..], x, a, withA, b, withB);
    }
  }

  /** A pattern at the front is replaced. */
  lemma ReplaceFront(x: string, pat: string, with: string)
    requires pat != ""
    ensures Replace(pat + x, pat, with) == with + Replace(x, pat, with)
  {
    assert (pat + x)[..|pat|] == pat && (pat + x)[|pat|..] == x;
  }

  /** A placeholder at the front excludes another one there. */
  lemma OneFront(x: string, a: string, b: string)
    requires AreDistinct(a, b)
    ensures !(a <= b + x)
  {
    if |a| <= |b| {
      assert (b + x)[..|a|] == b[..|a|];
    } else {
      assert a[..|b|] <= a;
      assert (b + x)[..|b|] == b;
    }
  }

  /** Replacing one placeholder passes over another. */
  lemma PassOver(x: string, a: string, b: string, with: string)
    requires AreDistinct(a, b)
    ensures Replace(b + x, a, with) == b + Replace(x, a, with)
  {
    OneFront(x, a, b);
    assert (b + x)[1..] == b[1..] + x && (b + x)[0] == b[0];
    SkipPlain(b[1..], x, a, with);
    assert b == [b[0]] + b[1..];
  }

  /** A closing piece of a placeholder at the front of a replaced text was there before, unless it swallows `with`. */
  lemma {:induction false} FrontWasThere(u: string, t: string, a: string, with: string)
    requires a != "" && (u == "" || (u[|u| - 1] == '}' && '{' !in u))
    requires BraceFree(with) && !Contains(u, with)
    requires u <= Replace(t, a, with)
    ensures u <= t
    decreases |t|
  {
    if u != "" && t != "" {
      assert !OccursAt(u, with, 0);
      if !(a <= t) {
        var r := Replace(t, a, with);
        assert r == [t[0]] + Replace(t[1..], a, with);
        NoOccurrenceInTail(u, with);
        assert u[1..] <= r[1..];
        FrontWasThere(u[1..], t[1..], a, with);
      }
    }
  }

  lemma NoOccurrenceInTail(u: string, pat: string)
    requires u != "" && !Contains(u, pat)
    ensures !Contains(u[1..], pat)
  {
    forall i | 0 <= i <= |u| - 1 ensures !OccursAt(u[1..], pat, i) {
      OccursInSuffix(u, pat, 1, i);
      assert !OccursAt(u, pat, i + 1);
    }
  }

  /** A placeholder at the front of a text whose tail was replaced was at the front of the text. */
  lemma PlaceholderWasThere(s: string, a: string, with: string, b: string)
    requires s != "" && AreDistinct(a, b) && BraceFree(with) && !Contains(b, with)
    ensures b <= [s[0]] + Replace(s[1..], a, with) ==> b <= s
  {
    var r := Replace(s[1..], a, with);
    if b <= [s[0]] + r {
      assert b[1..] <= ([s[0]] + r)[1..] == r;
      NoOccurrenceInTail(b, with);
      FrontWasThere(b[1..], s[1..], a, with);
      assert s == [s[0]] + s[1..] && b == [b[0]] + b[1..];
    }
  }

  /** Two passes are one when the first replacement is no piece of the second placeholder. */
  lemma {:induction false} TwoPassesAreOne(s: string, a: string, withA: string, b: string, withB: string)
    requires AreDistinct(a, b) && BraceFree(withA) && !Contains(b, withA)
    ensures Replace(Replace(s, a, withA), b, withB) == ReplaceBoth(s, a, withA, b, withB)
    decreases |s|
  {
    if s == "" {
    } else if a <= s {
      var rest := s[|a|..];
      assert s == a + rest;
      ReplaceFront(rest, a, withA);
      SkipPlain(withA, Replace(rest, a, withA), b, withB);
      TwoPassesAreOne(rest, a, withA, b, withB);
    } else if b <= s {
      var rest := s[|b|..];
      assert s == b + rest;
      PassOver(rest, a, b, withA);
      ReplaceFront(Replace(rest, a, withA), b, withB);
      TwoPassesAreOne(rest, a, withA, b, withB);
    } else {
      var r := Replace(s[1..], a, withA);
      assert Replace(s, a, withA) == [s[0]] + r;
      PlaceholderWasThere(s, a, withA, b);
      assert ([s[0]] + r)[1..] == r;
      TwoPassesAreOne(s[1..], a, withA, b, withB);
    }
  }

  /** Replacing a pattern by itself changes nothing. */
  lemma {:induction false} ReplaceBySelf(s: string, pat: string)
    requires pat != ""
    ensures Replace(s, pat, pat) == s
    decreases |s|
  {
    if pat <= s {
      ReplaceBySelf(s[|pat|..], pat);
    } else if s != "" {
      ReplaceBySelf(s[1..], pat);
    }
  }

  lemma {:induction false} BothBySelf(s: string, a: string, withA: string, b: string)
    requires AreDistinct(a, b)
    ensures Replace(s, a, withA) == ReplaceBoth(s, a, withA, b, b)
    decreases |s|
  {
    if s == "" {
    } else if a <= s {
      BothBySelf(s[|a|..], a, withA, b);
    } else if b <= s {
      var rest := s[|b|..];
      assert s == b + rest;
      PassOver(rest, a, b, withA);
      BothBySelf(rest, a, withA, b);
    } else {
      BothBySelf(s[1..], a, withA, b);
    }
  }

  /** An argument that tells both forms apart: `a` in place of the piece `k..m` of `b`. */
  function Witness(a: string, b: string, k: nat, m: nat): string
    requires k <= m <= |b|
  {
    b[..k] + (a + b[m..])
  }

  /** A text with a second opening brace at `k` does not start with a placeholder longer than `k`. */
  lemma SecondBrace(x: string, k: nat, pat: string)
    requires IsPlaceholder(pat) && 0 < k < |x| && x[k] == '{' && k < |pat|
    ensures !(pat <= x)
  {
    assert pat[1..][k - 1] == pat[k];
  }

  /** The witness starts with neither placeholder. */
  lemma WitnessFront(a: string, b: string, k: nat, m: nat)
    requires AreDistinct(a, b) && 0 < k <= m <= |b| && k < |b|
    ensures !(a <= Witness(a, b, k, m)) && !(b <= Witness(a, b, k, m))
  {
    var x := Witness(a, b, k, m);
    assert x[k] == a[0] == '{';
    SecondBrace(x, k, b);
    if k < |a| {
      SecondBrace(x, k, a);
    } else {
      assert x[..|a|] == b[..|a|];
    }
  }

  /** A text without opening braces holds no placeholder. */
  lemma PlainIsKept(w: string, a: string, withA: string, b: string, withB: string)
    requires AreDistinct(a, b) && '{' !in w
    ensures Replace(w, a, withA) == w && ReplaceBoth(w, a, withA, b, withB) == w
  {
    assert w + "" == w;
    SkipPlain(w, "", a, withA);
    SkipPlainBoth(w, "", a, withA, b, withB);
  }

  /** Behind the witness's first piece, both forms put the replacement and the last piece. */
  lemma WitnessTail(a: string, withA: string, b: string, withB: string, rest: string)
    requires AreDistinct(a, b) && '{' !in rest
    ensures Replace(a + rest, a, withA) == withA + rest
    ensures ReplaceBoth(a + rest, a, withA, b, withB) == withA + rest
  {
    PlainIsKept(rest, a, withA, b, withB);
    ReplaceFront(rest, a, withA);
    assert (a + rest)[|a|..] == rest && a <= a + rest;
  }

  /** Both forms copy the witness up to its placeholder, and the rest behind it. */
  lemma WitnessValues(a: string, withA: string, b: string, withB: string, k: nat, m: nat)
    requires AreDistinct(a, b) && 0 < k <= m <= |b| && k < |b|
    ensures Replace(Witness(a, b, k, m), a, withA) == b[..k] + (withA + b[m..])
    ensures ReplaceBoth(Witness(a, b, k, m), a, withA, b, withB) == b[..k] + (withA + b[m..])
  {
    var x, inner, rest := Witness(a, b, k, m), b[1..k], b[m..];
    WitnessFront(a, b, k, m);
    assert x[1..] == inner + (a + rest) && x[0] == b[0] && b[..k] == [b[0]] + inner;
    assert inner == b[1..][..k - 1] && rest == b[1..][m - 1..];
    SkipPlain(inner, a + rest, a, withA);
    SkipPlainBoth(inner, a + rest, a, withA, b, withB);
    WitnessTail(a, withA, b, withB, rest);
    assert [b[0]] + (inner + (withA + rest)) == b[..k] + (withA + rest);
  }

  /** A replacement that is a piece of the second placeholder completes it in the witness. */
  lemma WitnessDiffers(a: string, withA: string, b: string, withB: string, k: nat)
    requires AreDistinct(a, b) && 0 < k < |b| && OccursAt(b, withA, k)
    ensures var x := Witness(a, b, k, k + |withA|);
            && Replace(Replace(x, a, withA), b, withB) == withB
            && ReplaceBoth(x, a, withA, b, withB) == b
  {
    WitnessValues(a, withA, b, withB, k, k + |withA|);
    assert b[..k] + (withA + b[k + |withA|..]) == b;
    assert b + "" == b;
    ReplaceFront("", b, withB);
  }

  /** A piece of a placeholder without braces lies strictly inside it. */
  lemma InnerOccurrence(b: string, w: string) returns (k: nat)
    requires IsPlaceholder(b) && BraceFree(w) && Contains(b, w)
    ensures 0 < k < |b| && OccursAt(b, w, k)
  {
    if w == "" {
      k := 1;
    } else {
      k :| 0 <= k <= |b| && OccursAt(b, w, k);
      assert w[0] == b[k] && w[0] in w;
    }
  }

  /**
   For a skills root without braces, the two passes amount to one simultaneous substitution of
   every argument, exactly when the root is no piece of the plugin-root placeholder (or that
   placeholder stands for itself).
   */
  lemma SubstitutionIsSimultaneousIff(w1: string, w2: string)
    requires BraceFree(w2)
    ensures (forall s :: Substituted(s, Some(w1), Some(w2)) == Simultaneous(s, Some(w1), Some(w2)))
            <==> (!Contains(VIEW_DIR, w2) || w1 == VIEW_DIR)
  {
    ViewPlaceholders();
    if !Contains(VIEW_DIR, w2) {
      forall s ensures Substituted(s, Some(w1), Some(w2)) == Simultaneous(s, Some(w1), Some(w2)) {
        TwoPassesAreOne(s, VIEW_SKILLS_DIR, w2, VIEW_DIR, w1);
      }
    } else if w1 == VIEW_DIR {
      forall s ensures Substituted(s, Some(w1), Some(w2)) == Simultaneous(s, Some(w1), Some(w2)) {
        ReplaceBySelf(Replace(s, VIEW_SKILLS_DIR, w2), VIEW_DIR);
        BothBySelf(s, VIEW_SKILLS_DIR, w2, VIEW_DIR);
      }
    } else {
      var k := InnerOccurrence(VIEW_DIR, w2);
      var s := Witness(VIEW_SKILLS_DIR, VIEW_DIR, k, k + |w2|);
      WitnessDiffers(VIEW_SKILLS_DIR, w2, VIEW_DIR, w1, k);
      assert Substituted(s, Some(w1), Some(w2)) != Simultaneous(s, Some(w1), Some(w2));
    }
  }

  /** An absolute path is no piece of the placeholder: no slash occurs in it. */
  lemma PathsSubstituteAtOnce(arg: string, viewDir: Option<string>, viewSkillsDir: Option<string>)
    requires viewSkillsDir.Some? ==> BraceFree(viewSkillsDir.value) && '/' in viewSkillsDir.value
    ensures Substituted(arg, viewDir, viewSkillsDir) == Simultaneous(arg, viewDir, viewSkillsDir)
  {
    if viewDir.Some? && viewSkillsDir.Some? {
      assert '/' !in VIEW_DIR;
      assert !Contains(VIEW_DIR, viewSkillsDir.value);
      ViewPlaceholders();
      TwoPassesAreOne(arg, VIEW_SKILLS_DIR, viewSkillsDir.value, VIEW_DIR, viewDir.value);
    }
  }

  // ---------------------------------------------------------------- the plan

  /** A leftover that still looks like a placeholder. */
  predicate LooksUnknown(s: string) { s != "" && s[0] == '{' && s[|s| - 1] == '}' }

  /** Substitutes one argument and notes it when it still looks like a placeholder. */
  method SubstituteScalar(arg: string, viewDir: Option<string>, viewSkillsDir: Option<string>, unknown: seq<string>)
    returns (out: string, noted: seq<string>)
    ensures out == Substituted(arg, viewDir, viewSkillsDir)
    ensures noted == unknown + Unknowns([out])
  {
    out := arg;
    if viewSkillsDir.Some? {
      out := Replace(out, VIEW_SKILLS_DIR, viewSkillsDir.value);
    }
    if viewDir.Some? {
      out := Replace(out, VIEW_DIR, viewDir.value);
    }
    noted := unknown;
    if LooksUnknown(out) {
      noted := noted + [out];
    }
  }

  function Unknowns(outs: seq<string>): seq<string> {
    if outs == [] then []
    else
      var last := outs[|outs| - 1];
      Unknowns(outs[..|outs| - 1]) + (if LooksUnknown(last) then [last] else [])
  }

  lemma {:induction false} UnknownsIff(outs: seq<string>, x: string)
    ensures x in Unknowns(outs) <==> x in outs && LooksUnknown(x)
  {
    if outs != [] {
      UnknownsIff(outs[..|outs| - 1], x);
      assert outs == outs[..|outs| - 1] + [outs[|outs| - 1]];
    }
  }

  lemma UnknownsStep(outs: seq<string>, out: string)
    ensures Unknowns(outs + [out]) == Unknowns(outs) + Unknowns([out])
  {
    assert (outs + [out])[..|outs|] == outs && [out][..0] == [];
  }

  /** The launch arguments of argv mode; none without a view. */
  function ArgvArgs(d: Delivery, i: PlanInput): seq<string> {
    if d.mode == Argv && (i.viewDir.Some? || i.viewSkillsDir.Some?)
    then seq(|d.args|, k requires 0 <= k < |d.args| => Substituted(d.args[k], i.viewDir, i.viewSkillsDir))
    else []
  }

  /** One allow-list argument for one skill: the skill's own directory, or a scalar. */
  function Allowed(arg: string, skill: string, i: PlanInput): string {
    if Contains(arg, SKILL_DIR) then Replace(arg, SKILL_DIR, skill) else Substituted(arg, i.viewDir, i.viewSkillsDir)
  }

  function AllowedFor(args: seq<string>, skill: string, i: PlanInput): seq<string> {
    seq(|args|, k requires 0 <= k < |args| => Allowed(args[k], skill, i))
  }

  /** The allow-list arguments, all of them once per skill, in skill order. */
  function AllowArgs(d: Delivery, i: PlanInput, skills: seq<string>): seq<string> {
    if skills == [] then []
    else AllowArgs(d, i, skills[..|skills| - 1]) + AllowedFor(d.allowDirArgs, skills[|skills| - 1], i)
  }

  /** The scalars among the allow-list arguments. */
  function Scalars(args: seq<string>, i: PlanInput): seq<string> {
    if args == [] then []
    else
      var last := args[|args| - 1];
      Scalars(args[..|args| - 1], i)
      + (if Contains(last, SKILL_DIR) then [] else [Substituted(last, i.viewDir, i.viewSkillsDir)])
  }

  function DeliveryOf(i: PlanInput): Delivery {
    if i.delivery.Some? then i.delivery.value else Delivery(Injected, [], [])
  }

  /** The placeholders to report: scalar results that still look like one. */
  predicate ReportsUnknown(i: PlanInput, x: string) {
    var d := DeliveryOf(i);
    i.skillDirs != [] && LooksUnknown(x) && (x in ArgvArgs(d, i) || x in Scalars(d.allowDirArgs, i))
  }

  method PlanSkillDelivery(i: PlanInput) returns (p: Plan)
    ensures p.mode == DeliveryOf(i).mode
    ensures p.extraArgs == if i.skillDirs == [] then []
                           else ArgvArgs(DeliveryOf(i), i) + AllowArgs(DeliveryOf(i), i, i.skillDirs)
    ensures p.protocolSkillsRoot == if i.skillDirs != [] && p.mode == Protocol then i.viewSkillsDir else None
    ensures IsStrictlySorted(p.unknownPlaceholders)
    ensures forall x :: x in p.unknownPlaceholders <==> ReportsUnknown(i, x)
  {
    var d := DeliveryOf(i);
    if i.skillDirs == [] {
      return Plan(d.mode, [], None, []);
    }
    var extra, unknown := ArgvLoop(d, i);
    var more, noted := AllowLoop(d, i);
    unknown := unknown + noted;
    forall x ensures x in unknown <==> ReportsUnknown(i, x) {
      UnknownsIff(ArgvArgs(d, i), x);
    }
    SortDedup(unknown);
    p := Plan(d.mode, extra + more, if d.mode == Protocol then i.viewSkillsDir else None, Dedup(Sort(unknown)));
  }

  /** The first loop: argv-mode arguments, skipped without a view. */
  method ArgvLoop(d: Delivery, i: PlanInput) returns (extra: seq<string>, unknown: seq<string>)
    ensures extra == ArgvArgs(d, i) && unknown == Unknowns(extra)
  {
    extra, unknown := [], [];
    if d.mode == Argv && (i.viewDir.Some? || i.viewSkillsDir.Some?) {
      for k := 0 to |d.args|
        invariant extra == ArgvArgs(d, i)[..k] && unknown == Unknowns(extra)
      {
        var out;
        out, unknown := SubstituteScalar(d.args[k], i.viewDir, i.viewSkillsDir, unknown);
        UnknownsStep(extra, out);
        extra := extra + [out];
      }
    }
  }

  /** The second loop: the allow-list, once per skill. */
  method AllowLoop(d: Delivery, i: PlanInput) returns (extra: seq<string>, unknown: seq<string>)
    requires i.skillDirs != []
    ensures extra == AllowArgs(d, i, i.skillDirs)
    ensures forall x :: x in unknown <==> LooksUnknown(x) && x in Scalars(d.allowDirArgs, i)
  {
    extra, unknown := [], [];
    if d.allowDirArgs == [] {
      NothingAllowed(d, i, i.skillDirs);
      return;
    }
    ghost var leftovers := Unknowns(Scalars(d.allowDirArgs, i));
    for j := 0 to |i.skillDirs|
      invariant extra == AllowArgs(d, i, i.skillDirs[..j])
      invariant forall x :: x in unknown <==> j > 0 && x in leftovers
    {
      assert i.skillDirs[..j + 1][..j] == i.skillDirs[..j];
      var more, noted := AllowForSkill(d.allowDirArgs, i.skillDirs[j], i);
      extra, unknown := extra + more, unknown + noted;
    }
    assert i.skillDirs[..|i.skillDirs|] == i.skillDirs;
    forall x ensures x in leftovers <==> LooksUnknown(x) && x in Scalars(d.allowDirArgs, i) {
      UnknownsIff(Scalars(d.allowDirArgs, i), x);
    }
  }

  /** The inner loop: one skill's allow-list arguments, and the leftovers among its scalars. */
  method AllowForSkill(args: seq<string>, skill: string, i: PlanInput) returns (extra: seq<string>, unknown: seq<string>)
    ensures extra == AllowedFor(args, skill, i) && unknown == Unknowns(Scalars(args, i))
  {
    extra, unknown := [], [];
    for k := 0 to |args|
      invariant extra == AllowedFor(args[..k], skill, i) && unknown == Unknowns(Scalars(args[..k], i))
    {
      var out;
      ghost var before := Scalars(args[..k], i);
      out, unknown := AllowOne(args[k], skill, i, before, unknown);
      ScalarsStep(args, k, i);
      AllowedStep(args, k, skill, i);
      extra := extra + [out];
    }
    assert args[..|args|] == args;
  }

  /** One argument for one skill; `before` are the scalars met so far. */
  method AllowOne(arg: string, skill: string, i: PlanInput, ghost before: seq<string>, unknown: seq<string>)
    returns (out: string, noted: seq<string>)
    requires unknown == Unknowns(before)
    ensures out == Allowed(arg, skill, i)
    ensures noted == Unknowns(if Contains(arg, SKILL_DIR) then before
                              else before + [Substituted(arg, i.viewDir, i.viewSkillsDir)])
  {
    if Contains(arg, SKILL_DIR) {
      return Replace(arg, SKILL_DIR, skill), unknown;
    }
    out, noted := SubstituteScalar(arg, i.viewDir, i.viewSkillsDir, unknown);
    UnknownsStep(before, out);
  }

  lemma AllowedStep(args: seq<string>, k: nat, skill: string, i: PlanInput)
    requires k < |args|
    ensures AllowedFor(args[..k + 1], skill, i) == AllowedFor(args[..k], skill, i) + [Allowed(args[k], skill, i)]
  {
  }

  lemma ScalarsStep(args: seq<string>, k: nat, i: PlanInput)
    requires k < |args|
    ensures Scalars(args[..k + 1], i)
            == if Contains(args[k], SKILL_DIR) then Scalars(args[..k], i)
               else Scalars(args[..k], i) + [Substituted(args[k], i.viewDir, i.viewSkillsDir)]
  {
    assert args[..k + 1][..k] == args[..k];
  }

  lemma {:induction false} NothingAllowed(d: Delivery, i: PlanInput, skills: seq<string>)
    requires d.allowDirArgs == []
    ensures AllowArgs(d, i, skills) == [] && Scalars(d.allowDirArgs, i) == []
  {
    if skills != [] { NothingAllowed(d, i, skills[..|skills| - 1]); }
  }

  /** Every skill gets the whole allow-list, right behind the lists of the skills before it. */
  lemma {:induction false} AllowArgsPerSkill(d: Delivery, i: PlanInput, skills: seq<string>, j: nat)
    requires j < |skills|
    ensures AllowArgs(d, i, skills[..j]) + AllowedFor(d.allowDirArgs, skills[j], i) <= AllowArgs(d, i, skills)
    ensures |AllowArgs(d, i, skills)| == |skills| * |d.allowDirArgs|
  {
    var front := skills[..|skills| - 1];
    assert |skills| * |d.allowDirArgs| == |front| * |d.allowDirArgs| + |d.allowDirArgs|;
    if j < |front| {
      AllowArgsPerSkill(d, i, front, j);
      assert front[..j] == skills[..j];
    } else if front != [] {
      AllowArgsPerSkill(d, i, front, 0);
    }
  }

  // ---------------------------------------------------------------- what the plan says

  /** A placeholder between texts without braces is replaced, and nothing else is. */
  lemma ReplaceBetween(w: string, x: string, pat: string, with: string)
    requires IsPlaceholder(pat) && '{' !in w && '{' !in x
    ensures Replace(w + pat + x, pat, with) == w + with + x
  {
    assert w + pat + x == w + (pat + x);
    SkipPlain(w, pat + x, pat, with);
    ReplaceFront(x, pat, with);
    assert x + "" == x;
    SkipPlain(x, "", pat, with);
    assert w + (with + x) == w + with + x;
  }

  lemma PassOverBetween(w: string, x: string, a: string, b: string, with: string)
    requires AreDistinct(a, b) && '{' !in w && '{' !in x
    ensures Replace(w + b + x, a, with) == w + b + x
  {
    assert w + b + x == w + (b + x);
    SkipPlain(w, b + x, a, with);
    PassOver(x, a, b, with);
    assert x + "" == x;
    SkipPlain(x, "", a, with);
  }

  lemma PlainKept(w: string, pat: string, with: string)
    requires IsPlaceholder(pat) && '{' !in w
    ensures Replace(w, pat, with) == w
  {
    assert w + "" == w;
    SkipPlain(w, "", pat, with);
  }

  /** The plugin root stands for its own placeholder and for no other; unknown, it leaves the placeholder as it is. */
  lemma ViewDirReads(w: string, x: string, root: string, other: Option<string>)
    requires '{' !in w && '{' !in x
    ensures Substituted(w + "{skill_view_dir}" + x, Some(root), other) == w + root + x
    ensures Substituted(w + "{skill_view_dir}" + x, None, other) == w + "{skill_view_dir}" + x
  {
    ViewPlaceholders();
    if other.Some? { PassOverBetween(w, x, VIEW_SKILLS_DIR, VIEW_DIR, other.value); }
    ReplaceBetween(w, x, VIEW_DIR, root);
  }

  /** So does the skills root. */
  lemma ViewSkillsDirReads(w: string, x: string, root: string, other: Option<string>)
    requires '{' !in w && '{' !in x
    ensures '{' !in root ==> Substituted(w + "{skill_view_skills_dir}" + x, other, Some(root)) == w + root + x
    ensures Substituted(w + "{skill_view_skills_dir}" + x, other, None) == w + "{skill_view_skills_dir}" + x
  {
    ViewPlaceholders();
    ReplaceBetween(w, x, VIEW_SKILLS_DIR, root);
    if other.Some? {
      PassOverBetween(w, x, VIEW_DIR, VIEW_SKILLS_DIR, other.value);
      if '{' !in root { PlainKept(w + root + x, VIEW_DIR, other.value); }
    }
  }

  /** An allow-list argument names the skill's own directory, or is the same for every skill. */
  lemma AllowedReads(w: string, x: string, arg: string, skill: string, i: PlanInput)
    ensures '{' !in w && '{' !in x ==> Allowed(w + "{skill_dir}" + x, skill, i) == w + skill + x
    ensures !Contains(arg, "{skill_dir}") ==> Allowed(arg, skill, i) == Substituted(arg, i.viewDir, i.viewSkillsDir)
  {
    if '{' !in w && '{' !in x {
      BracedIsPlaceholder("skill_dir", SKILL_DIR);
      ReplaceBetween(w, x, SKILL_DIR, skill);
      FoundBetween(w, x, SKILL_DIR);
    }
  }

  lemma FoundBetween(w: string, x: string, pat: string)
    ensures Contains(w + pat + x, pat)
  {
    assert (w + pat + x)[|w|..|w| + |pat|] == pat;
    assert OccursAt(w + pat + x, pat, |w|);
  }

  /** Without a declaration nothing is passed on the command line; with one, it decides. */
  lemma DeclarationReads(i: PlanInput)
    ensures i.delivery.Some? ==> DeliveryOf(i) == i.delivery.value
    ensures i.delivery.None?
            ==> DeliveryOf(i).mode == Injected && ArgvArgs(DeliveryOf(i), i) == []
                && AllowArgs(DeliveryOf(i), i, i.skillDirs) == []
  {
    NothingAllowed(Delivery(Injected, [], []), i, i.skillDirs);
  }

  /** The declared arguments, one by one, in argv mode and if some root is known; none of them otherwise. */
  lemma ArgvArgsRead(d: Delivery, i: PlanInput)
    ensures d.mode == Argv && (i.viewDir, i.viewSkillsDir) != (None, None)
            ==> |ArgvArgs(d, i)| == |d.args|
                && forall k :: 0 <= k < |d.args| ==> ArgvArgs(d, i)[k] == Substituted(d.args[k], i.viewDir, i.viewSkillsDir)
    ensures d.mode != Argv || (i.viewDir, i.viewSkillsDir) == (None, None) ==> ArgvArgs(d, i) == []
  {
  }

  /** The `k`-th allow-list argument for the `j`-th skill. */
  lemma AllowArgsRead(d: Delivery, i: PlanInput, skills: seq<string>, j: nat, k: nat)
    requires j < |skills| && k < |d.allowDirArgs|
    ensures j * |d.allowDirArgs| + k < |AllowArgs(d, i, skills)|
    ensures AllowArgs(d, i, skills)[j * |d.allowDirArgs| + k] == Allowed(d.allowDirArgs[k], skills[j], i)
  {
    var all, mine := AllowArgs(d, i, skills), AllowedFor(d.allowDirArgs, skills[j], i);
    AllowArgsPerSkill(d, i, skills, j);
    var front := AllowArgs(d, i, skills[..j]);
    assert |front| == j * |d.allowDirArgs| by {
      if j > 0 { AllowArgsPerSkill(d, i, skills[..j], 0); }
    }
    assert all[..|front + mine|] == front + mine;
    assert (front + mine)[|front| + k] == mine[k];
  }

  lemma {:induction false} ScalarsIff(args: seq<string>, i: PlanInput, x: string)
    ensures x in Scalars(args, i)
            <==> exists k :: 0 <= k < |args| && !Contains(args[k], "{skill_dir}")
                             && x == Substituted(args[k], i.viewDir, i.viewSkillsDir)
  {
    if args != [] { ScalarsIff(args[..|args| - 1], i, x); }
  }

  /**
   What is reported: with skills, each substituted argument that still begins and ends with a brace, of the argv
   arguments and of the allow-list arguments that name no skill directory.
   */
  lemma ReportedIff(i: PlanInput, d: Delivery, x: string)
    requires i.delivery == Some(d)
    ensures ReportsUnknown(i, x)
            <==> i.skillDirs != [] && "{" <= x && x[|x| - 1] == '}'
                 && ((d.mode == Argv && (i.viewDir, i.viewSkillsDir) != (None, None)
                      && exists k :: 0 <= k < |d.args| && x == Substituted(d.args[k], i.viewDir, i.viewSkillsDir))
                     || exists k :: 0 <= k < |d.allowDirArgs| && !Contains(d.allowDirArgs[k], "{skill_dir}")
                                    && x == Substituted(d.allowDirArgs[k], i.viewDir, i.viewSkillsDir))
  {
    ScalarsIff(d.allowDirArgs, i, x);
    ArgvArgsRead(d, i);
  }
}
