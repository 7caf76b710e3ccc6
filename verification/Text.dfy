/** The string operations of the source's standard library, on sequences of characters. */
module Text {
  import opened Common

  /** Unicode White_Space, as `char::is_whitespace` tests it. */
  predicate IsWhitespace(c: char) {
    var n := c as int;
    || 0x9 <= n <= 0xD || n == 0x20 || n == 0x85 || n == 0xA0 || n == 0x1680
    || 0x2000 <= n <= 0x200A || n == 0x2028 || n == 0x2029 || n == 0x202F || n == 0x205F || n == 0x3000
  }

  function TrimStart(s: string): string {
    if s != [] && IsWhitespace(s[0]) then TrimStart(s[1..]) else s
  }

  function TrimEnd(s: string): string {
    if s != [] && IsWhitespace(s[|s| - 1]) then TrimEnd(s[..|s| - 1]) else s
  }

  /** `str::trim` */
  function Trim(s: string): string { TrimEnd(TrimStart(s)) }

  /** No whitespace at either end. */
  predicate IsTrimmed(s: string) {
    s == [] || (!IsWhitespace(s[0]) && !IsWhitespace(s[|s| - 1]))
  }

  lemma TrimIsTrimmed(s: string)
    ensures IsTrimmed(Trim(s))
    ensures IsTrimmed(s) <==> Trim(s) == s
  {
    TrimStartShape(s);
    TrimEndShape(TrimStart(s));
  }

  lemma {:induction false} TrimStartShape(s: string)
    ensures TrimStart(s) == [] || !IsWhitespace(TrimStart(s)[0])
    ensures |TrimStart(s)| <= |s|
    ensures s != [] && IsWhitespace(s[0]) ==> |TrimStart(s)| < |s|
  {
    if s != [] && IsWhitespace(s[0]) { TrimStartShape(s[1..]); }
  }

  lemma {:induction false} TrimEndShape(s: string)
    ensures TrimEnd(s) == [] || !IsWhitespace(TrimEnd(s)[|TrimEnd(s)| - 1])
    ensures TrimEnd(s) <= s
    ensures s != [] && IsWhitespace(s[|s| - 1]) ==> |TrimEnd(s)| < |s|
  {
    if s != [] && IsWhitespace(s[|s| - 1]) { TrimEndShape(s[..|s| - 1]); }
  }

  // ---------------------------------------------------------------- substrings

  /** `pat` stands at position `i` of `s`. */
  predicate OccursAt(s: string, pat: string, i: nat) {
    i + |pat| <= |s| && s[i..i + |pat|] == pat
  }

  predicate Contains(s: string, pat: string) {
    exists i :: 0 <= i <= |s| && OccursAt(s, pat, i)
  }

  /** An occurrence, character by character. */
  lemma OccursPointwise(s: string, pat: string, i: nat)
    ensures OccursAt(s, pat, i) <==> i + |pat| <= |s| && forall k :: 0 <= k < |pat| ==> s[i + k] == pat[k]
  {
    if i + |pat| <= |s| {
      var window := s[i..i + |pat|];
      assert forall k :: 0 <= k < |pat| ==> window[k] == s[i + k];
    }
  }

  /** Occurrences in a suffix are the later occurrences in the whole. */
  lemma OccursInSuffix(s: string, pat: string, n: nat, j: nat)
    requires n <= |s|
    ensures OccursAt(s[n..], pat, j) <==> OccursAt(s, pat, n + j)
  {
    if n + j + |pat| <= |s| {
      assert s[n..][j..j + |pat|] == s[n + j..n + j + |pat|];
    }
  }

  /** The last occurrence of `pat` at or before `i`. */
  function LastOccurrence(s: string, pat: string, i: nat): (r: Option<nat>)
    ensures r.Some? ==> r.value <= i && OccursAt(s, pat, r.value)
    ensures forall j :: 0 <= j <= i && OccursAt(s, pat, j) ==> r.Some? && j <= r.value
  {
    if OccursAt(s, pat, i) then Some(i) else if i == 0 then None else LastOccurrence(s, pat, i - 1)
  }

  /** `str::rsplit_once` */
  function RSplitOnce(s: string, pat: string): Option<(string, string)> {
    match LastOccurrence(s, pat, |s|)
    case None => None
    case Some(i) => Some((s[..i], s[i + |pat|..]))
  }

  /** `strip_suffix(..).unwrap_or(..)` */
  function StripSuffix(s: string, suffix: string): string {
    if |suffix| <= |s| && s[|s| - |suffix|..] == suffix then s[..|s| - |suffix|] else s
  }

  // ---------------------------------------------------------------- lines

  function FirstNewline(s: string): (r: Option<nat>)
    ensures r.Some? ==> r.value < |s| && s[r.value] == '\n' && '\n' !in s[..r.value]
    ensures r.None? ==> '\n' !in s
  {
    if s == [] then None
    else if s[0] == '\n' then Some(0)
    else
      match FirstNewline(s[1..])
      case None => None
      case Some(i) => assert s[..i + 1] == [s[0]] + s[1..][..i]; Some(i + 1)
  }

  /** `str::lines`: a line feed ends a line, together with a carriage return right before it. */
  function Lines(s: string): seq<string>
    decreases |s|
  {
    if s == [] then []
    else
      match FirstNewline(s)
      case None => [s]
      case Some(i) => [StripSuffix(s[..i], "\r")] + Lines(s[i + 1..])
  }

  /** The trimmed lines that are not blank. */
  function TrimmedLines(lines: seq<string>): seq<string> {
    if lines == [] then []
    else (if Trim(lines[0]) == "" then [] else [Trim(lines[0])]) + TrimmedLines(lines[1..])
  }

  /** `join("\n")` */
  function JoinLines(lines: seq<string>): string {
    if lines == [] then ""
    else if |lines| == 1 then lines[0]
    else lines[0] + "\n" + JoinLines(lines[1..])
  }

  /** A line that survives being printed and read back: not blank, no surrounding whitespace, no line feed. */
  predicate IsPlainLine(s: string) { s != "" && IsTrimmed(s) && '\n' !in s }

  lemma FirstNewlineAt(s: string, i: nat)
    requires i < |s| && s[i] == '\n' && '\n' !in s[..i]
    ensures FirstNewline(s) == Some(i)
  {
    var r := FirstNewline(s);
    assert r.Some?;
    assert forall k :: 0 <= k < i ==> s[..i][k] == s[k];
    assert forall k :: 0 <= k < r.value ==> s[..r.value][k] == s[k];
  }

  /** The first of several printed lines is read back as it was. */
  lemma LinesOfFirst(line: string, rest: string)
    requires IsPlainLine(line)
    ensures Lines(line + "\n" + rest) == [line] + Lines(rest)
  {
    var s, n := line + "\n" + rest, |line|;
    assert s[..n] == line && s[n] == '\n' && s[n + 1..] == rest;
    FirstNewlineAt(s, n);
    assert StripSuffix(line, "\r") == line by {
      assert line[n - 1..] == [line[n - 1]];
      assert !IsWhitespace(line[n - 1]);
    }
  }

  lemma TrimmedFirst(line: string, rest: seq<string>)
    requires IsPlainLine(line)
    ensures TrimmedLines([line] + rest) == [line] + TrimmedLines(rest)
  {
    TrimIsTrimmed(line);
    assert ([line] + rest)[1..] == rest;
  }

  /** Plain lines can be read back from their print. */
  lemma {:induction false} LinesOfJoin(lines: seq<string>)
    requires forall i :: 0 <= i < |lines| ==> IsPlainLine(lines[i])
    ensures TrimmedLines(Lines(JoinLines(lines))) == lines
  {
    if |lines| == 1 {
      assert Lines(lines[0]) == [lines[0]];
      TrimmedFirst(lines[0], []);
    } else if |lines| > 1 {
      LinesOfFirst(lines[0], JoinLines(lines[1..]));
      LinesOfJoin(lines[1..]);
      TrimmedFirst(lines[0], Lines(JoinLines(lines[1..])));
      assert lines == [lines[0]] + lines[1..];
    }
  }

  /** Whatever is read back as trimmed lines is a list of plain lines. */
  lemma {:induction false} TrimmedLinesArePlain(lines: seq<string>, i: nat)
    requires i < |TrimmedLines(lines)|
    requires forall j :: 0 <= j < |lines| ==> '\n' !in lines[j]
    ensures IsPlainLine(TrimmedLines(lines)[i])
  {
    TrimIsTrimmed(lines[0]);
    TrimKeepsCharacters(lines[0]);
    if Trim(lines[0]) == "" {
      TrimmedLinesArePlain(lines[1..], i);
    } else if i > 0 {
      TrimmedLinesArePlain(lines[1..], i - 1);
    }
  }

  lemma {:induction false} LinesHaveNoNewline(s: string, i: nat)
    requires i < |Lines(s)|
    ensures '\n' !in Lines(s)[i]
    decreases |s|
  {
    var r := FirstNewline(s);
    if r.Some? {
      assert StripSuffix(s[..r.value], "\r") <= s[..r.value];
      if i > 0 { LinesHaveNoNewline(s[r.value + 1..], i - 1); }
    }
  }

  lemma TrimKeepsCharacters(s: string)
    ensures forall c :: c in Trim(s) ==> c in s
  {
    TrimEndShape(TrimStart(s));
    TrimStartKeeps(s);
  }

  lemma {:induction false} TrimStartKeeps(s: string)
    ensures forall c :: c in TrimStart(s) ==> c in s
  {
    if s != [] && IsWhitespace(s[0]) { TrimStartKeeps(s[1..]); }
  }

  // ---------------------------------------------------------------- a pattern in printed lines

  /** A pattern without line feeds does not straddle one. */
  lemma OccursOnOneSide(a: string, b: string, pat: string, j: nat)
    requires pat != "" && '\n' !in pat && OccursAt(a + "\n" + b, pat, j)
    ensures if j <= |a| then OccursAt(a, pat, j) else OccursAt(b, pat, j - |a| - 1)
  {
    var s, n := a + "\n" + b, |a|;
    var k := n - j;
    assert 0 <= k < |pat| ==> pat[k] != '\n';
    OccursPointwise(s, pat, j);
    assert s[n] == '\n';
    if j <= n {
      OccursPointwise(a, pat, j);
    } else {
      assert s[n + 1..] == b;
      assert s[j..j + |pat|] == b[j - n - 1..j - n - 1 + |pat|];
    }
  }

  /** A pattern without line feeds that is in no line is not in their print. */
  lemma {:induction false} JoinIsFree(lines: seq<string>, pat: string, j: nat)
    requires pat != "" && '\n' !in pat
    requires forall i :: 0 <= i < |lines| ==> !Contains(lines[i], pat)
    ensures !OccursAt(JoinLines(lines), pat, j)
  {
    if lines != [] {
      assert !Contains(lines[0], pat);
      if |lines| > 1 {
        var rest := JoinLines(lines[1..]);
        if j > |lines[0]| { JoinIsFree(lines[1..], pat, j - |lines[0]| - 1); }
        if OccursAt(lines[0] + "\n" + rest, pat, j) { OccursOnOneSide(lines[0], rest, pat, j); }
      }
    }
  }

  /** A pattern in one of the lines is in their print. */
  lemma {:induction false} JoinContains(lines: seq<string>, pat: string, i: nat)
    requires i < |lines| && Contains(lines[i], pat)
    ensures Contains(JoinLines(lines), pat)
  {
    var s, n := JoinLines(lines), |lines[0]|;
    if i == 0 {
      var k :| 0 <= k <= n && OccursAt(lines[0], pat, k);
      assert s[..n] == lines[0];
      assert s[k..k + |pat|] == s[..n][k..k + |pat|];
      assert OccursAt(s, pat, k);
    } else {
      JoinContains(lines[1..], pat, i - 1);
      var rest := JoinLines(lines[1..]);
      var k :| 0 <= k <= |rest| && OccursAt(rest, pat, k);
      assert s[n + 1..] == rest;
      assert s[n + 1 + k..n + 1 + k + |pat|] == rest[k..k + |pat|];
      assert OccursAt(s, pat, n + 1 + k);
    }
  }

  // ---------------------------------------------------------------- replacement

  /** `str::replace`: every occurrence of `pat`, from the left, without overlaps. */
  function Replace(s: string, pat: string, with: string): string
    requires pat != ""
    decreases |s|
  {
    if s == "" then ""
    else if pat <= s then with + Replace(s[|pat|..], pat, with)
    else [s[0]] + Replace(s[1..], pat, with)
  }

  /** The pieces of a text, with a separator between each two of them. */
  function Joined(pieces: seq<string>, sep: string): string {
    if pieces == [] then ""
    else if |pieces| == 1 then pieces[0]
    else pieces[0] + sep + Joined(pieces[1..], sep)
  }

  /** The first occurrence of `pat` in `piece + pat` is the one at the end. */
  predicate EndsAtFirst(piece: string, pat: string) {
    forall i :: 0 <= i < |piece| ==> !OccursAt(piece + pat, pat, i)
  }

  ghost predicate ArePieces(pieces: seq<string>, pat: string) {
    && pieces != [] && !Contains(pieces[|pieces| - 1], pat)
    && forall k :: 0 <= k < |pieces| - 1 ==> EndsAtFirst(pieces[k], pat)
  }

  /** An empty piece in front. */
  lemma JoinedSkip(pieces: seq<string>, sep: string)
    requires pieces != []
    ensures Joined([""] + pieces, sep) == sep + Joined(pieces, sep)
  {
    assert ([""] + pieces)[1..] == pieces && "" + sep == sep;
  }

  /** One more character in front of the first piece. */
  lemma JoinedMore(c: char, pieces: seq<string>, sep: string)
    requires pieces != []
    ensures Joined(pieces[0 := [c] + pieces[0]], sep) == [c] + Joined(pieces, sep)
  {
    var more := pieces[0 := [c] + pieces[0]];
    assert more[1..] == pieces[1..];
    if |pieces| > 1 {
      assert [c] + pieces[0] + sep + Joined(pieces[1..], sep) == [c] + (pieces[0] + sep + Joined(pieces[1..], sep));
    }
  }

  lemma PiecesCons(pieces: seq<string>, pat: string)
    requires ArePieces(pieces, pat)
    ensures ArePieces([""] + pieces, pat)
  {
    var more := [""] + pieces;
    forall k | 0 <= k < |more| - 1 ensures EndsAtFirst(more[k], pat) {
      if k > 0 { assert more[k] == pieces[k - 1]; }
    }
  }

  /** A character in front of a text: its occurrences are those of the text, and perhaps one at the front. */
  lemma OccursBehind(c: char, t: string, pat: string, i: nat)
    requires OccursAt([c] + t, pat, i)
    ensures if i == 0 then pat <= [c] + t else OccursAt(t, pat, i - 1)
  {
    assert ([c] + t)[1..] == t;
    if i > 0 { OccursInSuffix([c] + t, pat, 1, i - 1); }
  }

  lemma EndsAtFirstMore(c: char, piece: string, pat: string)
    requires EndsAtFirst(piece, pat) && !(pat <= [c] + (piece + pat))
    ensures EndsAtFirst([c] + piece, pat)
  {
    assert [c] + piece + pat == [c] + (piece + pat);
    forall i | 0 <= i < |[c] + piece| ensures !OccursAt([c] + piece + pat, pat, i) {
      if OccursAt([c] + (piece + pat), pat, i) { OccursBehind(c, piece + pat, pat, i); }
    }
  }

  lemma FreeMore(c: char, piece: string, pat: string)
    requires !Contains(piece, pat) && !(pat <= [c] + piece)
    ensures !Contains([c] + piece, pat)
  {
    forall i | 0 <= i <= |[c] + piece| ensures !OccursAt([c] + piece, pat, i) {
      if OccursAt([c] + piece, pat, i) { OccursBehind(c, piece, pat, i); }
    }
  }

  lemma PrefixOfPrefix(a: string, b: string, c: string)
    requires b <= c
    ensures a <= b ==> a <= c
  {
  }

  /** A character in front of the first piece, where no occurrence starts. */
  lemma PiecesMore(c: char, pieces: seq<string>, pat: string)
    requires pat != "" && ArePieces(pieces, pat) && !(pat <= [c] + Joined(pieces, pat))
    ensures ArePieces(pieces[0 := [c] + pieces[0]], pat)
  {
    if |pieces| == 1 {
      FreeMore(c, pieces[0], pat);
    } else {
      var front, whole := [c] + (pieces[0] + pat), [c] + Joined(pieces, pat);
      assert whole[..|front|] == front;
      PrefixOfPrefix(pat, front, whole);
      EndsAtFirstMore(c, pieces[0], pat);
    }
  }

  /**
   Replacing splits a text at the pattern, from the left, and joins the pieces with the replacement: the pieces do not
   depend on it.
   */
  lemma {:induction false} ReplaceJoinsPieces(s: string, pat: string, with: string) returns (pieces: seq<string>)
    requires pat != ""
    ensures ArePieces(pieces, pat) && s == Joined(pieces, pat) && Replace(s, pat, with) == Joined(pieces, with)
    decreases |s|
  {
    if s == "" {
      pieces := [""];
    } else if pat <= s {
      var rest := ReplaceJoinsPieces(s[|pat|..], pat, with);
      pieces := [""] + rest;
      PiecesCons(rest, pat);
      JoinedSkip(rest, pat);
      JoinedSkip(rest, with);
      assert s == pat + s[|pat|..];
    } else {
      var rest := ReplaceJoinsPieces(s[1..], pat, with);
      pieces := rest[0 := [s[0]] + rest[0]];
      assert s == [s[0]] + s[1..];
      PiecesMore(s[0], rest, pat);
      JoinedMore(s[0], rest, pat);
      JoinedMore(s[0], rest, with);
    }
  }

  /** A text is cut into pieces in one way only. */
  lemma {:induction false} PiecesAreUnique(a: seq<string>, b: seq<string>, pat: string)
    requires pat != "" && ArePieces(a, pat) && ArePieces(b, pat) && Joined(a, pat) == Joined(b, pat)
    ensures a == b
    decreases |a|
  {
    var s := Joined(a, pat);
    if |a| > 1 && |b| > 1 {
      FirstPieceEnds(a, b, pat);
      FirstPieceEnds(b, a, pat);
      assert s[|a[0]| + |pat|..] == Joined(a[1..], pat) && s[|b[0]| + |pat|..] == Joined(b[1..], pat);
      assert s[..|a[0]|] == a[0] && s[..|b[0]|] == b[0];
      PiecesAreUnique(a[1..], b[1..], pat);
      assert a == [a[0]] + a[1..] && b == [b[0]] + b[1..];
    } else if |a| > 1 {
      FirstOccurs(a, pat);
    } else if |b| > 1 {
      FirstOccurs(b, pat);
    }
  }

  lemma FirstOccurs(a: seq<string>, pat: string)
    requires |a| > 1
    ensures OccursAt(Joined(a, pat), pat, |a[0]|)
  {
    var s, n := Joined(a, pat), |a[0]|;
    assert s == a[0] + (pat + Joined(a[1..], pat));
    assert s[n..n + |pat|] == pat;
  }

  lemma FirstPieceEnds(a: seq<string>, b: seq<string>, pat: string)
    requires pat != "" && |a| > 1 && |b| > 1 && ArePieces(b, pat) && Joined(a, pat) == Joined(b, pat)
    ensures |b[0]| <= |a[0]|
  {
    FirstOccurs(a, pat);
    var s := Joined(b, pat);
    assert s[..|b[0] + pat|] == b[0] + pat;
    if |a[0]| < |b[0]| { OccursInPrefix(s, pat, |b[0] + pat|, |a[0]|); }
  }

  lemma OccursInPrefix(s: string, pat: string, n: nat, i: nat)
    requires i + |pat| <= n <= |s|
    ensures OccursAt(s[..n], pat, i) <==> OccursAt(s, pat, i)
  {
    assert s[..n][i..i + |pat|] == s[i..i + |pat|];
  }

  // ---------------------------------------------------------------- whitespace

  /** The 25 characters with the Unicode property White_Space. */
  lemma WhitespaceIs(c: char)
    ensures IsWhitespace(c)
            <==> c in "\t\n\U{B}\U{C}\r \U{85}\U{A0}\U{1680}\U{2000}\U{2001}\U{2002}\U{2003}\U{2004}\U{2005}"
                      + "\U{2006}\U{2007}\U{2008}\U{2009}\U{200A}\U{2028}\U{2029}\U{202F}\U{205F}\U{3000}"
  {
  }

  /** Trimming takes whitespace off both ends, and nothing else. */
  lemma TrimTakesWhitespace(s: string) returns (front: string, back: string)
    ensures s == front + Trim(s) + back
    ensures forall c :: c in front + back ==> IsWhitespace(c)
  {
    front := StartTaken(s);
    back := EndTaken(TrimStart(s));
    assert front + (Trim(s) + back) == front + Trim(s) + back;
  }

  lemma {:induction false} StartTaken(s: string) returns (front: string)
    ensures s == front + TrimStart(s)
    ensures forall c :: c in front ==> IsWhitespace(c)
  {
    front := "";
    if s != [] && IsWhitespace(s[0]) {
      var more := StartTaken(s[1..]);
      front := [s[0]] + more;
      assert s == [s[0]] + s[1..];
    }
  }

  lemma {:induction false} EndTaken(s: string) returns (back: string)
    ensures s == TrimEnd(s) + back
    ensures forall c :: c in back ==> IsWhitespace(c)
  {
    back := "";
    if s != [] && IsWhitespace(s[|s| - 1]) {
      var more := EndTaken(s[..|s| - 1]);
      back := more + [s[|s| - 1]];
      assert s == s[..|s| - 1] + [s[|s| - 1]];
    }
  }
}
