/**
 The byte-bounded output tail of a terminal: whatever the chunking, the buffer holds the suffix
 of the whole stream that starts at the first character boundary within the limit.
 */
module OutputBuffer {

  newtype byte = b: int | 0 <= b < 0x100

  type Bytes = seq<byte>

  // ---------------------------------------------------------------- UTF-8 (RFC 3629, section 4)

  /** A continuation byte: it never starts a character. */
  predicate IsTail(b: byte) { 0x80 <= b <= 0xBF }

  /** Length of the well-formed character at the front of `s`, or 0 when there is none. */
  function CharLength(s: Bytes): (n: nat)
    ensures n <= 4 && n <= |s|
    ensures n > 0 ==> !IsTail(s[0]) && forall i :: 0 < i < n ==> IsTail(s[i])
  {
    if s == [] then 0
    else if s[0] <= 0x7F then 1
    else if 0xC2 <= s[0] <= 0xDF then
      if |s| >= 2 && IsTail(s[1]) then 2 else 0
    else if 0xE0 <= s[0] <= 0xEF then
      if |s| >= 3 && IsTail(s[1]) && IsTail(s[2])
         && (s[0] == 0xE0 ==> s[1] >= 0xA0) && (s[0] == 0xED ==> s[1] <= 0x9F)
      then 3 else 0
    else if 0xF0 <= s[0] <= 0xF4 then
      if |s| >= 4 && IsTail(s[1]) && IsTail(s[2]) && IsTail(s[3])
         && (s[0] == 0xF0 ==> s[1] >= 0x90) && (s[0] == 0xF4 ==> s[1] <= 0x8F)
      then 4 else 0
    else 0
  }

  /** A sequence of well-formed characters. */
  predicate IsUtf8(s: Bytes)
    decreases |s|
  {
    s == [] || (CharLength(s) > 0 && IsUtf8(s[CharLength(s)..]))
  }

  /** `str::is_char_boundary` */
  predicate IsBoundary(s: Bytes, i: nat) {
    i == 0 || i == |s| || (i < |s| && !IsTail(s[i]))
  }

  /** The character at the front does not depend on what follows it. */
  lemma CharLengthPrefix(s: Bytes, t: Bytes)
    requires CharLength(s) > 0
    ensures CharLength(s + t) == CharLength(s)
  {
  }

  lemma {:induction false} Utf8Concat(s: Bytes, t: Bytes)
    requires IsUtf8(s) && IsUtf8(t)
    ensures IsUtf8(s + t)
    decreases |s|
  {
    if s == [] {
      assert s + t == t;
    } else {
      var n := CharLength(s);
      CharLengthPrefix(s, t);
      assert (s + t)[n..] == s[n..] + t;
      Utf8Concat(s[n..], t);
    }
  }

  /** Cutting at a boundary keeps text well-formed; cutting anywhere else does not. */
  lemma {:induction false} Utf8Cut(s: Bytes, i: nat)
    requires IsUtf8(s) && i <= |s|
    ensures IsUtf8(s[i..]) <==> IsBoundary(s, i)
    decreases |s|
  {
    if i == 0 {
      assert s[0..] == s;
    } else if i < |s| && IsTail(s[i]) {
      assert s[i..][0] == s[i];
      assert CharLength(s[i..]) == 0;
    } else if i < |s| {
      var n := CharLength(s);
      assert n <= i;
      SliceOfSlice(s, n, i);
      Utf8Cut(s[n..], i - n);
    }
  }

  lemma SliceOfSlice(s: Bytes, n: nat, i: nat)
    requires n <= i <= |s|
    ensures s[n..][i - n..] == s[i..]
    ensures i < |s| ==> s[n..][i - n] == s[i]
  {
  }

  /** Among any four neighbouring positions of well-formed text one is a boundary. */
  lemma {:induction false} BoundaryIsNear(s: Bytes, i: nat)
    requires IsUtf8(s) && i <= |s|
    ensures exists j :: i <= j <= i + 3 && j <= |s| && IsBoundary(s, j)
    decreases |s|
  {
    if i == 0 || i == |s| {
      assert IsBoundary(s, i);
    } else {
      var n := CharLength(s);
      if i < n {
        assert IsBoundary(s, n) by { Utf8Cut(s, n); }
      } else {
        BoundaryIsNear(s[n..], i - n);
        var j :| i - n <= j <= i - n + 3 && j <= |s| - n && IsBoundary(s[n..], j);
        Utf8Cut(s[n..], j);
        SliceOfSlice(s, n, n + j);
        Utf8Cut(s, n + j);
      }
    }
  }

  // ---------------------------------------------------------------- UTF-8 by its encoder (RFC 3629, section 3)

  /** A Unicode code point that is no surrogate. */
  type Scalar = c: int | 0 <= c < 0xD800 || 0xE000 <= c <= 0x10FFFF

  /** A continuation byte: six bits of a code point. */
  function Six(bits: nat): byte { (0x80 + bits % 64) as byte }

  function Encode(c: Scalar): Bytes {
    if c < 0x80 then [c as byte]
    else if c < 0x800 then [(0xC0 + c / 64) as byte, Six(c)]
    else if c < 0x1_0000 then [(0xE0 + c / 64 / 64) as byte, Six(c / 64), Six(c)]
    else [(0xF0 + c / 64 / 64 / 64) as byte, Six(c / 64 / 64), Six(c / 64), Six(c)]
  }

  function EncodeAll(cs: seq<Scalar>): Bytes {
    if cs == [] then [] else Encode(cs[0]) + EncodeAll(cs[1..])
  }

  lemma EncodedIsOneChar(c: Scalar)
    ensures CharLength(Encode(c)) == |Encode(c)| > 0
  {
  }

  lemma SixBits(high: nat, low: byte)
    requires IsTail(low)
    ensures var c := high * 64 + (low as int - 0x80);
            c / 64 == high && Six(c) == low
  {
  }

  lemma TwoEncoded(s: Bytes) returns (c: Scalar)
    requires CharLength(s) == |s| == 2
    ensures Encode(c) == s
  {
    var high := s[0] as int - 0xC0;
    c := high * 64 + (s[1] as int - 0x80);
    SixBits(high, s[1]);
  }

  lemma ThreeEncoded(s: Bytes) returns (c: Scalar)
    requires CharLength(s) == |s| == 3
    ensures Encode(c) == s
  {
    var top := s[0] as int - 0xE0;
    var high := top * 64 + (s[1] as int - 0x80);
    c := high * 64 + (s[2] as int - 0x80);
    SixBits(top, s[1]);
    SixBits(high, s[2]);
  }

  lemma FourEncoded(s: Bytes) returns (c: Scalar)
    requires CharLength(s) == |s| == 4
    ensures Encode(c) == s
  {
    var top := s[0] as int - 0xF0;
    var middle := top * 64 + (s[1] as int - 0x80);
    var high := middle * 64 + (s[2] as int - 0x80);
    c := high * 64 + (s[3] as int - 0x80);
    SixBits(top, s[1]);
    SixBits(middle, s[2]);
    SixBits(high, s[3]);
  }

  lemma OneCharIsEncoded(s: Bytes) returns (c: Scalar)
    requires CharLength(s) == |s| > 0
    ensures Encode(c) == s
  {
    if |s| == 1 {
      c := s[0] as int;
    } else if |s| == 2 {
      c := TwoEncoded(s);
    } else if |s| == 3 {
      c := ThreeEncoded(s);
    } else {
      c := FourEncoded(s);
    }
  }

  /** Well-formed text is exactly what the encoder prints: a sequence of encoded code points. */
  lemma {:induction false} Utf8Decodes(s: Bytes) returns (cs: seq<Scalar>)
    requires IsUtf8(s)
    ensures s == EncodeAll(cs)
    decreases |s|
  {
    cs := [];
    if s != [] {
      var n, c := FirstCharIsEncoded(s);
      var more := Utf8Decodes(s[n..]);
      cs := [c] + more;
      EncodeCons(c, more);
    }
  }

  lemma FirstCharIsEncoded(s: Bytes) returns (n: nat, c: Scalar)
    requires IsUtf8(s) && s != []
    ensures 0 < n <= |s| && IsUtf8(s[n..]) && s == Encode(c) + s[n..]
  {
    n := CharLength(s);
    CharLengthAlone(s);
    c := OneCharIsEncoded(s[..n]);
    assert s == s[..n] + s[n..];
  }

  lemma EncodeCons(c: Scalar, cs: seq<Scalar>)
    ensures EncodeAll([c] + cs) == Encode(c) + EncodeAll(cs)
  {
    assert ([c] + cs)[1..] == cs;
  }

  lemma CharLengthAlone(s: Bytes)
    requires CharLength(s) > 0
    ensures CharLength(s[..CharLength(s)]) == CharLength(s)
  {
  }

  lemma {:induction false} EncodedIsUtf8(cs: seq<Scalar>)
    ensures IsUtf8(EncodeAll(cs))
  {
    if cs != [] {
      EncodedIsUtf8(cs[1..]);
      EncodedIsOneChar(cs[0]);
      var s := Encode(cs[0]);
      assert s[CharLength(s)..] == [];
      Utf8Concat(s, EncodeAll(cs[1..]));
    }
  }

  lemma Utf8Iff(s: Bytes)
    ensures IsUtf8(s) <==> exists cs: seq<Scalar> :: s == EncodeAll(cs)
  {
    if IsUtf8(s) {
      var cs := Utf8Decodes(s);
    }
    forall cs: seq<Scalar> ensures IsUtf8(EncodeAll(cs)) { EncodedIsUtf8(cs); }
  }

  // ---------------------------------------------------------------- the reference tail

  /** `c` is the first boundary of `s` that leaves at most `limit` bytes. */
  ghost predicate IsCut(s: Bytes, limit: nat, c: nat) {
    && c <= |s| && |s| - c <= limit && IsBoundary(s, c)
    && forall j :: 0 <= j < c && |s| - j <= limit ==> !IsBoundary(s, j)
  }

  /** A stream is cut in one place only; nothing is dropped exactly when it fits. */
  lemma CutIsUnique(s: Bytes, limit: nat, c: nat, d: nat)
    requires IsCut(s, limit, c) && IsCut(s, limit, d)
    ensures c == d && (c == 0 <==> |s| <= limit)
  {
    assert IsBoundary(s, 0);
  }

  /** The tail is the longest well-formed suffix that fits, and loses at most three bytes more than needed. */
  lemma TailIsLongest(s: Bytes, limit: nat, c: nat, j: nat)
    requires IsUtf8(s) && IsCut(s, limit, c)
    ensures IsUtf8(s[c..])
    ensures |s| > limit ==> |s| - c + 3 >= limit
    ensures j <= |s| && IsUtf8(s[j..]) && |s| - j <= limit ==> j >= c
  {
    Utf8Cut(s, c);
    if |s| > limit { BoundaryIsNear(s, |s| - limit); }
    if j <= |s| { Utf8Cut(s, j); }
  }

  /** The bytes do not begin in the middle of a character. */
  predicate StartsAtChar(s: Bytes) { s == [] || !IsTail(s[0]) }

  /** Appending a chunk that still fits leaves the cut where it was. */
  lemma CutStays(s: Bytes, t: Bytes, limit: nat, c: nat)
    requires IsCut(s, limit, c) && StartsAtChar(t) && |s| - c + |t| <= limit
    ensures IsCut(s + t, limit, c)
  {
    assert c < |s| ==> (s + t)[c] == s[c];
    forall j | 0 <= j < c && |s + t| - j <= limit ensures !IsBoundary(s + t, j) {
      assert !IsBoundary(s, j) && (s + t)[j] == s[j];
    }
  }

  /** When the appended tail overflows, its next boundary is the cut of the whole stream. */
  lemma CutMoves(s: Bytes, t: Bytes, limit: nat, c: nat, d: nat)
    requires c <= |s| && |s| - c + |t| > limit
    requires IsNextBoundary(s[c..] + t, |s| - c + |t| - limit, d)
    ensures IsCut(s + t, limit, c + d)
  {
    var whole, data := s + t, s[c..] + t;
    assert whole[c..] == data;
    assert d < |data| ==> whole[c + d] == data[d];
    forall j | 0 <= j < c + d && |whole| - j <= limit ensures !IsBoundary(whole, j) {
      assert !IsBoundary(data, j - c) && whole[j] == data[j - c];
    }
  }

  /** `d` is the first boundary of `s` at or after `i`. */
  ghost predicate IsNextBoundary(s: Bytes, i: nat, d: nat) {
    i <= d <= |s| && IsBoundary(s, d) && forall j :: i <= j < d ==> !IsBoundary(s, j)
  }

  // ---------------------------------------------------------------- the buffer

  class OutputBuffer {
    var data: Bytes
    var truncated: bool
    const limit: nat
    /** Everything ever pushed, and where its retained tail starts. */
    ghost var stream: Bytes
    ghost var start: nat

    /** The buffer holds the tail of everything pushed, whatever bytes these were. */
    ghost predicate HoldsTail()
      reads this
    {
      && IsCut(stream, limit, start)
      && data == stream[start..]
      && (truncated <==> |stream| > limit)
    }

    ghost predicate Valid()
      reads this
    {
      HoldsTail() && IsUtf8(stream)
    }

    /** A configured limit below one byte is raised to one. */
    constructor (configured: nat)
      ensures Valid() && stream == [] && limit == if configured < 1 then 1 else configured
    {
      data, truncated, stream, start := [], false, [], 0;
      limit := if configured < 1 then 1 else configured;
    }

    method Push(chunk: Bytes)
      requires Valid() && IsUtf8(chunk)
      modifies `data, `truncated, `stream, `start
      ensures Valid() && stream == old(stream) + chunk
    {
      assert StartsAtChar(chunk) by { assert chunk != [] ==> CharLength(chunk) > 0; }
      Utf8Concat(stream, chunk);
      Append(chunk);
    }

    method Append(chunk: Bytes)
      requires HoldsTail() && StartsAtChar(chunk)
      modifies `data, `truncated, `stream, `start
      ensures HoldsTail() && stream == old(stream) + chunk
    {
      data := data + chunk;
      if |data| > limit {
        var cut := CutPoint();
        CutMoves(stream, chunk, limit, start, cut);
        assert (stream + chunk)[start + cut..] == data[cut..];
        data := data[cut..];
        truncated := true;
        start := start + cut;
      } else {
        CutStays(stream, chunk, limit, start);
        CutIsUnique(stream, limit, start, start);
        CutIsUnique(stream + chunk, limit, start, start);
      }
      stream := stream + chunk;
    }

    /** Walks from the overflow to the next character boundary; the end of the data is one. */
    method CutPoint() returns (cut: nat)
      requires |data| > limit
      ensures IsNextBoundary(data, |data| - limit, cut)
    {
      cut := |data| - limit;
      while !IsBoundary(data, cut)
        invariant |data| - limit <= cut <= |data|
        invariant forall j :: |data| - limit <= j < cut ==> !IsBoundary(data, j)
        decreases |data| - cut
      {
        cut := cut + 1;
      }
    }

    /** What a reader of the buffer may rely on. */
    lemma Contents()
      requires Valid()
      ensures IsUtf8(data) && |data| <= limit && |data| <= |stream| && data == stream[|stream| - |data|..]
      ensures truncated <==> data != stream
      ensures truncated ==> |data| + 3 >= limit
      ensures forall j :: 0 <= j <= |stream| && IsUtf8(stream[j..]) && |stream| - j <= limit ==> |stream| - j <= |data|
    {
      TailIsLongest(stream, limit, start, 0);
      CutIsUnique(stream, limit, start, start);
      forall j | 0 <= j <= |stream| && IsUtf8(stream[j..]) && |stream| - j <= limit ensures |stream| - j <= |data| {
        TailIsLongest(stream, limit, start, j);
      }
    }
  }
}
