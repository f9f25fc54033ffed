/** The two Python string operations the controller relies on: `sep.join(parts)` and `str.strip()`. */
module Text {

  // ---------------------------------------------------------------------------
  // str.join
  // ---------------------------------------------------------------------------

  /** Python's `sep.join(parts)`: the parts in order, one `sep` between each neighbouring pair. */
  function Join(parts: seq<string>, sep: string): string
    decreases |parts|
  {
    if |parts| == 0 then ""
    else if |parts| == 1 then parts[0]
    else parts[0] + sep + Join(parts[1..], sep)
  }

  /** The summed length of the parts. */
  function TotalLength(parts: seq<string>): nat
    decreases |parts|
  {
    if |parts| == 0 then 0 else |parts[0]| + TotalLength(parts[1..])
  }

  /** Offset at which part `i` begins inside `Join(parts, sep)`: every earlier part and one `sep` after each. */
  function PieceStart(parts: seq<string>, sep: string, i: nat): nat
    requires i <= |parts|
  {
    TotalLength(parts[..i]) + i * |sep|
  }

  /** Peeling the first part off a prefix of the parts. */
  lemma TotalLengthPrefix(parts: seq<string>, i: nat)
    requires 0 < i <= |parts|
    ensures TotalLength(parts[..i]) == |parts[0]| + TotalLength(parts[1..][..i - 1])
  {
    assert parts[..i][1..] == parts[1..][..i - 1];
  }

  /** Appending one part adds its length. */
  lemma {:induction false} TotalLengthSnoc(parts: seq<string>, last: string)
    ensures TotalLength(parts + [last]) == TotalLength(parts) + |last|
    decreases |parts|
  {
    if |parts| > 0 {
      assert (parts + [last])[1..] == parts[1..] + [last];
      TotalLengthSnoc(parts[1..], last);
    }
  }

  /** Part `i + 1` begins one part and one separator after part `i`. */
  lemma PieceStartNext(parts: seq<string>, sep: string, i: nat)
    requires i < |parts|
    ensures PieceStart(parts, sep, i + 1) == PieceStart(parts, sep, i) + |parts[i]| + |sep|
  {
    assert parts[..i + 1] == parts[..i] + [parts[i]];
    TotalLengthSnoc(parts[..i], parts[i]);
  }

  /** A join of n parts is exactly the parts plus n - 1 separators long: nothing else is added. */
  lemma {:induction false} JoinLength(parts: seq<string>, sep: string)
    requires |parts| > 0
    ensures |Join(parts, sep)| == TotalLength(parts) + (|parts| - 1) * |sep|
    decreases |parts|
  {
    if |parts| > 1 {
      JoinLength(parts[1..], sep);
    }
  }

  /** The two halves of an append are its prefix and its suffix. */
  lemma AppendHalves(a: string, b: string)
    ensures (a + b)[..|a|] == a && (a + b)[|a|..] == b
  {
  }

  /** A prefix of a prefix is a prefix. */
  lemma PrefixOfPrefix(r: string, p: string, q: string)
    requires |q| <= |p| <= |r| && r[..|p|] == p && p[..|q|] == q
    ensures r[..|q|] == q
  {
    forall k | 0 <= k < |q|
      ensures r[..|q|][k] == q[k]
    {
      assert r[k] == r[..|p|][k] == p[..|q|][k];
    }
  }

  /** A slice inside a prefix of `r` is that slice of the prefix. */
  lemma SliceInPrefix(r: string, p: string, i: nat, j: nat)
    requires i <= j <= |p| <= |r| && r[..|p|] == p
    ensures r[i..j] == p[i..j]
  {
    forall k | 0 <= k < j - i
      ensures r[i..j][k] == p[i..j][k]
    {
      assert r[i + k] == r[..|p|][i + k];
    }
  }

  /** A slice inside a suffix of `r` is the shifted slice of the suffix. */
  lemma SliceInSuffix(r: string, off: nat, t: string, i: nat, j: nat)
    requires off <= |r| && r[off..] == t && i <= j <= |t|
    ensures r[off + i..off + j] == t[i..j]
  {
    forall k | 0 <= k < j - i
      ensures r[off + i..off + j][k] == t[i..j][k]
    {
      assert r[off + i + k] == r[off..][i + k];
    }
  }

  /** Part `i` sits verbatim at its offset in the join. */
  lemma {:induction false} JoinPieceAt(parts: seq<string>, sep: string, i: nat)
    requires i < |parts|
    ensures PieceStart(parts, sep, i) + |parts[i]| <= |Join(parts, sep)|
    ensures Join(parts, sep)[PieceStart(parts, sep, i)..PieceStart(parts, sep, i) + |parts[i]|] == parts[i]
    decreases |parts|
  {
    var j := Join(parts, sep);
    if |parts| == 1 {
      assert parts[..0] == [];
    } else {
      var rest := Join(parts[1..], sep);
      var head := parts[0] + sep;
      assert j == head + rest;
      AppendHalves(head, rest);
      JoinLength(parts[1..], sep);
      if i == 0 {
        assert parts[..0] == [];
        AppendHalves(parts[0], sep);
        PrefixOfPrefix(j, head, parts[0]);
      } else {
        TotalLengthPrefix(parts, i);
        JoinPieceAt(parts[1..], sep, i - 1);
        var s := PieceStart(parts[1..], sep, i - 1);
        assert PieceStart(parts, sep, i) == |head| + s;
        SliceInSuffix(j, |head|, rest, s, s + |parts[i]|);
      }
    }
  }

  /** Exactly one `sep` follows every part but the last, and the next part begins right after it.
      With JoinPieceAt and JoinLength: the join is the parts in order with |parts| - 1 separators. */
  lemma {:induction false} JoinSeparatorAt(parts: seq<string>, sep: string, i: nat)
    requires i + 1 < |parts|
    ensures PieceStart(parts, sep, i + 1) == PieceStart(parts, sep, i) + |parts[i]| + |sep| <= |Join(parts, sep)|
    ensures Join(parts, sep)[PieceStart(parts, sep, i) + |parts[i]|..PieceStart(parts, sep, i + 1)] == sep
    decreases |parts|
  {
    PieceStartNext(parts, sep, i);
    JoinPieceAt(parts, sep, i + 1);
    var j := Join(parts, sep);
    var rest := Join(parts[1..], sep);
    var head := parts[0] + sep;
    assert j == head + rest;
    AppendHalves(head, rest);
    if i == 0 {
      assert parts[..0] == [];
      AppendHalves(parts[0], sep);
      SliceInPrefix(j, head, |parts[0]|, |head|);
    } else {
      TotalLengthPrefix(parts, i);
      TotalLengthPrefix(parts, i + 1);
      JoinSeparatorAt(parts[1..], sep, i - 1);
      var s := PieceStart(parts[1..], sep, i - 1) + |parts[i]|;
      assert PieceStart(parts, sep, i) + |parts[i]| == |head| + s;
      SliceInSuffix(j, |head|, rest, s, s + |sep|);
    }
  }

  /** Joining one more part appends one separator and that part. */
  lemma {:induction false} JoinSnoc(parts: seq<string>, last: string, sep: string)
    requires |parts| > 0
    ensures Join(parts + [last], sep) == Join(parts, sep) + sep + last
    decreases |parts|
  {
    if |parts| > 1 {
      assert (parts + [last])[1..] == parts[1..] + [last];
      JoinSnoc(parts[1..], last, sep);
    } else {
      assert parts + [last] == [parts[0], last];
      assert [parts[0], last][1..] == [last];
    }
  }

  // ---------------------------------------------------------------------------
  // str.strip
  // ---------------------------------------------------------------------------

  /** The characters Python's `str.strip()` removes (those for which `str.isspace()` holds). */
  predicate IsSpace(c: char) {
    var n := c as int;
    (9 <= n <= 13) || (28 <= n <= 32) || n == 0x85 || n == 0xA0 || n == 0x1680
    || (0x2000 <= n <= 0x200A) || n == 0x2028 || n == 0x2029 || n == 0x202F || n == 0x205F
    || n == 0x3000
  }

  /** Every character of `t` is whitespace. */
  predicate AllSpace(t: string) {
    forall k :: 0 <= k < |t| ==> IsSpace(t[k])
  }

  /** `s.strip()`: leading and trailing whitespace removed, one character at a time. */
  function Strip(s: string): string
    decreases |s|
  {
    if |s| > 0 && IsSpace(s[0]) then Strip(s[1..])
    else if |s| > 0 && IsSpace(s[|s| - 1]) then Strip(s[..|s| - 1])
    else s
  }

  /** How many leading characters `Strip` drops. */
  function StripOffset(s: string): nat
    decreases |s|
  {
    if |s| > 0 && IsSpace(s[0]) then 1 + StripOffset(s[1..])
    else if |s| > 0 && IsSpace(s[|s| - 1]) then StripOffset(s[..|s| - 1])
    else 0
  }

  /** `t` sits at offset `i` of `s` with only whitespace around it. */
  predicate SpaceAround(s: string, i: nat, t: string) {
    i + |t| <= |s| && s[i..i + |t|] == t && AllSpace(s[..i]) && AllSpace(s[i + |t|..])
  }

  /** Putting a whitespace character in front moves the stretch one place right. */
  lemma SpaceAroundCons(s: string, j: nat, r: string)
    requires |s| > 0 && IsSpace(s[0]) && SpaceAround(s[1..], j, r)
    ensures SpaceAround(s, j + 1, r)
  {
    var t := s[1..];
    assert s[j + 1..j + 1 + |r|] == t[j..j + |r|];
    assert s[j + 1 + |r|..] == t[j + |r|..];
    assert s[..j + 1] == [s[0]] + t[..j];
  }

  /** Putting a whitespace character at the end leaves the stretch where it is. */
  lemma SpaceAroundSnoc(s: string, j: nat, r: string)
    requires |s| > 0 && IsSpace(s[|s| - 1]) && SpaceAround(s[..|s| - 1], j, r)
    ensures SpaceAround(s, j, r)
  {
    var t := s[..|s| - 1];
    assert s[j..j + |r|] == t[j..j + |r|];
    assert s[..j] == t[..j];
    assert s[j + |r|..] == t[j + |r|..] + [s[|s| - 1]];
  }

  /** `strip` keeps a stretch of `s`: the result sits at StripOffset(s), and only whitespace lies
      before and after it. */
  lemma {:induction false} StripKeepsInfix(s: string)
    ensures SpaceAround(s, StripOffset(s), Strip(s))
    decreases |s|
  {
    if |s| > 0 && IsSpace(s[0]) {
      StripKeepsInfix(s[1..]);
      SpaceAroundCons(s, StripOffset(s[1..]), Strip(s[1..]));
    } else if |s| > 0 && IsSpace(s[|s| - 1]) {
      StripKeepsInfix(s[..|s| - 1]);
      SpaceAroundSnoc(s, StripOffset(s[..|s| - 1]), Strip(s[..|s| - 1]));
    } else {
      assert s[0..|s|] == s;
    }
  }

  /** The result of `strip` neither begins nor ends with whitespace. */
  lemma {:induction false} StripTrimsEdges(s: string)
    ensures Strip(s) == [] || (!IsSpace(Strip(s)[0]) && !IsSpace(Strip(s)[|Strip(s)| - 1]))
    decreases |s|
  {
    if |s| > 0 && IsSpace(s[0]) {
      StripTrimsEdges(s[1..]);
    } else if |s| > 0 && IsSpace(s[|s| - 1]) {
      StripTrimsEdges(s[..|s| - 1]);
    }
  }

  /** Stripping twice is stripping once. */
  lemma StripIdempotent(s: string)
    ensures Strip(Strip(s)) == Strip(s)
  {
    StripTrimsEdges(s);
  }
}
