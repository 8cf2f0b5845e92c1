/**
 * The Python string operations the agent's code relies on, with the
 * semantics CPython gives them: `find`, `in`, `count`, `replace`,
 * `split(sep)`, `split()`, `strip`, slicing, `join` and integer formatting.
 */
module Text {

  type String = seq<char>

  /** Code points that `str.isspace` accepts, hence what `split()` and `strip()` treat as whitespace. */
  const SpaceCodes: set<int> :=
    {0x09, 0x0A, 0x0B, 0x0C, 0x0D, 0x1C, 0x1D, 0x1E, 0x1F, 0x20, 0x85, 0xA0, 0x1680,
     0x2000, 0x2001, 0x2002, 0x2003, 0x2004, 0x2005, 0x2006, 0x2007, 0x2008, 0x2009, 0x200A,
     0x2028, 0x2029, 0x202F, 0x205F, 0x3000}

  predicate IsSpace(c: char) {
    c as int in SpaceCodes
  }

  /** `s.startswith(p)` */
  predicate StartsWith(s: String, p: String) {
    |p| <= |s| && s[..|p|] == p
  }

  /** `s.endswith(p)` */
  predicate EndsWith(s: String, p: String) {
    |p| <= |s| && s[|s| - |p|..] == p
  }

  /** `p` occurs in `s` starting at index `i`. */
  predicate OccursAt(s: String, p: String, i: int) {
    0 <= i && i + |p| <= |s| && s[i..i + |p|] == p
  }

  lemma OccursShift(s: String, p: String)
    requires |s| > 0
    ensures forall j :: OccursAt(s[1..], p, j) ==> OccursAt(s, p, j + 1)
    ensures forall j :: 1 <= j && OccursAt(s, p, j) ==> OccursAt(s[1..], p, j - 1)
  {
    forall j | OccursAt(s[1..], p, j)
      ensures OccursAt(s, p, j + 1)
    {
      assert s[1..][j..j + |p|] == s[j + 1..j + 1 + |p|];
    }
    forall j | 1 <= j && OccursAt(s, p, j)
      ensures OccursAt(s[1..], p, j - 1)
    {
      assert s[1..][j - 1..j - 1 + |p|] == s[j..j + |p|];
    }
  }

  /** `s.find(p)`: the lowest index where `p` occurs, or -1. */
  function Find(s: String, p: String): (r: int)
    ensures -1 <= r <= |s|
    ensures r >= 0 ==> OccursAt(s, p, r)
    ensures r >= 0 ==> forall j :: 0 <= j < r ==> !OccursAt(s, p, j)
    ensures r < 0 ==> forall j :: !OccursAt(s, p, j)
    decreases |s|
  {
    if |s| < |p| then -1
    else if s[..|p|] == p then 0
    else
      var k := Find(s[1..], p);
      OccursShift(s, p);
      if k < 0 then -1 else k + 1
  }

  /** `p in s` */
  predicate Contains(s: String, p: String) {
    Find(s, p) >= 0
  }

  lemma ContainsOccurs(s: String, p: String, i: int)
    requires OccursAt(s, p, i)
    ensures Contains(s, p)
  {
  }

  /** A slice that ends before the first occurrence of `p` holds no `p`. */
  lemma NoneBefore(t: String, p: String, start: int, end: int)
    requires 0 <= start <= end <= |t| && |p| > 0
    requires forall j :: 0 <= j < end ==> !OccursAt(t, p, j)
    ensures !Contains(t[start..end], p)
  {
    var v := t[start..end];
    forall j | 0 <= j && j + |p| <= |v|
      ensures !OccursAt(v, p, j)
    {
      assert 0 <= start + j < end;
      assert forall m :: j <= m < j + |p| ==> v[m] == t[start + m];
      assert v[j..j + |p|] == t[start + j..start + j + |p|];
      assert !OccursAt(t, p, start + j);
    }
  }

  /** `s.count(p)` for a non-empty `p`: non-overlapping occurrences, scanning left to right. */
  function Count(s: String, p: String): (n: nat)
    requires |p| > 0
    ensures n > 0 <==> Contains(s, p)
    ensures n <= |s|
    decreases |s|
  {
    if |s| < |p| then 0
    else if s[..|p|] == p then 1 + Count(s[|p|..], p)
    else Count(s[1..], p)
  }

  /** `s.replace(p, q)` for a non-empty `p`: every non-overlapping occurrence, left to right. */
  function Replace(s: String, p: String, q: String): (r: String)
    requires |p| > 0
    ensures Count(s, p) == 0 ==> r == s
    decreases |s|
  {
    if |s| < |p| then s
    else if s[..|p|] == p then q + Replace(s[|p|..], p, q)
    else [s[0]] + Replace(s[1..], p, q)
  }

  lemma Distribute(c: int, d: int)
    ensures (1 + c) * d == d + c * d
  {
  }

  lemma {:induction false} ReplaceLength(s: String, p: String, q: String)
    requires |p| > 0
    ensures |Replace(s, p, q)| == |s| + Count(s, p) * (|q| - |p|)
    decreases |s|
  {
    var d := |q| - |p|;
    if |s| >= |p| {
      if s[..|p|] == p {
        var rest := s[|p|..];
        var c := Count(rest, p);
        ReplaceLength(rest, p, q);
        assert Replace(s, p, q) == q + Replace(rest, p, q);
        assert Count(s, p) == 1 + c;
        Distribute(c, d);
      } else {
        var rest := s[1..];
        ReplaceLength(rest, p, q);
        assert Replace(s, p, q) == [s[0]] + Replace(rest, p, q);
        assert Count(s, p) == Count(rest, p);
      }
    }
  }

  /** The first index of `c` in `s`, or -1. */
  function IndexOf(s: String, c: char): (i: int)
    ensures -1 <= i < |s|
    ensures i >= 0 ==> s[i] == c && c !in s[..i]
    ensures i < 0 ==> c !in s
    decreases |s|
  {
    if |s| == 0 then -1
    else if s[0] == c then 0
    else
      var k := IndexOf(s[1..], c);
      if k < 0 then -1 else k + 1
  }

  /** `sep.join(parts)` */
  function Join(parts: seq<String>, sep: String): String
    decreases |parts|
  {
    if |parts| == 0 then []
    else if |parts| == 1 then parts[0]
    else parts[0] + sep + Join(parts[1..], sep)
  }

  /** A join begins with its first part. */
  lemma JoinStartsWithFirst(parts: seq<String>, sep: String)
    requires |parts| > 0
    ensures StartsWith(Join(parts, sep), parts[0])
  {
    if |parts| > 1 {
      assert Join(parts, sep) == parts[0] + (sep + Join(parts[1..], sep));
      assert Join(parts, sep)[..|parts[0]|] == parts[0];
    }
  }

  /** Joining two non-empty lists is joining each and putting one separator between them. */
  lemma {:induction false} JoinAppend(a: seq<String>, b: seq<String>, sep: String)
    requires |a| > 0 && |b| > 0
    ensures Join(a + b, sep) == Join(a, sep) + sep + Join(b, sep)
    decreases |a|
  {
    if |a| == 1 {
      assert (a + b)[1..] == b;
    } else {
      assert (a + b)[1..] == a[1..] + b;
      JoinAppend(a[1..], b, sep);
    }
  }

  /** `s.split(c)` for a one-character separator: never empty, pieces never contain `c`. */
  function Split(s: String, c: char): (parts: seq<String>)
    ensures |parts| >= 1
    decreases |s|
  {
    var i := IndexOf(s, c);
    if i < 0 then [s]
    else
      var rest := Split(s[i + 1..], c);
      [s[..i]] + rest
  }

  lemma {:induction false} JoinSplit(s: String, c: char)
    ensures Join(Split(s, c), [c]) == s
    decreases |s|
  {
    var i := IndexOf(s, c);
    if i >= 0 {
      var head, tail := s[..i], s[i + 1..];
      var rest := Split(tail, c);
      calc {
        Join(Split(s, c), [c]);
        Join([head] + rest, [c]);
        { JoinAppend([head], rest, [c]); }
        Join([head], [c]) + [c] + Join(rest, [c]);
        { JoinSplit(tail, c); }
        head + [c] + tail;
        { Around(s, i); }
        s;
      }
    }
  }

  /** A sequence is what comes before index `i`, the element there, and what follows. */
  lemma Around<X>(s: seq<X>, i: int)
    requires 0 <= i < |s|
    ensures s == s[..i] + [s[i]] + s[i + 1..]
  {
  }

  /** No piece of `s.split(c)` contains the separator: with `JoinSplit` this determines the pieces. */
  lemma {:induction false} SplitPiecesFree(s: String, c: char)
    ensures forall k :: 0 <= k < |Split(s, c)| ==> IndexOf(Split(s, c)[k], c) < 0
    decreases |s|
  {
    var i := IndexOf(s, c);
    if i >= 0 {
      var rest := Split(s[i + 1..], c);
      SplitPiecesFree(s[i + 1..], c);
      assert IndexOf(s[..i], c) < 0 by {
        IndexOfPrefix(s, c, i);
      }
      assert Split(s, c) == [s[..i]] + rest;
    }
  }

  lemma IndexOfPrefix(s: String, c: char, i: int)
    requires 0 <= i <= |s| && c !in s[..i]
    ensures IndexOf(s[..i], c) < 0
  {
  }

  /** `"".join(parts)` */
  function Concat(parts: seq<String>): (r: String)
    ensures |parts| == 1 ==> r == parts[0]
    decreases |parts|
  {
    if |parts| == 0 then [] else parts[0] + Concat(parts[1..])
  }

  /** `s.lstrip()`: drop the longest whitespace prefix. */
  function LStrip(s: String): (r: String)
    ensures |r| <= |s| && r == s[|s| - |r|..]
    ensures |r| == 0 || !IsSpace(r[0])
    ensures forall i :: 0 <= i < |s| - |r| ==> IsSpace(s[i])
    decreases |s|
  {
    if |s| > 0 && IsSpace(s[0]) then
      var r := LStrip(s[1..]);
      assert s[1..][|s| - 1 - |r|..] == s[|s| - |r|..];
      assert forall i :: 1 <= i < |s| - |r| ==> s[i] == s[1..][i - 1];
      r
    else s
  }

  /** `s.rstrip()`: drop the longest whitespace suffix. */
  function RStrip(s: String): (r: String)
    ensures |r| <= |s| && r == s[..|r|]
    ensures |r| == 0 || !IsSpace(r[|r| - 1])
    ensures forall i :: |r| <= i < |s| ==> IsSpace(s[i])
    decreases |s|
  {
    if |s| > 0 && IsSpace(s[|s| - 1]) then RStrip(s[..|s| - 1]) else s
  }

  /** `s.strip()` */
  function Strip(s: String): String {
    RStrip(LStrip(s))
  }

  /** Text that neither begins nor ends with whitespace is its own strip. */
  lemma StripNone(s: String)
    requires |s| > 0 && !IsSpace(s[0]) && !IsSpace(s[|s| - 1])
    ensures Strip(s) == s
  {
  }

  /** `s.lstrip(c)` for a single character `c`. */
  function LStripChar(s: String, c: char): (r: String)
    ensures |r| <= |s| && r == s[|s| - |r|..]
    ensures |r| == 0 || r[0] != c
    ensures forall i :: 0 <= i < |s| - |r| ==> s[i] == c
    decreases |s|
  {
    if |s| > 0 && s[0] == c then LStripChar(s[1..], c) else s
  }

  /** `s.rstrip(c)` for a single character `c`. */
  function RStripChar(s: String, c: char): (r: String)
    ensures |r| <= |s| && r == s[..|r|]
    ensures |r| == 0 || r[|r| - 1] != c
    ensures forall i :: |r| <= i < |s| ==> s[i] == c
    decreases |s|
  {
    if |s| > 0 && s[|s| - 1] == c then RStripChar(s[..|s| - 1], c) else s
  }

  /** `s.strip(c)` for a single character `c`. */
  function StripChar(s: String, c: char): String {
    RStripChar(LStripChar(s, c), c)
  }

  /** Text that neither begins nor ends with `c` is its own `strip(c)`. */
  lemma StripCharNone(s: String, c: char)
    requires |s| > 0 && s[0] != c && s[|s| - 1] != c
    ensures StripChar(s, c) == s
  {
  }

  /** The longest prefix of `s` without whitespace. */
  function TakeWord(s: String): (w: String)
    ensures |w| <= |s| && w == s[..|w|]
    ensures |w| == |s| || IsSpace(s[|w|])
    ensures forall i :: 0 <= i < |w| ==> !IsSpace(w[i])
    ensures |s| > 0 && !IsSpace(s[0]) ==> |w| > 0
    decreases |s|
  {
    if |s| > 0 && !IsSpace(s[0]) then [s[0]] + TakeWord(s[1..]) else []
  }

  /** `s[:n]` for `n >= 0` */
  function Take(s: String, n: nat): (r: String)
    ensures |r| == if n < |s| then n else |s|
    ensures r == s[..|r|]
  {
    if n < |s| then s[..n] else s
  }

  /** `s[::-1]` */
  function Reverse(s: String): (r: String)
    ensures |r| == |s|
    ensures forall i :: 0 <= i < |s| ==> r[i] == s[|s| - 1 - i]
  {
    seq(|s|, i requires 0 <= i < |s| => s[|s| - 1 - i])
  }

  lemma ReverseInvolutive(s: String)
    ensures Reverse(Reverse(s)) == s
  {
  }

  /** The words `s.split()` returns: the maximal runs of non-whitespace characters, in order. */
  function Words(s: String): (ws: seq<String>)
    decreases |s|
  {
    var t := LStrip(s);
    if |t| == 0 then []
    else
      var w := TakeWord(t);
      [w] + Words(t[|w|..])
  }

  /** Reference count of words: the positions where a non-whitespace run begins. */
  function RunStarts(s: String, afterSpace: bool): nat
    decreases |s|
  {
    if |s| == 0 then 0
    else if IsSpace(s[0]) then RunStarts(s[1..], true)
    else (if afterSpace then 1 else 0) + RunStarts(s[1..], false)
  }

  lemma {:induction false} RunStartsSkipSpaces(s: String, b: bool)
    ensures RunStarts(s, b) == RunStarts(LStrip(s), b || |LStrip(s)| < |s|)
    decreases |s|
  {
    if |s| > 0 && IsSpace(s[0]) {
      RunStartsSkipSpaces(s[1..], true);
    }
  }

  lemma {:induction false} RunStartsSkipWord(s: String)
    requires |TakeWord(s)| > 0
    ensures RunStarts(s, true) == 1 + RunStarts(s[|TakeWord(s)|..], false)
    decreases |s|
  {
    if |s| > 1 && !IsSpace(s[1]) {
      RunStartsSkipWord(s[1..]);
      assert s[1..][|TakeWord(s[1..])|..] == s[|TakeWord(s)|..];
    }
  }

  /** `len(s.split())` equals the number of maximal non-whitespace runs. */
  lemma {:induction false} WordsCountRuns(s: String)
    ensures |Words(s)| == RunStarts(s, true)
    decreases |s|
  {
    var t := LStrip(s);
    RunStartsSkipSpaces(s, true);
    assert RunStarts(s, true) == RunStarts(t, true);
    if |t| > 0 {
      var w := TakeWord(t);
      var rest := t[|w|..];
      assert Words(s) == [w] + Words(rest);
      RunStartsSkipWord(t);
      WordsCountRuns(rest);
      RunStartsSkipRest(rest);
    }
  }

  /** After a word, the following character is whitespace (or there is none), so the next run starts fresh. */
  lemma RunStartsSkipRest(rest: String)
    requires |rest| == 0 || IsSpace(rest[0])
    ensures RunStarts(rest, false) == RunStarts(rest, true)
  {
  }

  /** The decimal digit for `d`. */
  function DigitChar(d: nat): (c: char)
    requires d < 10
    ensures '0' <= c <= '9'
  {
    (48 + d) as char
  }

  /** `str(n)` for a natural number. */
  function NatToString(n: nat): (r: String)
    ensures |r| >= 1
    ensures forall i :: 0 <= i < |r| ==> '0' <= r[i] <= '9'
    decreases n
  {
    if n < 10 then [DigitChar(n)] else NatToString(n / 10) + [DigitChar(n % 10)]
  }

  /** The value of a string of decimal digits. */
  function ParseNat(s: String): nat
    requires forall i :: 0 <= i < |s| ==> '0' <= s[i] <= '9'
    decreases |s|
  {
    if |s| == 0 then 0 else 10 * ParseNat(s[..|s| - 1]) + (s[|s| - 1] as int - 48)
  }

  lemma {:induction false} ParseNatToString(n: nat)
    ensures ParseNat(NatToString(n)) == n
    decreases n
  {
    if n >= 10 {
      var r := NatToString(n);
      ParseNatToString(n / 10);
      assert r[..|r| - 1] == NatToString(n / 10);
    }
  }

  /** `str(i)` for any integer. */
  function IntToString(i: int): String {
    if i < 0 then "-" + NatToString(-i) else NatToString(i)
  }

  /** `f"{i:+d}"`: the integer with an explicit sign. */
  function SignedToString(i: int): (r: String)
    ensures |r| >= 2 && (r[0] == '+' <==> i >= 0) && (r[0] == '-' <==> i < 0)
  {
    if i < 0 then "-" + NatToString(-i) else "+" + NatToString(i)
  }
}
