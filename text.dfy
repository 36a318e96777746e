/**
 * Python's string operations as the program uses them: `str.isspace`,
 * the `in` operator on strings, `split(sep)`, `split()`, `strip()`,
 * `lower()`, `int(...)`, `str(...)` of an integer, slicing with possibly
 * negative bounds, and the ordering `<=` of strings.
 */
module Text {
  import opened Wrappers

  /** `c.isspace()`: the whitespace characters of Python's str type. */
  predicate IsSpace(c: char) {
    || c == ' '
    || ('\t' <= c <= '\r')
    || ('\U{1c}' <= c <= '\U{1f}')
    || c == '\U{85}' || c == '\U{a0}' || c == '\U{1680}'
    || ('\U{2000}' <= c <= '\U{200a}')
    || c == '\U{2028}' || c == '\U{2029}' || c == '\U{202f}' || c == '\U{205f}' || c == '\U{3000}'
  }

  // ---------------------------------------------------------------------
  // Substrings: `p in s`

  /** p occurs in s starting at position i */
  predicate OccursAt(p: string, s: string, i: int) {
    0 <= i && i + |p| <= |s| && s[i..i + |p|] == p
  }

  /** `p in s`, computed by trying each starting position from the left */
  predicate Contains(s: string, p: string)
    decreases |s|
  {
    |p| <= |s| && (s[..|p|] == p || Contains(s[1..], p))
  }

  /** `p in s` holds exactly when p occurs at some position of s. */
  lemma {:induction false} ContainsIff(s: string, p: string)
    ensures Contains(s, p) <==> exists i :: OccursAt(p, s, i)
    decreases |s|
  {
    if |p| > |s| {
      assert forall i :: !OccursAt(p, s, i);
    } else if s[..|p|] == p {
      assert OccursAt(p, s, 0);
    } else {
      ContainsIff(s[1..], p);
      if Contains(s[1..], p) {
        var i :| OccursAt(p, s[1..], i);
        assert s[1..][i..i + |p|] == s[i + 1..i + 1 + |p|];
        assert OccursAt(p, s, i + 1);
      }
      if exists i :: OccursAt(p, s, i) {
        var i :| OccursAt(p, s, i);
        assert i != 0;
        assert s[1..][i - 1..i - 1 + |p|] == s[i..i + |p|];
        assert OccursAt(p, s[1..], i - 1);
      }
    }
  }

  /** Every string occurs in itself. */
  lemma ContainsSelf(p: string)
    ensures Contains(p, p)
  {
    assert p[..|p|] == p;
  }

  /** Nothing occurs in a shorter string. */
  lemma ContainsTooLong(s: string, p: string)
    requires |s| < |p|
    ensures !Contains(s, p)
  {
  }

  /** p cannot occur where its first character does not. */
  lemma {:induction false} NotContainsByFirst(s: string, p: string)
    requires |p| >= 1
    requires forall i :: 0 <= i <= |s| - |p| ==> s[i] != p[0]
    ensures !Contains(s, p)
    decreases |s|
  {
    if |p| <= |s| {
      assert s[..|p|][0] == s[0];
      assert forall i :: 0 <= i <= |s[1..]| - |p| ==> s[1..][i] == s[i + 1];
      NotContainsByFirst(s[1..], p);
    }
  }

  /** In a string one longer than p, p can only start at the first or the second position. */
  lemma ContainsOneLonger(s: string, p: string)
    requires |p| >= 1 && |s| == |p| + 1
    ensures Contains(s, p) <==> s[..|p|] == p || s[1..] == p
  {
    assert s[1..][..|p|] == s[1..];
    ContainsTooLong(s[1..][1..], p);
  }

  /** A string that occurs inside a part of a concatenation occurs in the whole. */
  lemma ContainsInConcat(a: string, b: string, c: string, p: string)
    requires Contains(b, p)
    ensures Contains(a + b + c, p)
  {
    ContainsIff(b, p);
    var i :| OccursAt(p, b, i);
    assert (a + b + c)[|a| + i..|a| + i + |p|] == b[i..i + |p|];
    assert OccursAt(p, a + b + c, |a| + i);
    ContainsIff(a + b + c, p);
  }

  // ---------------------------------------------------------------------
  // `s.split(sep)` for a one-character separator, and its inverse `sep.join`

  function CountChar(s: string, c: char): nat {
    if s == [] then 0 else (if s[0] == c then 1 else 0) + CountChar(s[1..], c)
  }

  function Split(s: string, sep: char): (parts: seq<string>)
    ensures |parts| >= 1
    decreases |s|
  {
    if s == [] then [""]
    else
      var rest := Split(s[1..], sep);
      if s[0] == sep then [""] + rest
      else [[s[0]] + rest[0]] + rest[1..]
  }

  /** `sep.join(parts)` */
  function Join(parts: seq<string>, sep: char): string {
    if parts == [] then ""
    else if |parts| == 1 then parts[0]
    else parts[0] + [sep] + Join(parts[1..], sep)
  }

  /** There is one more piece than there are separators in the text. */
  lemma {:induction false} SplitCount(s: string, sep: char)
    ensures |Split(s, sep)| == CountChar(s, sep) + 1
    decreases |s|
  {
    if s != [] {
      SplitCount(s[1..], sep);
    }
  }

  /** Joining the pieces with the separator gives back the text. */
  lemma {:induction false} SplitJoin(s: string, sep: char)
    ensures Join(Split(s, sep), sep) == s
    decreases |s|
  {
    if s != [] {
      var rest := Split(s[1..], sep);
      SplitJoin(s[1..], sep);
      if s[0] == sep {
        assert ([""] + rest)[1..] == rest;
      } else {
        var parts := [[s[0]] + rest[0]] + rest[1..];
        assert parts[1..] == rest[1..];
        if |rest| > 1 {
          assert Join(rest, sep) == rest[0] + [sep] + Join(rest[1..], sep);
        }
        assert s == [s[0]] + s[1..];
      }
    }
  }

  /** No piece contains the separator. */
  lemma {:induction false} SplitPiecesFree(s: string, sep: char)
    ensures forall k :: 0 <= k < |Split(s, sep)| ==> sep !in Split(s, sep)[k]
    decreases |s|
  {
    if s != [] {
      SplitPiecesFree(s[1..], sep);
    }
  }

  // ---------------------------------------------------------------------
  // `s.split()`: the maximal runs of non-whitespace characters

  /** The length of the run of non-whitespace characters that s starts with */
  function SpanNonSpace(s: string): (n: nat)
    ensures n <= |s|
    ensures forall i :: 0 <= i < n ==> !IsSpace(s[i])
    ensures n < |s| ==> IsSpace(s[n])
  {
    if s == [] || IsSpace(s[0]) then 0 else 1 + SpanNonSpace(s[1..])
  }

  function Words(s: string): seq<string>
    decreases |s|
  {
    if s == [] then []
    else if IsSpace(s[0]) then Words(s[1..])
    else
      var n := SpanNonSpace(s);
      [s[..n]] + Words(s[n..])
  }

  /** a word of `split()`: non-empty and free of whitespace */
  predicate IsWord(w: string) {
    w != [] && forall j :: 0 <= j < |w| ==> !IsSpace(w[j])
  }

  function Concat(ws: seq<string>): string {
    if ws == [] then "" else ws[0] + Concat(ws[1..])
  }

  /** s with every whitespace character removed */
  function NonSpace(s: string): string {
    if s == [] then "" else (if IsSpace(s[0]) then "" else [s[0]]) + NonSpace(s[1..])
  }

  lemma {:induction false} NonSpaceAppend(a: string, b: string)
    ensures NonSpace(a + b) == NonSpace(a) + NonSpace(b)
    decreases |a|
  {
    if a != [] {
      var t, ab := a[1..], a + b;
      assert ab[0] == a[0] && ab[1..] == t + b;
      NonSpaceAppend(t, b);
      var h := if IsSpace(a[0]) then "" else [a[0]];
      assert NonSpace(ab) == h + NonSpace(t + b);
      assert NonSpace(a) == h + NonSpace(t);
      assert h + (NonSpace(t) + NonSpace(b)) == (h + NonSpace(t)) + NonSpace(b);
    } else {
      assert a + b == b;
    }
  }

  lemma {:induction false} NonSpaceOfWord(w: string)
    requires forall j :: 0 <= j < |w| ==> !IsSpace(w[j])
    ensures NonSpace(w) == w
    decreases |w|
  {
    if w != [] {
      NonSpaceOfWord(w[1..]);
    }
  }

  /**
   * `s.split()` yields words (non-empty, without whitespace) that, put back
   * together, are exactly the non-whitespace characters of s in order.
   */
  lemma {:induction false} WordsSpec(s: string)
    ensures forall w :: w in Words(s) ==> IsWord(w)
    ensures Concat(Words(s)) == NonSpace(s)
    decreases |s|
  {
    if s == [] {
    } else if IsSpace(s[0]) {
      WordsSpec(s[1..]);
    } else {
      var n := SpanNonSpace(s);
      WordsSpec(s[n..]);
      var ws := [s[..n]] + Words(s[n..]);
      assert ws[0] == s[..n] && ws[1..] == Words(s[n..]);
      assert s == s[..n] + s[n..];
      NonSpaceAppend(s[..n], s[n..]);
      NonSpaceOfWord(s[..n]);
    }
  }

  /**
   * The number of places where a word begins: a non-whitespace character
   * at the start of s (when afterSpace) or right after a whitespace one.
   */
  function WordStarts(s: string, afterSpace: bool): nat
    decreases |s|
  {
    if s == [] then 0
    else (if afterSpace && !IsSpace(s[0]) then 1 else 0) + WordStarts(s[1..], IsSpace(s[0]))
  }

  lemma {:induction false} StartsInRun(s: string, n: nat)
    requires n <= |s| && forall i :: 0 <= i < n ==> !IsSpace(s[i])
    ensures WordStarts(s, false) == WordStarts(s[n..], false)
    decreases n
  {
    if n > 0 {
      StartsInRun(s[1..], n - 1);
      assert s[1..][n - 1..] == s[n..];
    }
  }

  /**
   * `s.split()` yields as many words as there are word beginnings in s, so
   * the words are the maximal runs of non-whitespace and not pieces of them.
   */
  lemma {:induction false} WordsCount(s: string)
    ensures |Words(s)| == WordStarts(s, true)
    decreases |s|
  {
    if s != [] {
      if IsSpace(s[0]) {
        WordsCount(s[1..]);
      } else {
        var n := SpanNonSpace(s);
        WordsCount(s[n..]);
        StartsInRun(s[1..], n - 1);
        assert s[1..][n - 1..] == s[n..];
        if s[n..] != [] {
          assert IsSpace(s[n..][0]);
        }
      }
    }
  }

  // ---------------------------------------------------------------------
  // `s.strip()`

  /** how many whitespace characters s starts with */
  function LeadingSpaces(s: string): (n: nat)
    ensures n <= |s|
    ensures forall i :: 0 <= i < n ==> IsSpace(s[i])
    ensures n < |s| ==> !IsSpace(s[n])
  {
    if s != [] && IsSpace(s[0]) then 1 + LeadingSpaces(s[1..]) else 0
  }

  /** how many whitespace characters s ends with */
  function TrailingSpaces(s: string): (n: nat)
    ensures n <= |s|
    ensures forall i :: |s| - n <= i < |s| ==> IsSpace(s[i])
    ensures n < |s| ==> !IsSpace(s[|s| - n - 1])
  {
    if s != [] && IsSpace(s[|s| - 1]) then 1 + TrailingSpaces(s[..|s| - 1]) else 0
  }

  /**
   * The stripped text is s with a whitespace-only prefix and a
   * whitespace-only suffix cut off; it neither starts nor ends with
   * whitespace, and it is empty exactly when the text is all whitespace.
   * Together these fix it: the cut-off parts are the longest such.
   */
  function Strip(s: string): (r: string)
    ensures |r| <= |s|
    ensures exists a, b ::
              && 0 <= a <= b <= |s| && r == s[a..b]
              && (forall i :: 0 <= i < a ==> IsSpace(s[i]))
              && (forall i :: b <= i < |s| ==> IsSpace(s[i]))
    ensures r != [] ==> !IsSpace(r[0]) && !IsSpace(r[|r| - 1])
    ensures r == [] <==> forall i :: 0 <= i < |s| ==> IsSpace(s[i])
  {
    var a := LeadingSpaces(s);
    var t := s[a..];
    var r := t[..|t| - TrailingSpaces(t)];
    StripCut(s, a, t, |s| - TrailingSpaces(t));
    StripEnds(s, a, t, r);
    r
  }

  lemma StripEnds(s: string, a: nat, t: string, r: string)
    requires a == LeadingSpaces(s) && t == s[a..] && r == t[..|t| - TrailingSpaces(t)]
    ensures r != [] ==> !IsSpace(r[0]) && !IsSpace(r[|r| - 1])
    ensures r == [] <==> forall i :: 0 <= i < |s| ==> IsSpace(s[i])
  {
    var n := TrailingSpaces(t);
    if r != [] {
      assert |r| == |t| - n && n < |t|;
      assert r[0] == t[0] == s[a] && r[|r| - 1] == t[|t| - n - 1];
      assert !IsSpace(t[|t| - n - 1]);
      assert a < |s| && !IsSpace(s[a]);
    } else {
      forall i | 0 <= i < |s|
        ensures IsSpace(s[i])
      {
        if i >= a {
          assert s[i] == t[i - a];
        }
      }
    }
  }

  lemma StripCut(s: string, a: nat, t: string, b: int)
    requires a <= |s| && t == s[a..] && (forall i :: 0 <= i < a ==> IsSpace(s[i]))
    requires b == |s| - TrailingSpaces(t)
    ensures 0 <= a <= b <= |s| && t[..|t| - TrailingSpaces(t)] == s[a..b]
    ensures forall i :: b <= i < |s| ==> IsSpace(s[i])
  {
    forall i | b <= i < |s|
      ensures IsSpace(s[i])
    {
      assert s[i] == t[i - a];
    }
  }

  // ---------------------------------------------------------------------
  // `s.lower()` (ASCII letters)

  function LowerChar(c: char): char {
    if 'A' <= c <= 'Z' then (c as int + 32) as char else c
  }

  predicate IsUpper(c: char) {
    'A' <= c <= 'Z'
  }

  function ToLower(s: string): (r: string)
    ensures |r| == |s|
    ensures forall i :: 0 <= i < |s| ==> !IsUpper(r[i])
  {
    seq(|s|, i requires 0 <= i < |s| => LowerChar(s[i]))
  }

  /** Lower-casing leaves a text without capitals unchanged. */
  lemma ToLowerFixes(s: string)
    requires forall i :: 0 <= i < |s| ==> !IsUpper(s[i])
    ensures ToLower(s) == s
  {
  }

  lemma ToLowerIdempotent(s: string)
    ensures ToLower(ToLower(s)) == ToLower(s)
  {
    ToLowerFixes(ToLower(s));
  }

  // ---------------------------------------------------------------------
  // `str(n)` and `int(s)` for decimal integers

  predicate IsDigit(c: char) {
    '0' <= c <= '9'
  }

  predicate AllDigits(s: string) {
    forall i :: 0 <= i < |s| ==> IsDigit(s[i])
  }

  function DigitsValue(s: string): nat
    requires AllDigits(s)
    decreases |s|
  {
    if s == [] then 0 else DigitsValue(s[..|s| - 1]) * 10 + (s[|s| - 1] as int - '0' as int)
  }

  function DigitChar(d: nat): (c: char)
    requires d < 10
    ensures IsDigit(c) && c as int - '0' as int == d
  {
    ('0' as int + d) as char
  }

  /** `str(n)` for n >= 0: decimal digits */
  function NatString(n: nat): (s: string)
    ensures |s| >= 1 && AllDigits(s)
  {
    if n < 10 then [DigitChar(n)] else NatString(n / 10) + [DigitChar(n % 10)]
  }

  /** `str(n)` */
  function IntString(n: int): string {
    if n < 0 then "-" + NatString(-n) else NatString(n)
  }

  /**
   * `int(s)` on a whitespace-free token: an optional sign followed by
   * decimal digits; None where Python raises ValueError.
   */
  function ParseInt(s: string): Option<int> {
    if |s| >= 2 && (s[0] == '-' || s[0] == '+') && AllDigits(s[1..]) then
      var v: int := DigitsValue(s[1..]);
      Some(if s[0] == '-' then -v else v)
    else if |s| >= 1 && AllDigits(s) then
      Some(DigitsValue(s))
    else
      None
  }

  lemma {:induction false} NatStringValue(n: nat)
    ensures DigitsValue(NatString(n)) == n
    decreases n
  {
    if n >= 10 {
      NatStringValue(n / 10);
      var s := NatString(n / 10) + [DigitChar(n % 10)];
      assert s[..|s| - 1] == NatString(n / 10);
    }
  }

  /** `int(str(n)) == n` */
  lemma ParseIntString(n: int)
    ensures ParseInt(IntString(n)) == Some(n)
  {
    if n < 0 {
      var d := NatString(-n);
      NatStringValue(-n);
      assert ("-" + d)[0] == '-' && ("-" + d)[1..] == d;
      assert ParseInt("-" + d) == Some(n);
    } else {
      var d := NatString(n);
      NatStringValue(n);
      assert IsDigit(d[0]);
      assert ParseInt(d) == Some(n);
    }
  }

  // ---------------------------------------------------------------------
  // Slices `s[i:]` and `s[:j]`, where a negative bound counts from the end

  /** the position a slice bound i denotes in a sequence of length n */
  function SliceBound(i: int, n: nat): (k: nat)
    ensures k <= n
  {
    if i < 0 then (if i + n < 0 then 0 else i + n) else if i > n then n else i
  }

  /** `s[i:]` */
  function SliceFrom<T>(s: seq<T>, i: int): seq<T> {
    s[SliceBound(i, |s|)..]
  }

  /** `s[:j]` */
  function SliceTo<T>(s: seq<T>, j: int): seq<T> {
    s[..SliceBound(j, |s|)]
  }

  // ---------------------------------------------------------------------
  // `a <= b` on strings: lexicographic by code point, a prefix first

  predicate StrLe(a: string, b: string)
    decreases |a|
  {
    if a == [] then true
    else if b == [] then false
    else if a[0] != b[0] then a[0] < b[0]
    else StrLe(a[1..], b[1..])
  }

  lemma {:induction false} StrLeTotal(a: string, b: string)
    ensures StrLe(a, b) || StrLe(b, a)
    decreases |a|
  {
    if a != [] && b != [] && a[0] == b[0] {
      StrLeTotal(a[1..], b[1..]);
    }
  }

  lemma {:induction false} StrLeTransitive(a: string, b: string, c: string)
    requires StrLe(a, b) && StrLe(b, c)
    ensures StrLe(a, c)
    decreases |a|
  {
    if a != [] && b != [] && c != [] && a[0] == b[0] && b[0] == c[0] {
      StrLeTransitive(a[1..], b[1..], c[1..]);
    }
  }
}
