/** The parts of Python's `str` API that the modelled code relies on. */
module Text {

  /** Python's `str.isspace()`: the characters that `strip()` with no argument removes. */
  predicate IsSpace(c: char)
  {
    || c == ' ' || c == '\t' || c == '\n' || c == '\r' || c == '\U{000B}' || c == '\U{000C}'
    || ('\U{001C}' <= c <= '\U{001F}') || c == '\U{0085}' || c == '\U{00A0}' || c == '\U{1680}'
    || ('\U{2000}' <= c <= '\U{200A}') || c == '\U{2028}' || c == '\U{2029}' || c == '\U{202F}'
    || c == '\U{205F}' || c == '\U{3000}'
  }

  /** Drops the leading characters that satisfy `drop` (`lstrip`). */
  function TrimLeft(s: string, drop: char -> bool): string
    decreases |s|
  {
    if |s| > 0 && drop(s[0]) then TrimLeft(s[1..], drop) else s
  }

  /** `lstrip` removes a prefix of dropped characters and stops at the first kept one. */
  lemma {:induction false} TrimLeftSpec(s: string, drop: char -> bool)
    ensures var r := TrimLeft(s, drop);
            && |r| <= |s| && r == s[|s| - |r|..]
            && (forall i | 0 <= i < |s| - |r| :: drop(s[i]))
            && (|r| > 0 ==> !drop(r[0]))
    decreases |s|
  {
    if |s| > 0 && drop(s[0]) {
      TrimLeftSpec(s[1..], drop);
    }
  }

  /** Drops the trailing characters that satisfy `drop` (`rstrip`). */
  function TrimRight(s: string, drop: char -> bool): string
    decreases |s|
  {
    if |s| > 0 && drop(s[|s| - 1]) then TrimRight(s[..|s| - 1], drop) else s
  }

  /** `rstrip` removes a suffix of dropped characters and stops at the last kept one. */
  lemma {:induction false} TrimRightSpec(s: string, drop: char -> bool)
    ensures var r := TrimRight(s, drop);
            && |r| <= |s| && r == s[..|r|]
            && (forall i | |r| <= i < |s| :: drop(s[i]))
            && (|r| > 0 ==> !drop(r[|r| - 1]))
    decreases |s|
  {
    if |s| > 0 && drop(s[|s| - 1]) {
      TrimRightSpec(s[..|s| - 1], drop);
    }
  }

  /** `r` occurs in `s` at index `i` and every character of `s` outside it satisfies `drop`. */
  predicate TrimmedAt(s: string, r: string, drop: char -> bool, i: int)
  {
    && 0 <= i <= |s| - |r|
    && s[i..i + |r|] == r
    && (forall k | 0 <= k < i :: drop(s[k]))
    && (forall k | i + |r| <= k < |s| :: drop(s[k]))
  }

  /** `strip(chars)`: both ends. */
  function Trim(s: string, drop: char -> bool): string
  {
    TrimRight(TrimLeft(s, drop), drop)
  }

  /** The stripped string is a factor of `s` surrounded only by dropped characters, and neither of
      its ends is dropped. */
  lemma TrimSpec(s: string, drop: char -> bool)
    ensures var r := Trim(s, drop);
            && |r| <= |s|
            && (|r| > 0 ==> !drop(r[0]) && !drop(r[|r| - 1]))
            && TrimmedAt(s, r, drop, |s| - |TrimLeft(s, drop)|)
  {
    var l := TrimLeft(s, drop);
    var r := TrimRight(l, drop);
    TrimLeftSpec(s, drop);
    TrimRightSpec(l, drop);
    TrimmedBothEnds(s, l, r, drop);
  }

  /** Cutting a dropped prefix off `s` and then a dropped suffix off the rest leaves a factor of `s`
      with only dropped characters around it. */
  lemma TrimmedBothEnds(s: string, l: string, r: string, drop: char -> bool)
    requires |l| <= |s| && l == s[|s| - |l|..] && forall k | 0 <= k < |s| - |l| :: drop(s[k])
    requires |r| <= |l| && r == l[..|r|] && forall k | |r| <= k < |l| :: drop(l[k])
    ensures TrimmedAt(s, r, drop, |s| - |l|)
  {
    var i := |s| - |l|;
    assert s[i..i + |r|] == r;
    forall k | i + |r| <= k < |s| ensures drop(s[k]) {
      var t := k - i;
      assert |r| <= t < |l| && l[t] == s[k];
      assert drop(l[t]);
    }
  }

  /** Stripping the left end of `a + b` only looks into `a` when `a` holds a kept character. */
  lemma {:induction false} TrimLeftAppend(a: string, b: string, drop: char -> bool)
    requires exists i | 0 <= i < |a| :: !drop(a[i])
    ensures TrimLeft(a + b, drop) == TrimLeft(a, drop) + b
    decreases |a|
  {
    if drop(a[0]) {
      assert (a + b)[1..] == a[1..] + b;
      var i :| 0 <= i < |a| && !drop(a[i]);
      assert !drop(a[1..][i - 1]);
      TrimLeftAppend(a[1..], b, drop);
    }
  }

  /** Stripping the right end of `a + b` only looks into `b` when `b` holds a kept character. */
  lemma {:induction false} TrimRightAppend(a: string, b: string, drop: char -> bool)
    requires exists i | 0 <= i < |b| :: !drop(b[i])
    ensures TrimRight(a + b, drop) == a + TrimRight(b, drop)
    decreases |b|
  {
    if drop(b[|b| - 1]) {
      assert (a + b)[..|a + b| - 1] == a + b[..|b| - 1];
      var i :| 0 <= i < |b| && !drop(b[i]);
      assert !drop(b[..|b| - 1][i]);
      TrimRightAppend(a, b[..|b| - 1], drop);
    }
  }

  /** Dropped characters at the right end disappear under `rstrip`. */
  lemma {:induction false} TrimRightDropped(x: string, w: string, drop: char -> bool)
    requires forall i | 0 <= i < |w| :: drop(w[i])
    ensures TrimRight(x + w, drop) == TrimRight(x, drop)
    decreases |w|
  {
    if |w| > 0 {
      assert drop((x + w)[|x + w| - 1]);
      assert (x + w)[..|x + w| - 1] == x + w[..|w| - 1];
      TrimRightDropped(x, w[..|w| - 1], drop);
    } else {
      assert x + w == x;
    }
  }

  /** A text between two fixed parts that are not blank keeps its own spaces under `strip()`. */
  lemma StripAround(a: string, x: string, b: string)
    requires exists i | 0 <= i < |a| :: !IsSpace(a[i])
    requires exists i | 0 <= i < |b| :: !IsSpace(b[i])
    ensures Strip(a + x + b) == TrimLeft(a, IsSpace) + x + TrimRight(b, IsSpace)
  {
    assert a + x + b == a + (x + b);
    TrimLeftAppend(a, x + b, IsSpace);
    assert TrimLeft(a, IsSpace) + (x + b) == (TrimLeft(a, IsSpace) + x) + b;
    TrimRightAppend(TrimLeft(a, IsSpace) + x, b, IsSpace);
  }

  /** `str.strip()` with no argument. */
  function Strip(s: string): string
  {
    Trim(s, IsSpace)
  }

  /** Number of occurrences of `c` in `s`. */
  function Occurrences(s: string, c: char): nat
  {
    if |s| == 0 then 0 else (if s[0] == c then 1 else 0) + Occurrences(s[1..], c)
  }

  /** `sep.join(parts)`. */
  function Join(parts: seq<string>, sep: string): string
  {
    if |parts| == 0 then ""
    else if |parts| == 1 then parts[0]
    else parts[0] + sep + Join(parts[1..], sep)
  }

  /** `s.split(c)` with an explicit one-character separator: never empty, pieces free of `c`,
      one more piece than there are separators, and joining the pieces back gives `s`. */
  function Split(s: string, c: char): (r: seq<string>)
    ensures |r| == Occurrences(s, c) + 1
    ensures forall i | 0 <= i < |r| :: c !in r[i]
    ensures Join(r, [c]) == s
    decreases |s|
  {
    if |s| == 0 then [""]
    else
      var rest := Split(s[1..], c);
      if s[0] == c then
        [""] + rest
      else
        assert s == [s[0]] + s[1..];
        [[s[0]] + rest[0]] + rest[1..]
  }

  /** A join starts with its first piece. */
  lemma {:induction false} JoinFirst(parts: seq<string>, sep: string)
    requires |parts| >= 1
    ensures StartsWith(Join(parts, sep), parts[0])
  {
    if |parts| > 1 {
      assert Join(parts, sep) == parts[0] + (sep + Join(parts[1..], sep));
    }
  }

  /** A join of two or more pieces ends with the separator and the last piece. */
  lemma {:induction false} JoinLast(parts: seq<string>, sep: string)
    requires |parts| >= 2
    ensures Join(parts, sep) == Join(parts[..|parts| - 1], sep) + sep + parts[|parts| - 1]
    decreases |parts|
  {
    if |parts| > 2 {
      JoinLast(parts[1..], sep);
      assert parts[..|parts| - 1][1..] == parts[1..][..|parts| - 2];
    }
  }

  /** Splitting a join recovers the pieces when no piece holds the separator. */
  lemma {:induction false} SplitJoin(parts: seq<string>, c: char)
    requires |parts| >= 1
    requires forall i | 0 <= i < |parts| :: c !in parts[i]
    ensures Split(Join(parts, [c]), c) == parts
    decreases |parts|, |parts[0]|
  {
    if |parts[0]| > 0 {
      var p0 := parts[0];
      var tail := [p0[1..]] + parts[1..];
      SplitJoin(tail, c);
      if |parts| == 1 {
        assert Join(parts, [c]) == [p0[0]] + Join(tail, [c]);
      } else {
        assert Join(parts, [c]) == [p0[0]] + Join(tail, [c]);
        assert tail[1..] == parts[1..];
      }
      assert [p0[0]] + p0[1..] == p0;
    } else if |parts| > 1 {
      SplitJoin(parts[1..], c);
      assert Join(parts, [c]) == [c] + Join(parts[1..], [c]);
    }
  }

  /** `str.startswith(prefix)`. */
  predicate StartsWith(s: string, prefix: string)
  {
    |prefix| <= |s| && s[..|prefix|] == prefix
  }

  /** `str.endswith(suffix)`. */
  predicate EndsWith(s: string, suffix: string)
  {
    |suffix| <= |s| && s[|s| - |suffix|..] == suffix
  }

  /** `p` occurs in `s` starting at index `i`. */
  predicate FactorAt(s: string, p: string, i: int)
  {
    0 <= i <= |s| - |p| && s[i..i + |p|] == p
  }

  /** `p in s` for strings: `p` occurs as a contiguous factor of `s`. */
  predicate HasFactor(s: string, p: string)
  {
    exists i | 0 <= i <= |s| - |p| :: FactorAt(s, p, i)
  }

  /** `str.lower()` on one character: ASCII letters and the KELVIN SIGN, which Python lowers to `k`. */
  function LowerChar(c: char): char
  {
    if 'A' <= c <= 'Z' then (c as int + 32) as char
    else if c == '\U{212A}' then 'k'
    else c
  }

  function Lower(s: string): (r: string)
    ensures |r| == |s| && forall i | 0 <= i < |s| :: r[i] == LowerChar(s[i])
  {
    seq(|s|, i requires 0 <= i < |s| => LowerChar(s[i]))
  }

  /** `s.replace(from, to)` for one character: every occurrence of `from` becomes `to`. */
  function ReplaceChar(s: string, from: char, to: string): (r: string)
    ensures from !in to ==> from !in r
  {
    if |s| == 0 then "" else (if s[0] == from then to else [s[0]]) + ReplaceChar(s[1..], from, to)
  }

  /** `s.find(c)`: index of the first occurrence, or -1. */
  function Find(s: string, c: char): (r: int)
    ensures -1 <= r < |s|
    ensures r >= 0 ==> s[r] == c && c !in s[..r]
    ensures r == -1 <==> c !in s
  {
    if |s| == 0 then -1
    else if s[0] == c then 0
    else
      var k := Find(s[1..], c);
      assert s[1..][..k + 1] == s[1..k + 2] || k == -1;
      if k == -1 then -1 else k + 1
  }

  /** `s.rfind(c)`: index of the last occurrence, or -1. */
  function RFind(s: string, c: char): (r: int)
    ensures -1 <= r < |s|
    ensures r >= 0 ==> s[r] == c && c !in s[r + 1..]
    ensures r == -1 <==> c !in s
    decreases |s|
  {
    if |s| == 0 then -1
    else if s[|s| - 1] == c then |s| - 1
    else
      var k := RFind(s[..|s| - 1], c);
      LastSplit(s, k);
      k
  }

  /** Cutting off the last character, and splitting the rest after position `k`. */
  lemma LastSplit(s: string, k: int)
    requires |s| > 0 && -1 <= k < |s| - 1
    ensures s == s[..|s| - 1] + [s[|s| - 1]]
    ensures k >= 0 ==> s[k + 1..] == s[..|s| - 1][k + 1..] + [s[|s| - 1]]
  {
  }

  /** `str(n)` for a natural number, in decimal. */
  function NatToString(n: nat): (r: string)
    ensures |r| >= 1 && forall i | 0 <= i < |r| :: '0' <= r[i] <= '9'
    decreases n
  {
    var d := ['0' + (n % 10) as char];
    if n < 10 then d else NatToString(n / 10) + d
  }
}
