/** String and sequence primitives of the JavaScript runtime that the app's
    rules are written with: `trim`, `toLowerCase`, `includes`, `startsWith`,
    `indexOf`, `split`/`join`, `Array.prototype.filter`, and the UTF-16
    `length` that `.length` and the schema checks count. */
module Text {

  datatype Option<T> = None | Some(value: T)

  // ---------------------------------------------------------------------------
  // Whitespace and trimming
  // ---------------------------------------------------------------------------

  /** The characters JavaScript's `trim` removes and the regular-expression
      class `\s` matches: WhiteSpace (TAB, VT, FF, SP, NBSP, ZWNBSP and every
      space separator) and LineTerminator (LF, CR, LS, PS). */
  predicate IsJsWhitespace(c: char)
  {
    var n := c as int;
    n == 0x09 || n == 0x0A || n == 0x0B || n == 0x0C || n == 0x0D || n == 0x20
    || n == 0xA0 || n == 0x1680 || (0x2000 <= n <= 0x200A) || n == 0x2028
    || n == 0x2029 || n == 0x202F || n == 0x205F || n == 0x3000 || n == 0xFEFF
  }

  /** All whitespace, the empty string included: what `!s.trim()` tests. */
  predicate Blank(s: string)
  {
    forall i :: 0 <= i < |s| ==> IsJsWhitespace(s[i])
  }

  /** Where the text of `s` starts: the number of leading whitespace
      characters. */
  function LeadingWhitespace(s: string): (k: nat)
    ensures k <= |s|
    ensures forall i :: 0 <= i < k ==> IsJsWhitespace(s[i])
    ensures k == |s| || !IsJsWhitespace(s[k])
  {
    if s != [] && IsJsWhitespace(s[0]) then
      var k := 1 + LeadingWhitespace(s[1..]);
      assert forall i :: 1 <= i < k ==> s[i] == s[1..][i - 1];
      k
    else 0
  }

  /** Where the text of `s[lo..hi]` ends: `hi` less the trailing whitespace. */
  function TextEnd(s: string, lo: nat, hi: nat): (e: nat)
    requires lo <= hi <= |s|
    ensures lo <= e <= hi
    ensures forall i :: e <= i < hi ==> IsJsWhitespace(s[i])
    ensures e == lo || !IsJsWhitespace(s[e - 1])
    decreases hi
  {
    if lo < hi && IsJsWhitespace(s[hi - 1]) then TextEnd(s, lo, hi - 1) else hi
  }

  /** `String.prototype.trim`: the slice of `s` left after cutting whitespace
      from both ends, which neither starts nor ends with whitespace. */
  function Trim(s: string): (r: string)
    ensures |r| <= |s|
    ensures var k := LeadingWhitespace(s);
      && k + |r| <= |s| && r == s[k..k + |r|]
      && (forall i :: 0 <= i < k ==> IsJsWhitespace(s[i]))
      && (forall i :: k + |r| <= i < |s| ==> IsJsWhitespace(s[i]))
    ensures r == [] || (!IsJsWhitespace(r[0]) && !IsJsWhitespace(r[|r| - 1]))
  {
    var k := LeadingWhitespace(s);
    s[k..TextEnd(s, k, |s|)]
  }

  /** A string that is all whitespace (including the empty string) trims to
      the empty string, and only such a string does. */
  lemma TrimEmptyIff(s: string)
    ensures Trim(s) == [] <==> Blank(s)
  {
    if !Blank(s) {
      var i :| 0 <= i < |s| && !IsJsWhitespace(s[i]);
      assert LeadingWhitespace(s) <= i;
    }
  }

  /** Trimming leaves a string without surrounding whitespace unchanged. */
  lemma TrimUnchanged(s: string)
    requires s == [] || (!IsJsWhitespace(s[0]) && !IsJsWhitespace(s[|s| - 1]))
    ensures Trim(s) == s
  {
  }

  // ---------------------------------------------------------------------------
  // Case and search
  // ---------------------------------------------------------------------------

  function LowerChar(c: char): char
  {
    if 'A' <= c <= 'Z' then (c as int + 32) as char else c
  }

  /** `toLowerCase`, on the ASCII letters (the only ones the model folds). */
  function ToLower(s: string): (r: string)
    ensures |r| == |s|
    ensures forall i :: 0 <= i < |s| ==> r[i] == LowerChar(s[i])
  {
    seq(|s|, i requires 0 <= i < |s| => LowerChar(s[i]))
  }

  predicate StartsWith(s: string, prefix: string)
  {
    |prefix| <= |s| && s[..|prefix|] == prefix
  }

  /** `String.prototype.includes`: `sub` occurs at some position of `s`. */
  predicate Contains(s: string, sub: string)
  {
    exists i | 0 <= i <= |s| - |sub| :: StartsWith(s[i..], sub)
  }

  lemma EmptyContained(s: string)
    ensures Contains(s, "")
  {
    assert StartsWith(s[0..], "");
  }

  /** `String.prototype.indexOf`: the first position where `sub` occurs. */
  function IndexOf(s: string, sub: string): (r: Option<nat>)
    ensures r.Some? ==> r.value + |sub| <= |s| && StartsWith(s[r.value..], sub)
    ensures r.Some? ==> forall j :: 0 <= j < r.value ==> !StartsWith(s[j..], sub)
    ensures r.None? <==> !Contains(s, sub)
  {
    if |s| < |sub| then None
    else if StartsWith(s, sub) then
      assert s[0..] == s;
      Some(0)
    else
      match IndexOf(s[1..], sub)
      case None =>
        assert forall j :: 1 <= j <= |s| - |sub| ==> s[j..] == s[1..][j - 1..];
        None
      case Some(k) =>
        assert s[k + 1..] == s[1..][k..];
        assert forall j :: 1 <= j < k + 1 ==> s[j..] == s[1..][j - 1..];
        Some(k + 1)
  }

  /** `s.replace(pat, "")` with a string pattern: removes the first
      occurrence of `pat`, if any. */
  function RemoveFirst(s: string, pat: string): (r: string)
    ensures StartsWith(s, pat) ==> r == s[|pat|..]
    ensures !Contains(s, pat) ==> r == s
    ensures Contains(s, pat) ==> |r| == |s| - |pat|
  {
    match IndexOf(s, pat)
    case None => s
    case Some(i) =>
      assert i == 0 || !StartsWith(s, pat) by {
        if i > 0 {
          assert s[0..] == s;
        }
      }
      s[..i] + s[i + |pat|..]
  }

  /** A prefix cut before the first occurrence of `pat` does not contain
      it. */
  lemma PrefixAvoids(s: string, i: nat, pat: string)
    requires i <= |s| && pat != ""
    requires forall j :: 0 <= j < i ==> !StartsWith(s[j..], pat)
    ensures !Contains(s[..i], pat)
  {
    forall k | 0 <= k <= i - |pat|
      ensures !StartsWith(s[..i][k..], pat)
    {
      assert s[..i][k..][..|pat|] == s[k..][..|pat|];
    }
  }

  // ---------------------------------------------------------------------------
  // Splitting and joining
  // ---------------------------------------------------------------------------

  /** `arr.join(sep)`. */
  function Join(parts: seq<string>, sep: string): string
  {
    if |parts| == 0 then ""
    else if |parts| == 1 then parts[0]
    else parts[0] + sep + Join(parts[1..], sep)
  }

  /** `s.split(sep)` for a one-character separator: the maximal pieces of `s`
      that do not contain `sep`, in order (always at least one piece). */
  function Split(s: string, sep: char): (r: seq<string>)
    ensures |r| >= 1
    ensures forall k :: 0 <= k < |r| ==> sep !in r[k]
  {
    if s == [] then [""]
    else
      var rest := Split(s[1..], sep);
      if s[0] == sep then [""] + rest
      else [[s[0]] + rest[0]] + rest[1..]
  }

  /** Splitting and joining on the same separator gives back the string. */
  lemma {:induction false} JoinSplit(s: string, sep: char)
    ensures Join(Split(s, sep), [sep]) == s
  {
    if s != [] {
      var rest := Split(s[1..], sep);
      JoinSplit(s[1..], sep);
      if s[0] == sep {
        assert Split(s, sep) == [""] + rest;
        assert ([""] + rest)[1..] == rest;
      } else {
        var r := [[s[0]] + rest[0]] + rest[1..];
        assert Split(s, sep) == r;
        if |rest| == 1 {
          assert Join(r, [sep]) == [s[0]] + rest[0];
        } else {
          assert r[1..] == rest[1..];
          assert Join(rest, [sep]) == rest[0] + [sep] + Join(rest[1..], [sep]);
        }
        assert s == [s[0]] + s[1..];
      }
    }
  }

  /** Joining pieces free of the separator and splitting again gives back
      the pieces. */
  lemma {:induction false} SplitJoin(parts: seq<string>, sep: char)
    requires |parts| >= 1
    requires forall k :: 0 <= k < |parts| ==> sep !in parts[k]
    ensures Split(Join(parts, [sep]), sep) == parts
  {
    if |parts| == 1 {
      SplitFree(parts[0], sep);
    } else {
      SplitJoin(parts[1..], sep);
      SplitPrefix(parts[0], Join(parts[1..], [sep]), sep);
      assert parts == [parts[0]] + parts[1..];
    }
  }

  /** A string without the separator is a single piece. */
  lemma {:induction false} SplitFree(s: string, sep: char)
    requires sep !in s
    ensures Split(s, sep) == [s]
  {
    if s != [] {
      SplitFree(s[1..], sep);
      assert s == [s[0]] + s[1..];
    }
  }

  /** A separator-free prefix followed by the separator becomes the first
      piece. */
  lemma {:induction false} SplitPrefix(a: string, b: string, sep: char)
    requires sep !in a
    ensures Split(a + [sep] + b, sep) == [a] + Split(b, sep)
  {
    if a == [] {
      assert [] + [sep] + b == [sep] + b;
      assert ([sep] + b)[1..] == b;
    } else {
      var s := a + [sep] + b;
      assert s[1..] == a[1..] + [sep] + b;
      SplitPrefix(a[1..], b, sep);
      assert a == [a[0]] + a[1..];
    }
  }

  /** A string contains each of its infixes. */
  lemma ContainsInfix(a: string, b: string, c: string)
    ensures Contains(a + b + c, b)
  {
    assert (a + b + c)[|a|..][..|b|] == b;
  }

  /** A string contains whatever its left part contains. */
  lemma ContainsExtend(a: string, b: string, sub: string)
    requires Contains(a, sub)
    ensures Contains(a + b, sub)
  {
    var i :| 0 <= i <= |a| - |sub| && StartsWith(a[i..], sub);
    assert (a + b)[i..][..|sub|] == a[i..][..|sub|];
  }

  /** A concatenation of seven pieces starts with the first, ends with the
      last and contains each inner piece. */
  lemma ContainsPieces(x1: string, x2: string, x3: string, x4: string, x5: string, x6: string, x7: string)
    ensures var s := x1 + x2 + x3 + x4 + x5 + x6 + x7;
      && StartsWith(s, x1) && |x7| <= |s| && s[|s| - |x7|..] == x7
      && Contains(s, x2) && Contains(s, x3) && Contains(s, x4) && Contains(s, x5) && Contains(s, x6)
  {
    var p2 := x1 + x2;
    var p3 := p2 + x3;
    var p4 := p3 + x4;
    var p5 := p4 + x5;
    var p6 := p5 + x6;
    var s := p6 + x7;
    assert s[..|x1|] == p2[..|x1|];
    assert s[|s| - |x7|..] == x7;
    ContainsInfix(x1, x2, x3);
    ContainsInfix(p2, x3, x4);
    ContainsInfix(p3, x4, x5);
    ContainsInfix(p4, x5, x6);
    ContainsInfix(p5, x6, x7);
    ContainsExtend(p3, x4, x2);
    ContainsExtend(p4, x5, x2);
    ContainsExtend(p4, x5, x3);
    ContainsExtend(p5, x6, x2);
    ContainsExtend(p5, x6, x3);
    ContainsExtend(p5, x6, x4);
    ContainsExtend(p6, x7, x2);
    ContainsExtend(p6, x7, x3);
    ContainsExtend(p6, x7, x4);
    ContainsExtend(p6, x7, x5);
  }

  /** Multiplying by a non-negative number keeps the order. */
  lemma MulMono(m: int, a: int, b: int)
    requires m >= 0 && a <= b
    ensures m * a <= m * b
  {
    assert m * b - m * a == m * (b - a);
  }

  function Reverse<T>(s: seq<T>): (r: seq<T>)
    ensures |r| == |s|
    ensures forall i :: 0 <= i < |s| ==> r[i] == s[|s| - 1 - i]
  {
    if s == [] then [] else Reverse(s[1..]) + [s[0]]
  }

  // ---------------------------------------------------------------------------
  // Numbers in text
  // ---------------------------------------------------------------------------

  function DigitChar(d: nat): (c: char)
    requires d < 10
    ensures '0' <= c <= '9' && (c as int) - ('0' as int) == d
  {
    ['0', '1', '2', '3', '4', '5', '6', '7', '8', '9'][d]
  }

  /** A number in a template literal: its decimal digits, no leading zero. */
  function NatToString(n: nat): (s: string)
    ensures |s| >= 1
    ensures forall i :: 0 <= i < |s| ==> '0' <= s[i] <= '9'
    ensures |s| > 1 ==> s[0] != '0'
  {
    if n < 10 then [DigitChar(n)] else NatToString(n / 10) + [DigitChar(n % 10)]
  }

  /** The number a string of decimal digits denotes. */
  function DecimalValue(s: string): nat
    requires forall i :: 0 <= i < |s| ==> '0' <= s[i] <= '9'
  {
    if s == [] then 0
    else 10 * DecimalValue(s[..|s| - 1]) + ((s[|s| - 1] as int) - ('0' as int))
  }

  /** Reading the digits back gives the number. */
  lemma {:induction false} NatToStringRoundTrip(n: nat)
    ensures DecimalValue(NatToString(n)) == n
  {
    if n >= 10 {
      NatToStringRoundTrip(n / 10);
      var s := NatToString(n);
      assert s[..|s| - 1] == NatToString(n / 10);
    }
  }

  // ---------------------------------------------------------------------------
  // Lengths
  // ---------------------------------------------------------------------------

  /** JavaScript's `.length`: characters outside the Basic Multilingual Plane
      take two UTF-16 code units. */
  function Utf16Length(s: string): (n: nat)
    ensures |s| <= n <= 2 * |s|
  {
    if s == [] then 0
    else (if s[0] as int > 0xFFFF then 2 else 1) + Utf16Length(s[1..])
  }

  // ---------------------------------------------------------------------------
  // Filtering, subsequences and counting
  // ---------------------------------------------------------------------------

  /** `a` is obtained from `b` by deleting elements, keeping the order. */
  predicate IsSubsequence<T(==)>(a: seq<T>, b: seq<T>)
    decreases |b|
  {
    if a == [] then true
    else if b == [] then false
    else if a[0] == b[0] then IsSubsequence(a[1..], b[1..])
    else IsSubsequence(a, b[1..])
  }

  /** `Array.prototype.filter`. */
  function Filter<T>(s: seq<T>, p: T -> bool): (r: seq<T>)
    ensures |r| <= |s|
    ensures forall k :: 0 <= k < |r| ==> p(r[k])
  {
    if s == [] then [] else (if p(s[0]) then [s[0]] else []) + Filter(s[1..], p)
  }

  /** What `filter` keeps is an order-preserving subsequence of its input. */
  lemma {:induction false} FilterIsSubsequence<T>(s: seq<T>, p: T -> bool)
    ensures IsSubsequence(Filter(s, p), s)
  {
    if s != [] {
      FilterIsSubsequence(s[1..], p);
      if p(s[0]) {
        assert Filter(s, p)[1..] == Filter(s[1..], p);
      } else {
        assert Filter(s, p) == Filter(s[1..], p);
        SubsequenceSkip(Filter(s[1..], p), s);
      }
    }
  }

  lemma {:induction false} SubsequenceSkip<T>(a: seq<T>, b: seq<T>)
    requires b != [] && IsSubsequence(a, b[1..])
    ensures IsSubsequence(a, b)
    decreases |a| + |b|
  {
    if a != [] && a[0] == b[0] {
      SubsequenceDrop(a, b[1..]);
    }
  }

  lemma {:induction false} SubsequenceDrop<T>(a: seq<T>, b: seq<T>)
    requires a != [] && IsSubsequence(a, b)
    ensures IsSubsequence(a[1..], b)
    decreases |a| + |b|
  {
    if b != [] {
      if a[0] == b[0] {
        SubsequenceSkip(a[1..], b);
      } else {
        SubsequenceDrop(a, b[1..]);
        SubsequenceSkip(a[1..], b);
      }
    }
  }

  /** An element is kept exactly when it occurs in the input and passes. */
  lemma {:induction false} FilterMembership<T>(s: seq<T>, p: T -> bool, x: T)
    ensures x in Filter(s, p) <==> x in s && p(x)
  {
    if s != [] {
      FilterMembership(s[1..], p, x);
      assert x in s <==> x == s[0] || x in s[1..];
    }
  }

  /** A predicate that holds of every element keeps the whole input. */
  lemma {:induction false} FilterKeepsAll<T>(s: seq<T>, p: T -> bool)
    requires forall k :: 0 <= k < |s| ==> p(s[k])
    ensures Filter(s, p) == s
  {
    if s != [] {
      FilterKeepsAll(s[1..], p);
    }
  }

  /** Filtering by a conjunction is filtering by each conjunct in turn. */
  lemma {:induction false} FilterConjunction<T>(s: seq<T>, p: T -> bool, q: T -> bool, pq: T -> bool)
    requires forall x :: pq(x) == (p(x) && q(x))
    ensures Filter(s, pq) == Filter(Filter(s, p), q)
  {
    if s != [] {
      FilterConjunction(s[1..], p, q, pq);
      var rest := Filter(s[1..], p);
      if p(s[0]) {
        assert Filter(s, p) == [s[0]] + rest;
        assert ([s[0]] + rest)[1..] == rest;
        assert Filter([s[0]] + rest, q) == (if q(s[0]) then [s[0]] else []) + Filter(rest, q);
      } else {
        assert Filter(s, p) == rest;
      }
    }
  }

  /** `s.filter(p).length`. */
  function Count<T>(s: seq<T>, p: T -> bool): (n: nat)
    ensures n <= |s|
  {
    if s == [] then 0 else (if p(s[0]) then 1 else 0) + Count(s[1..], p)
  }

  lemma {:induction false} CountIsFilterLength<T>(s: seq<T>, p: T -> bool)
    ensures Count(s, p) == |Filter(s, p)|
  {
    if s != [] {
      CountIsFilterLength(s[1..], p);
    }
  }
}
