/** The JavaScript built-ins the core relies on, stated on `seq<char>`:
    `String.prototype.split` on one character, `trim`, ASCII `toUpperCase`,
    `Array.prototype.slice` with negative indices, `filter`, `reverse`, and
    `parseInt` without a radix. */
module JsText {
  import opened Wrappers
  import opened Decimal

  /** A string-or-absent value that JavaScript treats as true: present and non-empty. */
  predicate Truthy(v: Option<string>) {
    v.Some? && v.value != ""
  }

  /** ECMAScript WhiteSpace and LineTerminator code points: what `trim`
      removes and what `parseInt` skips. */
  predicate IsJsWhiteSpace(c: char) {
    c == '\t' || c == '\n' || c == '\U{B}' || c == '\U{C}' || c == '\r' || c == ' '
    || c == '\U{A0}' || c == '\U{1680}' || ('\U{2000}' <= c <= '\U{200A}')
    || c == '\U{2028}' || c == '\U{2029}' || c == '\U{202F}' || c == '\U{205F}'
    || c == '\U{3000}' || c == '\U{FEFF}'
  }

  /** `s.trim()` is the empty string (falsy) exactly when every character is white space. */
  predicate IsBlank(s: string) {
    forall i :: 0 <= i < |s| ==> IsJsWhiteSpace(s[i])
  }

  /** The number of white-space characters `s` starts with. */
  function LeadingBlank(s: string): (k: nat)
    ensures k <= |s|
    ensures forall i :: 0 <= i < k ==> IsJsWhiteSpace(s[i])
    ensures k < |s| ==> !IsJsWhiteSpace(s[k])
  {
    if s != [] && IsJsWhiteSpace(s[0]) then 1 + LeadingBlank(s[1..]) else 0
  }

  /** The length of `s` without the white-space characters it ends with. */
  function TrailingStart(s: string): (k: nat)
    ensures k <= |s|
    ensures forall i :: k <= i < |s| ==> IsJsWhiteSpace(s[i])
    ensures 0 < k ==> !IsJsWhiteSpace(s[k - 1])
  {
    if s != [] && IsJsWhiteSpace(s[|s| - 1]) then TrailingStart(s[..|s| - 1]) else |s|
  }

  function TrimStart(s: string): (r: string)
    ensures |r| <= |s| && r == s[|s| - |r|..]
    ensures r == [] || !IsJsWhiteSpace(r[0])
    ensures IsBlank(s[..|s| - |r|])
    ensures r == [] <==> IsBlank(s)
    ensures forall c :: c in r ==> c in s
  {
    s[LeadingBlank(s)..]
  }

  function TrimEnd(s: string): (r: string)
    ensures |r| <= |s| && r == s[..|r|]
    ensures r == [] || !IsJsWhiteSpace(r[|r| - 1])
    ensures IsBlank(s[|r|..])
    ensures r == [] <==> IsBlank(s)
    ensures forall c :: c in r ==> c in s
  {
    s[..TrailingStart(s)]
  }

  /** A string with no white space at either end. */
  predicate IsTrimmed(s: string) {
    s == [] || (!IsJsWhiteSpace(s[0]) && !IsJsWhiteSpace(s[|s| - 1]))
  }

  /** `s.trim()`: `s` with leading and trailing white space removed. */
  function Trim(s: string): (r: string)
    ensures |r| <= |s|
    ensures IsTrimmed(r)
    ensures r == [] <==> IsBlank(s)
    ensures forall c :: c in r ==> c in s
    // the result is the stretch of `s` that follows its leading white space,
    // and only white space comes after it
    ensures LeadingBlank(s) + |r| <= |s| && r == s[LeadingBlank(s)..LeadingBlank(s) + |r|]
    ensures IsBlank(s[..LeadingBlank(s)]) && IsBlank(s[LeadingBlank(s) + |r|..])
  {
    var t := TrimStart(s);
    var r := TrimEnd(t);
    TrimMiddle(s, LeadingBlank(s), t, r);
    r
  }

  /** A prefix `r` of the part `t` of `s` after its first `a` characters is
      the slice `s[a..a + |r|]`, and what follows it in `t` follows it in `s`. */
  lemma TrimMiddle(s: string, a: nat, t: string, r: string)
    requires a <= |s| && t == s[a..]
    requires |r| <= |t| && r == t[..|r|] && IsBlank(t[|r|..])
    ensures a + |r| <= |s| && r == s[a..a + |r|] && IsBlank(s[a + |r|..])
  {
    assert t[|r|..] == s[a + |r|..];
  }

  /** `s.map(f)`. */
  function Map<A, B>(s: seq<A>, f: A -> B): (r: seq<B>)
    ensures |r| == |s|
    ensures forall i :: 0 <= i < |s| ==> r[i] == f(s[i])
  {
    if s == [] then [] else [f(s[0])] + Map(s[1..], f)
  }

  /** `s.split(sep)` for a one-character separator: never empty; `""` gives `[""]`. */
  function Split(s: string, sep: char): (parts: seq<string>)
    ensures |parts| >= 1
    ensures forall i :: 0 <= i < |parts| ==> sep !in parts[i]
  {
    if s == [] then [[]]
    else
      var rest := Split(s[1..], sep);
      if s[0] == sep then [[]] + rest else [[s[0]] + rest[0]] + rest[1..]
  }

  /** `parts.join(sep)`. */
  function Join(parts: seq<string>, sep: char): string
    requires |parts| >= 1
  {
    if |parts| == 1 then parts[0] else parts[0] + [sep] + Join(parts[1..], sep)
  }

  /** Splitting then joining on the same character gives the input back. */
  lemma {:induction false} JoinSplit(s: string, sep: char)
    ensures Join(Split(s, sep), sep) == s
  {
    if s != [] {
      var rest := Split(s[1..], sep);
      JoinSplit(s[1..], sep);
      if s[0] != sep {
        if |rest| > 1 {
          assert ([[s[0]] + rest[0]] + rest[1..])[1..] == rest[1..];
        }
      }
    }
  }

  /** Splitting at a separator splits the part before it and the part after it. */
  lemma {:induction false} SplitAppend(a: string, b: string, sep: char)
    ensures Split(a + [sep] + b, sep) == Split(a, sep) + Split(b, sep)
  {
    var s := a + [sep] + b;
    if a == [] {
      assert s[0] == sep && s[1..] == b;
    } else {
      assert s[0] == a[0] && s[1..] == a[1..] + [sep] + b;
      SplitAppend(a[1..], b, sep);
    }
  }

  /** A string without the separator splits into itself alone. */
  lemma {:induction false} SplitWithoutSeparator(s: string, sep: char)
    requires sep !in s
    ensures Split(s, sep) == [s]
  {
    if s != [] {
      assert sep !in s[1..];
      SplitWithoutSeparator(s[1..], sep);
      assert [s[0]] + s[1..] == s;
    }
  }

  /** `s.filter(p)`. */
  function Filter<T>(s: seq<T>, p: T -> bool): (r: seq<T>)
    ensures |r| <= |s|
    ensures forall i :: 0 <= i < |r| ==> p(r[i]) && r[i] in s
    ensures forall x :: x in s && p(x) ==> x in r
  {
    if s == [] then []
    else
      var rest := Filter(s[1..], p);
      if p(s[0]) then [s[0]] + rest else rest
  }

  /** Filtering a sequence whose elements all match gives it back. */
  lemma {:induction false} FilterAll<T>(s: seq<T>, p: T -> bool)
    requires forall i :: 0 <= i < |s| ==> p(s[i])
    ensures Filter(s, p) == s
  {
    if s != [] {
      FilterAll(s[1..], p);
    }
  }

  /** `s.unshift(x)` followed by `s = s.slice(0, cap)` when `s` grew past `cap`:
      the newest element first, then the previous ones in order, the oldest
      dropped when the cap is exceeded. */
  function BoundedPrepend<T>(s: seq<T>, x: T, cap: nat): (r: seq<T>)
    requires cap >= 1
    ensures |r| == if |s| + 1 <= cap then |s| + 1 else cap
    ensures r[0] == x
    ensures r[1..] == s[..|r| - 1]
  {
    var u := [x] + s;
    assert u[1..] == s;
    if |u| > cap then u[..cap] else u
  }

  /** Prepending each element of `xs` in turn, under the cap. */
  function BoundedPrependAll<T>(s: seq<T>, xs: seq<T>, cap: nat): seq<T>
    requires cap >= 1
    decreases |xs|
  {
    if xs == [] then s else BoundedPrependAll(BoundedPrepend(s, xs[0], cap), xs[1..], cap)
  }

  /** After prepending `xs` one by one, the buffer holds the newest `cap`
      elements, the last prepended first: the oldest are evicted first. */
  lemma {:induction false} BoundedPrependAllNewestFirst<T>(s: seq<T>, xs: seq<T>, cap: nat)
    requires cap >= 1 && |s| <= cap
    decreases |xs|
    ensures var all := Reverse(xs) + s;
            BoundedPrependAll(s, xs, cap) == all[..if |all| <= cap then |all| else cap]
  {
    if xs != [] {
      var u := [xs[0]] + s;
      var s' := BoundedPrepend(s, xs[0], cap);
      var rest := Reverse(xs[1..]);
      BoundedPrependAllNewestFirst(s', xs[1..], cap);
      assert s' == u[..|s'|] by {
        assert u[1..] == s;
      }
      assert Reverse(xs) + s == rest + u by {
        assert Reverse(xs) == rest + [xs[0]];
      }
      NewestFirstStep(rest, u, s', cap, BoundedPrependAll(s', xs[1..], cap));
    }
  }

  /** One step of the induction above: cutting `u` to the cap before or
      after putting `rest` in front keeps the same first `cap` elements. */
  lemma NewestFirstStep<T>(rest: seq<T>, u: seq<T>, s': seq<T>, cap: nat, h: seq<T>)
    requires |s'| == (if |u| <= cap then |u| else cap) && s' == u[..|s'|]
    requires h == (rest + s')[..if |rest| + |s'| <= cap then |rest| + |s'| else cap]
    ensures h == (rest + u)[..if |rest| + |u| <= cap then |rest| + |u| else cap]
  {
    var m := if |rest| + |u| <= cap then |rest| + |u| else cap;
    assert forall i :: 0 <= i < m ==> (rest + s')[i] == (rest + u)[i];
  }

  /** Filtering distributes over concatenation, so it keeps the input's order. */
  lemma {:induction false} FilterAppend<T>(s: seq<T>, t: seq<T>, p: T -> bool)
    ensures Filter(s + t, p) == Filter(s, p) + Filter(t, p)
  {
    if s == [] {
      assert s + t == t;
    } else {
      var u := s + t;
      assert u[0] == s[0] && u[1..] == s[1..] + t;
      FilterAppend(s[1..], t, p);
    }
  }

  /** Filtering keeps every matching element as often as it occurs and drops the others. */
  lemma {:induction false} FilterCount<T>(s: seq<T>, p: T -> bool, x: T)
    ensures multiset(Filter(s, p))[x] == if p(x) then multiset(s)[x] else 0
  {
    if s != [] {
      FilterCount(s[1..], p, x);
      assert s == [s[0]] + s[1..];
    }
  }

  /** `s.reverse()`. */
  function Reverse<T>(s: seq<T>): (r: seq<T>)
    ensures |r| == |s|
    ensures forall i :: 0 <= i < |s| ==> r[i] == s[|s| - 1 - i]
  {
    if s == [] then [] else Reverse(s[1..]) + [s[0]]
  }

  /** The end index `s.slice(0, end)` stops at: a negative `end` counts from the back. */
  function SliceIndex(len: nat, k: int): (i: nat)
    ensures i <= len
    ensures k >= 0 ==> i == if k < len then k else len
    ensures k < 0 ==> i == if len + k > 0 then len + k else 0
  {
    if k < 0 then (if len + k > 0 then len + k else 0)
    else if k < len then k else len
  }

  /** `s.slice(0, end)`. */
  function SliceHead<T>(s: seq<T>, end: int): seq<T> {
    s[..SliceIndex(|s|, end)]
  }

  /** `s.slice(start)`. */
  function SliceTail<T>(s: seq<T>, start: int): seq<T> {
    s[SliceIndex(|s|, start)..]
  }

  /** `s.startsWith(p)`. */
  predicate StartsWith(s: string, p: string) {
    |p| <= |s| && s[..|p|] == p
  }

  /** `toUpperCase` on ASCII letters; other characters are kept. */
  function UpperChar(c: char): char {
    if 'a' <= c <= 'z' then (c as int - 32) as char else c
  }

  function ToUpperAscii(s: string): (r: string)
    ensures |r| == |s|
    ensures forall i :: 0 <= i < |s| ==> r[i] == UpperChar(s[i])
  {
    if s == [] then [] else [UpperChar(s[0])] + ToUpperAscii(s[1..])
  }

  lemma ToUpperAsciiIdempotent(s: string)
    ensures ToUpperAscii(ToUpperAscii(s)) == ToUpperAscii(s)
  {
    var u := ToUpperAscii(s);
    assert forall i :: 0 <= i < |u| ==> UpperChar(u[i]) == u[i];
  }

  /** `s.replace(/c/g, '')`: every occurrence of `c` removed. */
  function RemoveChar(s: string, c: char): (r: string)
    ensures c !in r && |r| <= |s|
    ensures forall x :: x != c ==> multiset(r)[x] == multiset(s)[x]
  {
    if s == [] then []
    else
      assert s == [s[0]] + s[1..];
      (if s[0] == c then [] else [s[0]]) + RemoveChar(s[1..], c)
  }

  /** Removing `c` is filtering out `c`: every other character stays, in order. */
  lemma {:induction false} RemoveCharIsFilter(s: string, c: char, keep: char -> bool)
    requires forall x :: keep(x) == (x != c)
    ensures RemoveChar(s, c) == Filter(s, keep)
  {
    if s != [] {
      RemoveCharIsFilter(s[1..], c, keep);
    }
  }

  lemma {:induction false} RemoveAbsentChar(s: string, c: char)
    requires c !in s
    ensures RemoveChar(s, c) == s
  {
    if s != [] {
      assert c !in s[1..];
      RemoveAbsentChar(s[1..], c);
    }
  }

  lemma {:induction false} RemoveCharAppend(a: string, b: string, c: char)
    ensures RemoveChar(a + b, c) == RemoveChar(a, c) + RemoveChar(b, c)
  {
    if a != [] {
      assert (a + b)[1..] == a[1..] + b;
      RemoveCharAppend(a[1..], b, c);
    } else {
      assert a + b == b;
    }
  }

  // ---------------------------------------------------------------------
  // parseInt(string) with no radix argument
  // ---------------------------------------------------------------------

  /** The longest prefix of `s` made of digits of `radix`. */
  function DigitPrefix(s: string, radix: nat): (r: string)
    ensures |r| <= |s| && r == s[..|r|]
    ensures forall i :: 0 <= i < |r| ==> IsRadixDigit(r[i], radix)
    ensures |r| < |s| ==> !IsRadixDigit(s[|r|], radix)
  {
    if s != [] && IsRadixDigit(s[0], radix) then [s[0]] + DigitPrefix(s[1..], radix) else []
  }

  /** `parseInt(s)`: `None` stands for NaN. Leading white space is skipped, one
      sign is read, a `0x`/`0X` prefix selects radix 16, and the longest run of
      digits that follows is the magnitude; an empty run is NaN. */
  function ParseInt(s: string): Option<int> {
    var t := TrimStart(s);
    var sign := if t != [] && t[0] == '-' then -1 else 1;
    var u := if t != [] && (t[0] == '-' || t[0] == '+') then t[1..] else t;
    var hex := |u| >= 2 && u[0] == '0' && (u[1] == 'x' || u[1] == 'X');
    var radix := if hex then 16 else 10;
    var digits := DigitPrefix(if hex then u[2..] else u, radix);
    if digits == [] then None else Some(sign * RadixValue(digits, radix))
  }

  /** `parseInt(h) || 0` for a header that may be absent (`undefined`). */
  function ParseIntOrZero(h: Option<string>): int {
    if h.None? then 0
    else match ParseInt(h.value)
      case None => 0
      case Some(n) => n
  }

  /** A non-empty string of decimal digits reads as its decimal value. */
  lemma ParseIntDigits(s: string)
    requires s != [] && AllDigits(s)
    ensures ParseInt(s) == Some(RadixValue(s, 10))
  {
    assert IsDigit(s[0]) && !IsJsWhiteSpace(s[0]);
    assert LeadingBlank(s) == 0;
    assert TrimStart(s) == s;
    assert |s| >= 2 ==> IsDigit(s[1]);
    assert DigitPrefix(s, 10) == s by {
      DigitPrefixAll(s, 10);
    }
  }

  /** A header that is a plain decimal number reads as that number. */
  lemma ParseIntOrZeroDecimal(n: nat)
    ensures ParseIntOrZero(Some(NatToDecimal(n))) == n
  {
    ParseIntDigits(NatToDecimal(n));
    NatToDecimalValue(n);
  }

  lemma {:induction false} DigitPrefixAll(s: string, radix: nat)
    requires forall i :: 0 <= i < |s| ==> IsRadixDigit(s[i], radix)
    ensures DigitPrefix(s, radix) == s
  {
    if s != [] {
      DigitPrefixAll(s[1..], radix);
    }
  }

  /** A header with no digit where the number should start (after white space
      and a sign) reads as 0. */
  lemma ParseIntOrZeroNonNumeric(h: string)
    requires var t := TrimStart(h);
             var u := if t != [] && (t[0] == '-' || t[0] == '+') then t[1..] else t;
             u == [] || !IsDigit(u[0])
    ensures ParseIntOrZero(Some(h)) == 0
  {
    var t := TrimStart(h);
    var u := if t != [] && (t[0] == '-' || t[0] == '+') then t[1..] else t;
    if u != [] {
      assert DigitValue(u[0]) >= 10;
    }
  }
}
