/** Small value types and string helpers shared by every module of the model. */
module Common {

  /** `undefined` / `None` / `null` versus a present value. */
  datatype Option<+T> = None | Some(value: T) {
    function GetOr(default: T): T {
      if Some? then value else default
    }
  }

  /** JavaScript's `x || d` on an optional number: a missing value and 0 are falsy. */
  function NumberOr(x: Option<real>, default: real): (r: real)
    ensures x.Some? && x.value != 0.0 ==> r == x.value
    ensures x.None? || x.value == 0.0 ==> r == default
  {
    if x.Some? && x.value != 0.0 then x.value else default
  }

  /** The outcome of an IEEE-754 division as JavaScript and numpy produce it:
      a finite value, an infinity, or NaN (0/0). */
  datatype Num = Finite(r: real) | PosInf | NegInf | NaN

  /** `a / b` on doubles, with exact real arithmetic for the finite case. */
  function JsDiv(a: real, b: real): (n: Num)
    ensures b != 0.0 <==> n.Finite?
    ensures b != 0.0 ==> IsRatio(n.r, a, b)
  {
    if b != 0.0 then Finite(a / b)
    else if a > 0.0 then PosInf
    else if a < 0.0 then NegInf
    else NaN
  }

  /** `q` is the ratio of `a` to `b`: `q * b == a`. */
  predicate IsRatio(q: real, a: real, b: real) {
    q * b == a
  }

  /** `(a / b) * 100`, the percentage of `a` in `b`. */
  function Percent(a: real, b: real): Num {
    JsDiv(a * 100.0, b)
  }

  /** The IEEE comparison `n >= x` for a finite `x`: NaN compares false. */
  predicate AtLeast(n: Num, x: real) {
    match n
    case Finite(v) => v >= x
    case PosInf => true
    case NegInf => false
    case NaN => false
  }

  function Abs(x: real): real { if x < 0.0 then -x else x }
  function Max(a: real, b: real): real { if a >= b then a else b }
  function Min(a: real, b: real): real { if a <= b then a else b }

  /** |a·b·c| for a positive factor `c`. */
  lemma AbsMul3(a: real, b: real, c: real)
    requires c > 0.0
    ensures Abs(a * b * c) == Abs(a) * Abs(b) * c
  {
    if a >= 0.0 && b >= 0.0 {
      assert a * b >= 0.0;
    } else if a >= 0.0 {
      assert a * b <= 0.0;
    } else if b >= 0.0 {
      assert a * b <= 0.0;
    } else {
      assert a * b > 0.0;
    }
  }

  /** The sign of a·b·c for positive `b` and `c` is the sign of `a`. */
  lemma SignOfProduct(a: real, b: real, c: real)
    requires c > 0.0
    ensures b > 0.0 ==> (a * b * c > 0.0 <==> a > 0.0)
  {
    if b <= 0.0 {
    } else if a > 0.0 {
      assert a * b > 0.0;
      assert a * b * c > 0.0;
    } else {
      assert a * b <= 0.0;
      assert a * b * c <= 0.0;
    }
  }

  // ---------------------------------------------------------------------------
  // Time

  /** Python's naive datetimes are counted here in whole seconds. */
  const SecondsPerDay: int := 86400

  /** `t.date()`: the calendar day of a time in seconds (floor division, as Python's). */
  function DayOf(t: int): int {
    t / SecondsPerDay
  }

  /** The sum of a list of values, accumulated from the front. */
  function Sum(xs: seq<real>): real
  {
    if |xs| == 0 then 0.0 else Sum(xs[..|xs| - 1]) + xs[|xs| - 1]
  }

  lemma SumAppend(xs: seq<real>, x: real)
    ensures Sum(xs + [x]) == Sum(xs) + x
  {
    assert (xs + [x])[..|xs|] == xs;
  }

  /** Summing is monotone in every element. */
  lemma {:induction false} SumMonotone(xs: seq<real>, ys: seq<real>)
    requires |xs| == |ys| && forall k :: 0 <= k < |xs| ==> xs[k] <= ys[k]
    ensures Sum(xs) <= Sum(ys)
  {
    if |xs| > 0 {
      SumMonotone(xs[..|xs| - 1], ys[..|ys| - 1]);
    }
  }

  /** A sum of nonnegative values is nonnegative, and zero only when every value is. */
  lemma {:induction false} SumOfNonnegatives(xs: seq<real>)
    requires forall k :: 0 <= k < |xs| ==> xs[k] >= 0.0
    ensures Sum(xs) >= 0.0
    ensures Sum(xs) == 0.0 <==> forall k :: 0 <= k < |xs| ==> xs[k] == 0.0
  {
    if |xs| > 0 {
      var init := xs[..|xs| - 1];
      SumOfNonnegatives(init);
      assert forall k :: 0 <= k < |init| ==> init[k] == xs[k];
    }
  }

  /** The largest of a nonempty list (`max(xs)`). */
  function MaxOf(xs: seq<real>): (r: real)
    requires |xs| > 0
    ensures forall k :: 0 <= k < |xs| ==> xs[k] <= r
    ensures r in xs
  {
    if |xs| == 1 then xs[0]
    else
      var m := MaxOf(xs[1..]);
      assert xs == [xs[0]] + xs[1..];
      if xs[0] >= m then xs[0] else m
  }

  /** The smallest of a nonempty list (`min(xs)`). */
  function MinOf(xs: seq<real>): (r: real)
    requires |xs| > 0
    ensures forall k :: 0 <= k < |xs| ==> r <= xs[k]
    ensures r in xs
  {
    if |xs| == 1 then xs[0]
    else
      var m := MinOf(xs[1..]);
      assert xs == [xs[0]] + xs[1..];
      if xs[0] <= m then xs[0] else m
  }

  /** The arithmetic mean, 0 for an empty list (`np.mean(xs) if xs else 0`). */
  function Mean(xs: seq<real>): real {
    if |xs| == 0 then 0.0 else Sum(xs) / |xs| as real
  }

  /** Averaging is monotone in every element. */
  lemma MeanMonotone(xs: seq<real>, ys: seq<real>)
    requires |xs| == |ys| && forall k :: 0 <= k < |xs| ==> xs[k] <= ys[k]
    ensures Mean(xs) <= Mean(ys)
  {
    SumMonotone(xs, ys);
    if |xs| > 0 {
      var n := |xs| as real;
      assert Mean(xs) * n == Sum(xs) && Mean(ys) * n == Sum(ys);
    }
  }

  /** The mean of nonnegative values is nonnegative. */
  lemma MeanOfNonnegatives(xs: seq<real>)
    requires forall k :: 0 <= k < |xs| ==> xs[k] >= 0.0
    ensures Mean(xs) >= 0.0
    ensures Mean(xs) == 0.0 <==> forall k :: 0 <= k < |xs| ==> xs[k] == 0.0
  {
    SumOfNonnegatives(xs);
    if |xs| > 0 {
      var n := |xs| as real;
      assert Mean(xs) * n == Sum(xs);
    }
  }

  /** Dividing by a positive number keeps the sign. */
  lemma QuotientSign(a: real, b: real)
    ensures b > 0.0 ==> (a / b > 0.0 <==> a > 0.0)
    ensures b > 0.0 ==> (a / b < 0.0 <==> a < 0.0)
  {
    if b > 0.0 {
      assert (a / b) * b == a;
    }
  }

  /** `xs.filter(keep)`. */
  function Filter<T(!new)>(xs: seq<T>, keep: T -> bool): (r: seq<T>)
    ensures |r| <= |xs|
    ensures forall x :: x in r <==> x in xs && keep(x)
  {
    if |xs| == 0 then []
    else (if keep(xs[0]) then [xs[0]] else []) + Filter(xs[1..], keep)
  }

  /** Filtering keeps the order: the filter of a concatenation is the concatenation of
      the filters. */
  lemma {:induction false} FilterAppend<T(!new)>(a: seq<T>, b: seq<T>, keep: T -> bool)
    ensures Filter(a + b, keep) == Filter(a, keep) + Filter(b, keep)
    decreases |a|
  {
    if |a| == 0 {
      assert a + b == b;
    } else {
      assert (a + b)[0] == a[0];
      assert (a + b)[1..] == a[1..] + b;
      FilterAppend(a[1..], b, keep);
    }
  }

  /** Filtering a non-empty list: the filter of all but its last element, then that
      element when it is kept. */
  lemma FilterLast<T(!new)>(xs: seq<T>, keep: T -> bool)
    requires |xs| > 0
    ensures Filter(xs, keep) == Filter(xs[..|xs| - 1], keep) + (if keep(xs[|xs| - 1]) then [xs[|xs| - 1]] else [])
  {
    var front, last := xs[..|xs| - 1], xs[|xs| - 1];
    assert front + [last] == xs;
    FilterAppend(front, [last], keep);
    assert Filter([last], keep) == (if keep(last) then [last] else []) + Filter([], keep);
  }

  /** A filter that keeps every element changes nothing. */
  lemma {:induction false} FilterKeepsAll<T(!new)>(xs: seq<T>, keep: T -> bool)
    requires forall k :: 0 <= k < |xs| ==> keep(xs[k])
    ensures Filter(xs, keep) == xs
    decreases |xs|
  {
    if |xs| > 0 {
      FilterKeepsAll(xs[1..], keep);
      assert xs == [xs[0]] + xs[1..];
    }
  }

  // ---------------------------------------------------------------------------
  // Strings

  /** `s.includes(sub)` / Python's `sub in s`. */
  predicate Contains(s: string, sub: string) {
    exists i :: 0 <= i <= |s| - |sub| && sub <= s[i..]
  }

  lemma ContainsAt(s: string, sub: string, i: nat)
    requires i + |sub| <= |s| && s[i..i + |sub|] == sub
    ensures Contains(s, sub)
  {
    assert sub <= s[i..];
  }

  /** A string in which the first character of `sub` never occurs does not contain `sub`. */
  lemma NotContainsWithoutFirstChar(s: string, sub: string)
    requires |sub| > 0 && forall i :: 0 <= i < |s| ==> s[i] != sub[0]
    ensures !Contains(s, sub)
  {
    forall i | 0 <= i <= |s| - |sub|
      ensures !(sub <= s[i..])
    {
      assert s[i..][0] == s[i];
    }
  }

  /** `parts.join(sep)`. */
  function Join(parts: seq<string>, sep: string): string {
    if |parts| == 0 then ""
    else if |parts| == 1 then parts[0]
    else parts[0] + sep + Join(parts[1..], sep)
  }

  /** The position of the first `c` in `s`. */
  function IndexOf(s: string, c: char): (i: nat)
    requires c in s
    ensures i < |s| && s[i] == c && c !in s[..i]
  {
    if s[0] == c then 0
    else
      assert s == [s[0]] + s[1..];
      var i := 1 + IndexOf(s[1..], c);
      assert s[..i] == [s[0]] + s[1..][..i - 1];
      i
  }

  /** `s.split(sep)` with a one-character separator. */
  function Split(s: string, sep: char): (parts: seq<string>)
    ensures |parts| >= 1
    decreases |s|
  {
    if sep !in s then [s]
    else
      var i := IndexOf(s, sep);
      [s[..i]] + Split(s[i + 1..], sep)
  }

  /** No part of a split holds the separator. */
  lemma {:induction false} SplitPartsAvoidSep(s: string, sep: char)
    ensures forall k :: 0 <= k < |Split(s, sep)| ==> sep !in Split(s, sep)[k]
    decreases |s|
  {
    if sep in s {
      var i := IndexOf(s, sep);
      SplitPartsAvoidSep(s[i + 1..], sep);
    }
  }

  /** Splitting undoes joining when no part contains the separator. */
  lemma {:induction false} SplitJoin(parts: seq<string>, sep: char)
    requires |parts| > 0
    requires forall k :: 0 <= k < |parts| ==> sep !in parts[k]
    ensures Split(Join(parts, [sep]), sep) == parts
  {
    if |parts| > 1 {
      var rest := Join(parts[1..], [sep]);
      var s := Join(parts, [sep]);
      assert s == parts[0] + [sep] + rest;
      assert s[|parts[0]|] == sep;
      var i := IndexOf(s, sep);
      assert i == |parts[0]|;
      assert s[..i] == parts[0];
      assert s[i + 1..] == rest;
      SplitJoin(parts[1..], sep);
      assert parts == [parts[0]] + parts[1..];
    }
  }

  /** The decimal digits of a natural number, as `String(n)` renders it. */
  function NatToString(n: nat): (s: string)
    ensures |s| >= 1
    ensures forall i :: 0 <= i < |s| ==> '0' <= s[i] <= '9'
    ensures s[0] == '0' ==> n == 0
    decreases n
  {
    if n < 10 then [DigitChar(n)] else NatToString(n / 10) + [DigitChar(n % 10)]
  }

  function DigitChar(d: nat): (c: char)
    requires d < 10
    ensures '0' <= c <= '9'
  {
    ['0', '1', '2', '3', '4', '5', '6', '7', '8', '9'][d]
  }

  function DigitValue(c: char): nat
    requires '0' <= c <= '9'
  {
    (c as int - '0' as int) as nat
  }

  /** The natural number a string of decimal digits denotes. */
  function ParseNat(s: string): nat
    requires forall i :: 0 <= i < |s| ==> '0' <= s[i] <= '9'
  {
    if |s| == 0 then 0 else 10 * ParseNat(s[..|s| - 1]) + DigitValue(s[|s| - 1])
  }

  lemma {:induction false} ParseNatToString(n: nat)
    ensures ParseNat(NatToString(n)) == n
    decreases n
  {
    var s := NatToString(n);
    if n < 10 {
      assert DigitValue(DigitChar(n)) == n;
    } else {
      ParseNatToString(n / 10);
      assert s[..|s| - 1] == NatToString(n / 10);
      assert DigitValue(DigitChar(n % 10)) == n % 10;
    }
  }

  /** Distinct numbers are rendered as distinct strings. */
  lemma NatToStringInjective(m: nat, n: nat)
    requires NatToString(m) == NatToString(n)
    ensures m == n
  {
    ParseNatToString(m);
    ParseNatToString(n);
  }
}
