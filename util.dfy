/** Shared helpers: an optional value, the sum that `Array.prototype.reduce` computes,
    and the few string operations of JavaScript that the components use
    (`String(n)`, `padStart(2, '0')`, `split`, `parseInt`). */
module Util {

  datatype Option<T> = None | Some(value: T)

  // ---------------------------------------------------------------------------
  // xs.reduce((sum, x) => sum + f(x), acc)
  // ---------------------------------------------------------------------------

  /** The left fold `xs.reduce((sum, x) => sum + f(x), acc)`, element by element from the front. */
  function Reduce<T>(xs: seq<T>, f: T -> int, acc: int): int
    decreases |xs|
  {
    if xs == [] then acc else Reduce(xs[1..], f, acc + f(xs[0]))
  }

  /** The starting value of the fold only shifts the result. */
  lemma {:induction false} ReduceShift<T>(xs: seq<T>, f: T -> int, acc: int)
    ensures Reduce(xs, f, acc) == acc + Reduce(xs, f, 0)
    decreases |xs|
  {
    if xs != [] {
      ReduceShift(xs[1..], f, acc + f(xs[0]));
      ReduceShift(xs[1..], f, f(xs[0]));
    }
  }

  /** Folding a concatenation folds the second part from where the first one stopped. */
  lemma {:induction false} ReduceAppend<T>(xs: seq<T>, ys: seq<T>, f: T -> int, acc: int)
    ensures Reduce(xs + ys, f, acc) == Reduce(ys, f, Reduce(xs, f, acc))
    decreases |xs|
  {
    if xs != [] {
      assert (xs + ys)[1..] == xs[1..] + ys;
      ReduceAppend(xs[1..], ys, f, acc + f(xs[0]));
    } else {
      assert xs + ys == ys;
    }
  }

  /** Appending one element adds exactly its contribution. */
  lemma ReduceSnoc<T>(xs: seq<T>, x: T, f: T -> int, acc: int)
    ensures Reduce(xs + [x], f, acc) == Reduce(xs, f, acc) + f(x)
  {
    ReduceAppend(xs, [x], f, acc);
  }

  /** The sum of a concatenation is the sum of the sums. */
  lemma ReduceSplit<T>(xs: seq<T>, ys: seq<T>, f: T -> int)
    ensures Reduce(xs + ys, f, 0) == Reduce(xs, f, 0) + Reduce(ys, f, 0)
  {
    ReduceAppend(xs, ys, f, 0);
    ReduceShift(ys, f, Reduce(xs, f, 0));
  }

  /** Two lists whose elements contribute the same, position by position, have the same sum. */
  lemma {:induction false} ReducePointwise<T, U>(xs: seq<T>, f: T -> int, ys: seq<U>, g: U -> int, acc: int)
    requires |xs| == |ys|
    requires forall i :: 0 <= i < |xs| ==> f(xs[i]) == g(ys[i])
    ensures Reduce(xs, f, acc) == Reduce(ys, g, acc)
    decreases |xs|
  {
    if xs != [] {
      assert f(xs[0]) == g(ys[0]);
      ReducePointwise(xs[1..], f, ys[1..], g, acc + f(xs[0]));
    }
  }

  /** A sum of contributions bounded below, position by position, is bounded below. */
  lemma {:induction false} ReduceMonotone<T>(xs: seq<T>, f: T -> int, g: T -> int, acc: int)
    requires forall i :: 0 <= i < |xs| ==> f(xs[i]) <= g(xs[i])
    ensures Reduce(xs, f, acc) <= Reduce(xs, g, acc)
    decreases |xs|
  {
    if xs != [] {
      assert f(xs[0]) <= g(xs[0]);
      ReduceMonotone(xs[1..], f, g, acc + f(xs[0]));
      ReduceShift(xs[1..], g, acc + f(xs[0]));
      ReduceShift(xs[1..], g, acc + g(xs[0]));
    }
  }

  /** Adding contributions that are never negative never lowers the running sum. */
  lemma {:induction false} ReduceAtLeastStart<T>(xs: seq<T>, f: T -> int, acc: int)
    requires forall i :: 0 <= i < |xs| ==> f(xs[i]) >= 0
    ensures Reduce(xs, f, acc) >= acc
    decreases |xs|
  {
    if xs != [] {
      assert f(xs[0]) >= 0;
      ReduceAtLeastStart(xs[1..], f, acc + f(xs[0]));
    }
  }

  /** The sum does not depend on the order of the elements. */
  lemma {:induction false} ReducePermutation<T>(xs: seq<T>, ys: seq<T>, f: T -> int)
    requires multiset(xs) == multiset(ys)
    ensures Reduce(xs, f, 0) == Reduce(ys, f, 0)
    decreases |xs|
  {
    if xs == [] {
      assert |ys| == |multiset(ys)| == 0;
    } else {
      var x := xs[0];
      assert x in multiset(ys);
      var j :| 0 <= j < |ys| && ys[j] == x;
      var rest := ys[..j] + ys[j + 1..];
      assert ys == ys[..j] + [x] + ys[j + 1..];
      assert xs == [x] + xs[1..];
      assert multiset(xs[1..]) == multiset(rest) by {
        calc {
          multiset(ys);
          multiset(ys[..j] + [x] + ys[j + 1..]);
          multiset(ys[..j]) + multiset([x]) + multiset(ys[j + 1..]);
          multiset([x]) + multiset(rest);
        }
        calc {
          multiset(xs);
          multiset([x] + xs[1..]);
          multiset([x]) + multiset(xs[1..]);
        }
        assert multiset(xs[1..]) == multiset(xs) - multiset([x]);
        assert multiset(rest) == multiset(ys) - multiset([x]);
      }
      ReducePermutation(xs[1..], rest, f);
      ReduceSplit([x], xs[1..], f);
      ReduceSplit(ys[..j] + [x], ys[j + 1..], f);
      ReduceSplit(ys[..j], [x], f);
      ReduceSplit(ys[..j], ys[j + 1..], f);
    }
  }

  // ---------------------------------------------------------------------------
  // Decimal strings: `String(n)`, `padStart(2, '0')` and `parseInt`
  // ---------------------------------------------------------------------------

  predicate IsDigit(c: char) { '0' <= c <= '9' }

  predicate AllDigits(s: string) { forall i :: 0 <= i < |s| ==> IsDigit(s[i]) }

  function DigitChar(d: nat): (c: char)
    requires d < 10
    ensures IsDigit(c)
  {
    ('0' as int + d) as char
  }

  /** `String(n)` for a non-negative integer: its decimal digits, most significant first. */
  function NatToString(n: nat): (s: string)
    ensures |s| >= 1 && AllDigits(s)
    ensures n < 10 <==> |s| == 1
  {
    if n < 10 then [DigitChar(n)] else NatToString(n / 10) + [DigitChar(n % 10)]
  }

  /** `String(n)` for any integer: a minus sign in front of a negative number. */
  function IntToString(n: int): string
  {
    if n < 0 then "-" + NatToString(-n) else NatToString(n)
  }

  /** `s.padStart(2, '0')`. */
  function PadTwo(s: string): (r: string)
    ensures |s| >= 2 ==> r == s
    ensures |s| < 2 ==> |r| == 2 && r[2 - |s|..] == s && forall i :: 0 <= i < 2 - |s| ==> r[i] == '0'
    decreases 2 - |s|
  {
    if |s| >= 2 then s else PadTwo("0" + s)
  }

  /** The value of a string of decimal digits, read from the left. */
  function DigitsValue(s: string): nat
    requires AllDigits(s)
  {
    if s == [] then 0 else DigitsValue(s[..|s| - 1]) * 10 + (s[|s| - 1] as int - '0' as int)
  }

  /** Reading back the decimal digits of `n` gives `n`. */
  lemma {:induction false} DigitsValueOfNatToString(n: nat)
    ensures DigitsValue(NatToString(n)) == n
  {
    if n >= 10 {
      var s := NatToString(n);
      assert s[..|s| - 1] == NatToString(n / 10);
      DigitsValueOfNatToString(n / 10);
    }
  }

  /** Distinct numbers have distinct decimal strings. */
  lemma NatToStringInjective(a: nat, b: nat)
    requires NatToString(a) == NatToString(b)
    ensures a == b
  {
    DigitsValueOfNatToString(a);
    DigitsValueOfNatToString(b);
  }

  /** The longest prefix of `s` made of decimal digits. */
  function LeadingDigits(s: string): (p: string)
    ensures AllDigits(p) && |p| <= |s| && p == s[..|p|]
    ensures |p| < |s| ==> !IsDigit(s[|p|])
  {
    if s == [] || !IsDigit(s[0]) then [] else [s[0]] + LeadingDigits(s[1..])
  }

  /** `parseInt(s)` on a string of the form the components build: the value of the leading
      decimal digits, or `None` (JavaScript's NaN) when there are none. */
  function ParseInt(s: string): Option<int>
  {
    var p := LeadingDigits(s);
    if p == [] then None else Some(DigitsValue(p))
  }

  /** The digits in front of a non-digit (or of the end) are exactly the leading digits. */
  lemma {:induction false} LeadingDigitsOfDigitsThen(p: string, rest: string)
    requires AllDigits(p)
    requires rest == [] || !IsDigit(rest[0])
    ensures LeadingDigits(p + rest) == p
    decreases |p|
  {
    if p != [] {
      assert (p + rest)[1..] == p[1..] + rest;
      LeadingDigitsOfDigitsThen(p[1..], rest);
    } else {
      assert p + rest == rest;
    }
  }

  /** `parseInt` reads back a number written with `String`, whatever non-digit follows it. */
  lemma ParseIntOfNatToString(n: nat, rest: string)
    requires rest == [] || !IsDigit(rest[0])
    ensures ParseInt(NatToString(n) + rest) == Some(n)
  {
    LeadingDigitsOfDigitsThen(NatToString(n), rest);
    DigitsValueOfNatToString(n);
  }

  // ---------------------------------------------------------------------------
  // s.split(sep)
  // ---------------------------------------------------------------------------

  /** `s.split(sep)` for a one-character separator: the pieces between separators, at least one. */
  function Split(s: string, sep: char): (parts: seq<string>)
    ensures |parts| >= 1
    decreases |s|
  {
    if s == [] then [""]
    else
      var rest := Split(s[1..], sep);
      if s[0] == sep then [""] + rest else [[s[0]] + rest[0]] + rest[1..]
  }

  /** The first piece is a prefix of the string and holds no separator. */
  lemma {:induction false} SplitFirst(s: string, sep: char)
    ensures Split(s, sep)[0] <= s
    ensures sep !in Split(s, sep)[0]
    decreases |s|
  {
    if s != [] && s[0] != sep {
      SplitFirst(s[1..], sep);
      assert s == [s[0]] + s[1..];
    }
  }

  /** A string without the separator is one piece. */
  lemma {:induction false} SplitNone(s: string, sep: char)
    requires sep !in s
    ensures Split(s, sep) == [s]
    decreases |s|
  {
    if s != [] {
      assert sep !in s[1..] by {
        forall i | 0 <= i < |s[1..]| ensures s[1..][i] != sep { assert s[1..][i] == s[i + 1]; }
      }
      SplitNone(s[1..], sep);
      assert s[0] != sep;
      assert [s[0]] + s[1..] == s;
    }
  }

  /** The first piece is everything before the first separator. */
  lemma {:induction false} SplitAt(a: string, sep: char, b: string)
    requires sep !in a
    ensures Split(a + [sep] + b, sep) == [a] + Split(b, sep)
    decreases |a|
  {
    if a == [] {
      assert a + [sep] + b == [sep] + b;
      assert ([sep] + b)[1..] == b;
    } else {
      assert (a + [sep] + b)[1..] == a[1..] + [sep] + b;
      assert sep !in a[1..] by {
        forall i | 0 <= i < |a[1..]| ensures a[1..][i] != sep { assert a[1..][i] == a[i + 1]; }
      }
      SplitAt(a[1..], sep, b);
      assert [a[0]] + a[1..] == a;
    }
  }

  // ---------------------------------------------------------------------------
  // Order kept by filter
  // ---------------------------------------------------------------------------

  /** `a` keeps some of the entries of `b`, in their order. */
  predicate IsSubsequence<T(==)>(a: seq<T>, b: seq<T>)
    decreases |b|
  {
    if a == [] then true
    else if b == [] then false
    else if a[0] == b[0] then IsSubsequence(a[1..], b[1..])
    else IsSubsequence(a, b[1..])
  }
}
