/**
 Vocabulary shared by every module: identifiers, bytes, results, the order in which
 Python compares strings, list comprehensions, and zero-padded decimal numbers.
 */
module Basics {

  type Id = string
  type Byte = b: int | 0 <= b < 256
  type Bytes = seq<Byte>

  datatype Option<+T> = None | Some(value: T)

  datatype Result<+T, +E> = Ok(value: T) | Err(error: E) {
    predicate IsFailure() {
      Err?
    }

    function PropagateFailure<U>(): Result<U, E>
      requires Err?
    {
      Err(error)
    }

    function Extract(): T
      requires Ok?
    {
      value
    }
  }

  // ---------- Lexicographic order on strings ----------

  predicate LexLeq(a: string, b: string) {
    a == "" || (b != "" && (a[0] < b[0] || (a[0] == b[0] && LexLeq(a[1..], b[1..]))))
  }

  lemma LexTotal(a: string, b: string)
    ensures LexLeq(a, b) || LexLeq(b, a)
  {
    if a != "" && b != "" && a[0] == b[0] {
      LexTotal(a[1..], b[1..]);
    }
  }

  lemma {:induction false} LexAntisymmetric(a: string, b: string)
    requires LexLeq(a, b) && LexLeq(b, a)
    ensures a == b
  {
    if a != "" {
      LexAntisymmetric(a[1..], b[1..]);
      assert a == [a[0]] + a[1..] && b == [b[0]] + b[1..];
    }
  }

  lemma {:induction false} LexTransitive(a: string, b: string, c: string)
    requires LexLeq(a, b) && LexLeq(b, c)
    ensures LexLeq(a, c)
  {
    if a != "" && a[0] == b[0] == c[0] {
      LexTransitive(a[1..], b[1..], c[1..]);
    }
  }

  lemma SameBeginning(a: string, b: string, k: nat)
    requires k <= |a| && k <= |b| && a[..k] == b[..k]
    ensures k > 0 ==> a[0] == b[0]
  {
    if k > 0 {
      assert a[..k][0] == b[..k][0];
    }
  }

  /** The first difference decides, by code point; a proper beginning comes first. */
  lemma {:induction false} LexLeqMeans(a: string, b: string)
    ensures LexLeq(a, b) <==>
            a <= b || exists k :: 0 <= k < |a| && k < |b| && a[..k] == b[..k] && a[k] < b[k]
  {
    if a != "" && b != "" && a[0] == b[0] {
      LexLeqMeans(a[1..], b[1..]);
      if !(a <= b) && LexLeq(a, b) {
        var k :| 0 <= k < |a[1..]| && k < |b[1..]| && a[1..][..k] == b[1..][..k] && a[1..][k] < b[1..][k];
        assert a[..k + 1] == [a[0]] + a[1..][..k] && b[..k + 1] == [b[0]] + b[1..][..k];
      }
      if k :| 0 <= k < |a| && k < |b| && a[..k] == b[..k] && a[k] < b[k] {
        assert a[1..][..k - 1] == a[..k][1..] && b[1..][..k - 1] == b[..k][1..];
      }
    } else if a != "" && b != "" {
      assert a[..0] == b[..0];
      if k :| 0 <= k < |a| && k < |b| && a[..k] == b[..k] && a[k] < b[k] {
        SameBeginning(a, b, k);
      }
    }
  }

  // ---------- Comprehensions over sequences ----------

  function Map<T, U>(f: T -> U, xs: seq<T>): (ys: seq<U>)
    ensures |ys| == |xs| && forall i :: 0 <= i < |xs| ==> ys[i] == f(xs[i])
  {
    seq(|xs|, i requires 0 <= i < |xs| => f(xs[i]))
  }

  function Filter<T>(p: T -> bool, xs: seq<T>): (ys: seq<T>)
    ensures |ys| <= |xs|
  {
    if xs == [] then []
    else if p(xs[0]) then [xs[0]] + Filter(p, xs[1..])
    else Filter(p, xs[1..])
  }

  lemma {:induction false} FilterMember<T>(p: T -> bool, xs: seq<T>, x: T)
    ensures x in Filter(p, xs) <==> x in xs && p(x)
  {
    if xs != [] {
      FilterMember(p, xs[1..], x);
      assert xs == [xs[0]] + xs[1..];
    }
  }

  lemma FilterMembers<T>(p: T -> bool, xs: seq<T>)
    ensures forall x :: x in Filter(p, xs) <==> x in xs && p(x)
  {
    forall x ensures x in Filter(p, xs) <==> x in xs && p(x) {
      FilterMember(p, xs, x);
    }
  }

  lemma {:induction false} FilterConcat<T>(p: T -> bool, xs: seq<T>, ys: seq<T>)
    ensures Filter(p, xs + ys) == Filter(p, xs) + Filter(p, ys)
  {
    if xs == [] {
      assert xs + ys == ys;
    } else {
      assert (xs + ys)[1..] == xs[1..] + ys;
      FilterConcat(p, xs[1..], ys);
    }
  }

  lemma FilterSnoc<T>(p: T -> bool, xs: seq<T>, x: T)
    ensures Filter(p, xs + [x]) == if p(x) then Filter(p, xs) + [x] else Filter(p, xs)
  {
    FilterConcat(p, xs, [x]);
  }

  /** `at` lists, in order, exactly the places of `xs` where `p` holds. */
  ghost predicate PlacesOf<T>(p: T -> bool, xs: seq<T>, at: seq<nat>) {
    && (forall j, k :: 0 <= j < k < |at| ==> at[j] < at[k])
    && (forall k :: 0 <= k < |at| ==> at[k] < |xs| && p(xs[at[k]]))
    && (forall i: nat :: i < |xs| && p(xs[i]) ==> i in at)
  }

  lemma PlacesSnoc<T>(p: T -> bool, xs: seq<T>, x: T, at: seq<nat>)
    requires PlacesOf(p, xs, at)
    ensures PlacesOf(p, xs + [x], if p(x) then at + [|xs|] else at)
  {
    var at' := if p(x) then at + [|xs|] else at;
    forall i: nat | i < |xs + [x]| && p((xs + [x])[i]) ensures i in at' {
      if i < |xs| {
        assert p(xs[i]) && i in at;
      } else {
        assert at'[|at|] == i;
      }
    }
  }

  /** A filtered sequence has the elements that pass, each where it stood among them. */
  lemma {:induction false} FilterPlaces<T>(p: T -> bool, xs: seq<T>) returns (at: seq<nat>)
    ensures PlacesOf(p, xs, at) && |at| == |Filter(p, xs)|
    ensures forall k :: 0 <= k < |at| ==> Filter(p, xs)[k] == xs[at[k]]
    decreases |xs|
  {
    at := [];
    if xs != [] {
      var init, last := xs[..|xs| - 1], xs[|xs| - 1];
      assert xs == init + [last];
      at := FilterPlaces(p, init);
      FilterSnoc(p, init, last);
      PlacesSnoc(p, init, last, at);
      if p(last) {
        at := at + [|init|];
      }
    }
  }

  function Flatten<T>(xss: seq<seq<T>>): seq<T> {
    if xss == [] then [] else xss[0] + Flatten(xss[1..])
  }

  lemma {:induction false} FlattenConcat<T>(xss: seq<seq<T>>, yss: seq<seq<T>>)
    ensures Flatten(xss + yss) == Flatten(xss) + Flatten(yss)
  {
    if xss == [] {
      assert xss + yss == yss;
    } else {
      assert (xss + yss)[1..] == xss[1..] + yss;
      FlattenConcat(xss[1..], yss);
    }
  }

  lemma FlattenSnoc<T>(xss: seq<seq<T>>, ys: seq<T>)
    ensures Flatten(xss + [ys]) == Flatten(xss) + ys
  {
    FlattenConcat(xss, [ys]);
  }

  function Total(xs: seq<nat>): nat {
    if xs == [] then 0 else xs[0] + Total(xs[1..])
  }

  lemma {:induction false} TotalConcat(xs: seq<nat>, ys: seq<nat>)
    ensures Total(xs + ys) == Total(xs) + Total(ys)
  {
    if xs == [] {
      assert xs + ys == ys;
    } else {
      assert (xs + ys)[1..] == xs[1..] + ys;
      TotalConcat(xs[1..], ys);
    }
  }

  lemma ConcatAssociates<T>(xs: seq<T>, ys: seq<T>, zs: seq<T>)
    ensures xs + ys + zs == xs + (ys + zs)
  {
  }

  lemma SliceOfSlice<T>(xs: seq<T>, start: int, end: int, i: int, j: int)
    requires 0 <= start <= end <= |xs| && 0 <= i <= j <= end - start
    ensures xs[start..end][i..j] == xs[start + i..start + j]
  {
    var inner, direct := xs[start..end][i..j], xs[start + i..start + j];
    forall k | 0 <= k < j - i ensures inner[k] == direct[k] {
      assert inner[k] == xs[start..end][i + k] == xs[start + i + k];
    }
    assert inner == direct;
  }

  predicate NoDuplicates<T(==)>(xs: seq<T>) {
    forall i, j :: 0 <= i < j < |xs| ==> xs[i] != xs[j]
  }

  lemma {:induction false} CountNoDuplicates<T>(a: seq<T>, x: T)
    requires NoDuplicates(a)
    ensures multiset(a)[x] == if x in a then 1 else 0
  {
    if a != [] {
      assert a == [a[0]] + a[1..];
      CountNoDuplicates(a[1..], x);
    }
  }

  lemma {:induction false} FilterNoDuplicates<T>(p: T -> bool, xs: seq<T>)
    requires NoDuplicates(xs)
    ensures NoDuplicates(Filter(p, xs))
  {
    if xs != [] {
      FilterNoDuplicates(p, xs[1..]);
      FilterMember(p, xs[1..], xs[0]);
    }
  }

  lemma {:induction false} FilterCongruent<T>(p: T -> bool, q: T -> bool, xs: seq<T>)
    requires forall x :: x in xs ==> p(x) == q(x)
    ensures Filter(p, xs) == Filter(q, xs)
  {
    if xs != [] {
      FilterCongruent(p, q, xs[1..]);
    }
  }

  /** Filtering mapped elements is mapping filtered ones. */
  lemma {:induction false} FilterMap<T, U>(f: T -> U, p: U -> bool, q: T -> bool, xs: seq<T>)
    requires forall x :: x in xs ==> q(x) == p(f(x))
    ensures Filter(p, Map(f, xs)) == Map(f, Filter(q, xs))
  {
    if xs != [] {
      assert Map(f, xs)[1..] == Map(f, xs[1..]);
      FilterMap(f, p, q, xs[1..]);
      assert Map(f, [xs[0]] + Filter(q, xs[1..])) == [f(xs[0])] + Map(f, Filter(q, xs[1..]));
    }
  }

  // ---------- Zero-padded decimal numbers ----------

  const DIGITS := "0123456789"

  function Decimal(n: nat): (s: string)
    ensures s != ""
  {
    if n < 10 then [DIGITS[n]] else Decimal(n / 10) + [DIGITS[n % 10]]
  }

  function Zeros(count: nat): (s: string)
    ensures |s| == count
  {
    seq(count, _ => '0')
  }

  /** `f"{n:0{width}d}"`: at least `width` digits, more when the number needs them. */
  function Padded(n: nat, width: nat): string {
    var digits := Decimal(n);
    if |digits| < width then Zeros(width - |digits|) + digits else digits
  }

  lemma {:induction false} DecimalDigits(n: nat)
    ensures forall c :: c in Decimal(n) ==> c in DIGITS
  {
    if n >= 10 {
      DecimalDigits(n / 10);
    }
  }

  lemma PaddedDigits(n: nat, width: nat)
    ensures forall c :: c in Padded(n, width) ==> c in DIGITS
  {
    DecimalDigits(n);
    assert DIGITS[0] == '0';
  }

  /** Shorter numbers are filled up to the width, longer ones keep all their digits. */
  lemma PaddedWidth(n: nat, width: nat)
    ensures |Padded(n, width)| == if |Decimal(n)| < width then width else |Decimal(n)|
    ensures Decimal(n)[0] == '0' <==> n == 0
  {
    DecimalLeads(n);
  }

  lemma {:induction false} DecimalLeads(n: nat)
    ensures Decimal(n)[0] == '0' <==> n == 0
  {
    if n >= 10 {
      DecimalLeads(n / 10);
    } else {
      assert DIGITS[n] == '0' <==> n == 0;
    }
  }

  function DigitValue(c: char): nat {
    if '0' <= c <= '9' then (c as int) - ('0' as int) else 0
  }

  function ParseDecimal(s: string): nat {
    if s == "" then 0 else 10 * ParseDecimal(s[..|s| - 1]) + DigitValue(s[|s| - 1])
  }

  lemma {:induction false} ParseZerosThen(count: nat, s: string)
    ensures ParseDecimal(Zeros(count) + s) == ParseDecimal(s)
  {
    if s != "" {
      assert (Zeros(count) + s)[..count + |s| - 1] == Zeros(count) + s[..|s| - 1];
      ParseZerosThen(count, s[..|s| - 1]);
    } else if count > 0 {
      assert (Zeros(count) + s)[..count - 1] == Zeros(count - 1) + s;
      ParseZerosThen(count - 1, s);
    }
  }

  lemma {:induction false} ParseInvertsDecimal(n: nat)
    ensures ParseDecimal(Decimal(n)) == n
  {
    if n >= 10 {
      ParseInvertsDecimal(n / 10);
      assert Decimal(n)[..|Decimal(n)| - 1] == Decimal(n / 10);
    } else {
      assert Decimal(n)[..0] == "";
    }
  }

  /** Padding never makes two numbers look alike, even past the padded width. */
  lemma PaddedInjective(m: nat, n: nat, width: nat)
    requires Padded(m, width) == Padded(n, width)
    ensures m == n
  {
    ParseInvertsPadded(m, width);
    ParseInvertsPadded(n, width);
  }

  lemma ParseInvertsPadded(n: nat, width: nat)
    ensures ParseDecimal(Padded(n, width)) == n
  {
    ParseInvertsDecimal(n);
    if |Decimal(n)| < width {
      ParseZerosThen(width - |Decimal(n)|, Decimal(n));
    }
  }

  lemma SeparatorNotEarlier(a: string, x: string, b: string, y: string, separator: char)
    requires separator !in b
    requires a + [separator] + x == b + [separator] + y
    ensures |b| <= |a|
  {
    assert (a + [separator] + x)[|a|] == separator;
    if |a| < |b| {
      assert false;
    }
  }

  lemma SplitAtFirst(a: string, x: string, b: string, y: string, separator: char)
    requires separator !in a && separator !in b
    requires a + [separator] + x == b + [separator] + y
    ensures a == b && x == y
  {
    SeparatorNotEarlier(a, x, b, y, separator);
    SeparatorNotEarlier(b, y, a, x, separator);
    assert a == (a + [separator] + x)[..|a|] == (b + [separator] + y)[..|a|] == b;
    assert x == (a + [separator] + x)[|a| + 1..] == (b + [separator] + y)[|a| + 1..] == y;
  }
}
