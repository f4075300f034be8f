/** The lexicographic order on strings used by C++ `std::string::operator<`
    and by Python's string comparison (`min`, `max`, `<`): compare character
    by character; a proper prefix is smaller. Dafny's own `<` on sequences is
    the proper-prefix order, so the model defines this one once here. */
module StringOrder {

  /** `a` sorts strictly before `b`. */
  predicate Less(a: string, b: string)
    decreases |a|
  {
    if |b| == 0 then false
    else if |a| == 0 then true
    else if a[0] != b[0] then a[0] < b[0]
    else Less(a[1..], b[1..])
  }

  predicate LessEq(a: string, b: string) {
    a == b || Less(a, b)
  }

  lemma {:induction false} Irreflexive(a: string)
    ensures !Less(a, a)
    decreases |a|
  {
    if |a| > 0 {
      Irreflexive(a[1..]);
    }
  }

  lemma {:induction false} Asymmetric(a: string, b: string)
    ensures Less(a, b) ==> !Less(b, a)
    decreases |a|
  {
    if |a| > 0 && |b| > 0 && a[0] == b[0] {
      Asymmetric(a[1..], b[1..]);
    }
  }

  lemma {:induction false} Transitive(a: string, b: string, c: string)
    requires Less(a, b) && Less(b, c)
    ensures Less(a, c)
    decreases |a|
  {
    if |a| > 0 && a[0] == b[0] && b[0] == c[0] {
      Transitive(a[1..], b[1..], c[1..]);
    }
  }

  /** Two different strings are always ordered one way or the other. */
  lemma {:induction false} Total(a: string, b: string)
    requires a != b
    ensures Less(a, b) || Less(b, a)
    decreases |a|
  {
    if |a| > 0 && |b| > 0 && a[0] == b[0] {
      assert a == [a[0]] + a[1..] && b == [b[0]] + b[1..];
      Total(a[1..], b[1..]);
    }
  }

  /** The four facts together, for one triple of strings. */
  lemma StrictTotal(a: string, b: string, c: string)
    ensures !Less(a, a)
    ensures Less(a, b) ==> !Less(b, a)
    ensures Less(a, b) && Less(b, c) ==> Less(a, c)
    ensures a != b ==> Less(a, b) || Less(b, a)
  {
    Irreflexive(a);
    Asymmetric(a, b);
    if Less(a, b) && Less(b, c) {
      Transitive(a, b, c);
    }
    if a != b {
      Total(a, b);
    }
  }

  lemma LessEqTotal(a: string, b: string)
    ensures LessEq(a, b) || LessEq(b, a)
  {
    if a != b {
      Total(a, b);
    }
  }

  lemma LessEqTransitive(a: string, b: string, c: string)
    requires LessEq(a, b) && LessEq(b, c)
    ensures LessEq(a, c)
  {
    if a != b && b != c {
      Transitive(a, b, c);
    }
  }

  lemma LessEqAntisymmetric(a: string, b: string)
    requires LessEq(a, b) && LessEq(b, a)
    ensures a == b
  {
    Asymmetric(a, b);
  }

  /** The smallest element of a non-empty list (Python's `min`): the first
      one among equals. */
  function Min(xs: seq<string>): (m: string)
    requires |xs| > 0
    ensures m in xs
    ensures forall i :: 0 <= i < |xs| ==> LessEq(m, xs[i])
  {
    if |xs| == 1 then xs[0]
    else
      var rest := Min(xs[1..]);
      assert forall i :: 1 <= i < |xs| ==> xs[i] == xs[1..][i - 1];
      if Less(rest, xs[0]) then
        assert LessEq(rest, xs[0]);
        rest
      else
        LessEqTotal(rest, xs[0]);
        forall i | 1 <= i < |xs| ensures LessEq(xs[0], xs[i]) {
          LessEqTransitive(xs[0], rest, xs[i]);
        }
        xs[0]
  }

  /** The largest element of a non-empty list (Python's `max`). */
  function Max(xs: seq<string>): (m: string)
    requires |xs| > 0
    ensures m in xs
    ensures forall i :: 0 <= i < |xs| ==> LessEq(xs[i], m)
  {
    if |xs| == 1 then xs[0]
    else
      var rest := Max(xs[1..]);
      assert forall i :: 1 <= i < |xs| ==> xs[i] == xs[1..][i - 1];
      if Less(xs[0], rest) then
        assert LessEq(xs[0], rest);
        rest
      else
        LessEqTotal(rest, xs[0]);
        forall i | 1 <= i < |xs| ensures LessEq(xs[i], xs[0]) {
          LessEqTransitive(xs[i], rest, xs[0]);
        }
        xs[0]
  }
}
