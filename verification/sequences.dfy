/** Order and repetition in sequences. */
module Sequences {
  /** No element occurs twice. */
  predicate NoDup<T(==)>(s: seq<T>) {
    forall i, j :: 0 <= i < j < |s| ==> s[i] != s[j]
  }

  /** `a` is `b` with some elements left out, the others in their order. */
  predicate IsSubseq<T(==)>(a: seq<T>, b: seq<T>)
    decreases |b|
  {
    if |b| == 0 then |a| == 0
    else (|a| > 0 && a[0] == b[0] && IsSubseq(a[1..], b[1..])) || IsSubseq(a, b[1..])
  }

  /** The tail of a sequence without repetition has none and lacks the head. */
  lemma NoDupTail<T>(s: seq<T>)
    requires NoDup(s) && |s| > 0
    ensures NoDup(s[1..]) && s[0] !in s[1..]
  {
    var rest := s[1..];
    forall i, j | 0 <= i < j < |rest| ensures rest[i] != rest[j] {
      assert rest[i] == s[i + 1] && rest[j] == s[j + 1];
    }
    forall k | 0 <= k < |rest| ensures rest[k] != s[0] {
      assert rest[k] == s[k + 1];
    }
  }

  /** Putting a new element in front keeps a sequence without repetition. */
  lemma NoDupCons<T>(x: T, s: seq<T>)
    requires NoDup(s) && x !in s
    ensures NoDup([x] + s)
  {
    var r := [x] + s;
    forall i, j | 0 <= i < j < |r| ensures r[i] != r[j] {
      assert r[j] == s[j - 1];
      if i > 0 {
        assert r[i] == s[i - 1];
      }
    }
  }

  /** A subsequence has only elements of the sequence, and none twice when
      the sequence has none twice. */
  lemma {:induction false} SubseqNoDup<T>(a: seq<T>, b: seq<T>)
    requires IsSubseq(a, b)
    ensures forall x :: x in a ==> x in b
    ensures NoDup(b) ==> NoDup(a)
    decreases |b|
  {
    if |b| > 0 {
      if |a| > 0 && a[0] == b[0] && IsSubseq(a[1..], b[1..]) {
        SubseqNoDup(a[1..], b[1..]);
        assert forall x :: x in a ==> x == a[0] || x in a[1..];
        assert forall x :: x in b[1..] ==> x in b;
        if NoDup(b) {
          NoDupTail(b);
          assert a == [a[0]] + a[1..];
          NoDupCons(a[0], a[1..]);
        }
      } else {
        SubseqNoDup(a, b[1..]);
        assert forall x :: x in b[1..] ==> x in b;
        if NoDup(b) {
          NoDupTail(b);
        }
      }
    }
  }
}
