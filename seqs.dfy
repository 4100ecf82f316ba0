/** Facts about sequences used as the storefront's lists. */
module Seqs {

  /** No element occurs twice. */
  ghost predicate NoDup<T>(s: seq<T>)
  {
    forall i, j :: 0 <= i < j < |s| ==> s[i] != s[j]
  }

  /** `a` is obtained from `b` by deleting some elements, keeping the order of the rest. */
  ghost predicate IsSubseq<T>(a: seq<T>, b: seq<T>)
  {
    if a == [] then true
    else if b == [] then false
    else (a[0] == b[0] && IsSubseq(a[1..], b[1..])) || IsSubseq(a, b[1..])
  }

  /** The set of the elements of a sequence. */
  ghost function Elements<T>(s: seq<T>): set<T>
  {
    set x | x in s
  }

  /** A duplicate-free list has as many entries as distinct elements. */
  lemma {:induction false} NoDupLength<T>(s: seq<T>)
    requires NoDup(s)
    ensures |Elements(s)| == |s|
  {
    if s != [] {
      var t := s[1..];
      assert NoDup(t) by {
        forall i, j | 0 <= i < j < |t| ensures t[i] != t[j] {
          assert t[i] == s[i + 1] && t[j] == s[j + 1];
        }
      }
      NoDupLength(t);
      assert s[0] !in t by {
        forall k | 0 <= k < |t| ensures t[k] != s[0] {
          assert t[k] == s[k + 1];
        }
      }
      assert Elements(s) == Elements(t) + {s[0]} by {
        assert s == [s[0]] + t;
      }
    }
  }

  /** Prepending an element keeps a list duplicate-free exactly when the element is new. */
  lemma NoDupCons<T>(x: T, t: seq<T>)
    ensures NoDup([x] + t) <==> x !in t && NoDup(t)
  {
    var s := [x] + t;
    if x !in t && NoDup(t) {
      forall i, j | 0 <= i < j < |s| ensures s[i] != s[j] {
        if i > 0 {
          assert s[i] == t[i - 1] && s[j] == t[j - 1];
        } else {
          assert s[j] == t[j - 1];
        }
      }
    }
    if NoDup(s) {
      forall i, j | 0 <= i < j < |t| ensures t[i] != t[j] {
        assert t[i] == s[i + 1] && t[j] == s[j + 1];
      }
      forall k | 0 <= k < |t| ensures t[k] != x {
        assert t[k] == s[k + 1] && s[0] == x;
      }
    }
  }

  /** Appending an element keeps a list duplicate-free exactly when the element is new. */
  lemma NoDupSnoc<T>(t: seq<T>, x: T)
    ensures NoDup(t + [x]) <==> x !in t && NoDup(t)
  {
    var s := t + [x];
    if x !in t && NoDup(t) {
      forall i, j | 0 <= i < j < |s| ensures s[i] != s[j] {
        if j < |t| {
          assert s[i] == t[i] && s[j] == t[j];
        } else {
          assert s[i] == t[i];
        }
      }
    }
    if NoDup(s) {
      forall i, j | 0 <= i < j < |t| ensures t[i] != t[j] {
        assert t[i] == s[i] && t[j] == s[j];
      }
      forall k | 0 <= k < |t| ensures t[k] != x {
        assert t[k] == s[k] && s[|t|] == x;
      }
    }
  }

  /** In a duplicate-free list every member occurs exactly once. */
  lemma {:induction false} NoDupOccursOnce<T>(s: seq<T>, x: T)
    requires NoDup(s) && x in s
    ensures multiset(s)[x] == 1
  {
    NoDupCons(s[0], s[1..]);
    assert s == [s[0]] + s[1..];
    if s[0] == x {
      assert x !in s[1..];
      assert multiset(s[1..])[x] == 0;
    } else {
      NoDupOccursOnce(s[1..], x);
    }
  }

  /** A list with no elements is the empty list. */
  lemma EmptyElements<T>(s: seq<T>)
    ensures Elements(s) == {} ==> s == []
  {
    if s != [] {
      assert s[0] in Elements(s);
    }
  }
}
