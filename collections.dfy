/**
 * Facts about sequences and sets used by the word-count analysis: an
 * enumeration of a set (what iterating over a directory listing yields),
 * and how removing one element changes a multiset.
 */
module Collections {

  datatype Option<T> = None | Some(value: T)

  /** No element occurs twice. */
  ghost predicate Distinct<T>(s: seq<T>) {
    forall i, j :: 0 <= i < j < |s| ==> s[i] != s[j]
  }

  /** `order` lists every element of `s` exactly once. */
  ghost predicate Enumerates<T(!new)>(order: seq<T>, s: set<T>) {
    Distinct(order) && forall x :: x in order <==> x in s
  }

  lemma TailMultiset<T>(a: seq<T>)
    requires |a| > 0
    ensures multiset(a[1..]) == multiset(a) - multiset{a[0]}
  {
    assert a == [a[0]] + a[1..];
  }

  lemma MultisetRemoveAt<T>(b: seq<T>, j: nat)
    requires j < |b|
    ensures multiset(b[..j] + b[j + 1..]) == multiset(b) - multiset{b[j]}
  {
    assert b == b[..j] + [b[j]] + b[j + 1..];
  }

  /** Grouping of appended log entries does not matter. */
  lemma AppendAssoc<T>(a: seq<T>, b: seq<T>, c: seq<T>)
    ensures a + (b + c) == a + b + c
  {
  }

  /** Two entries appended one after the other. */
  lemma AppendPair<T>(s: seq<T>, a: T, b: T)
    ensures s + [a] + [b] == s + [a, b]
  {
  }

  /** A prefix one element longer. */
  lemma TakeOneMore<T>(s: seq<T>, i: nat)
    requires i < |s|
    ensures s[..i + 1] == s[..i] + [s[i]]
    ensures s[..i + 1][..i] == s[..i]
  {
  }

  /** Every finite set can be listed. */
  lemma {:induction false} EnumerationExists<T(!new)>(s: set<T>)
    ensures exists order :: Enumerates(order, s)
    decreases |s|
  {
    if s == {} {
      assert Enumerates([], s);
    } else {
      var x :| x in s;
      EnumerationExists(s - {x});
      var rest :| Enumerates(rest, s - {x});
      var order := [x] + rest;
      assert order[1..] == rest;
      assert Enumerates(order, s);
    }
  }

  /** Some listing of `s`; which one is left open. */
  ghost function SomeOrder<T(!new)>(s: set<T>): (order: seq<T>)
    ensures Enumerates(order, s)
  {
    EnumerationExists(s);
    var order :| Enumerates(order, s);
    order
  }

  /** In a sequence without repetitions every element occurs once. */
  lemma {:induction false} DistinctMultiset<T>(s: seq<T>, x: T)
    requires Distinct(s)
    ensures multiset(s)[x] == if x in s then 1 else 0
    decreases |s|
  {
    if s != [] {
      TailMultiset(s);
      assert s[0] !in s[1..];
      DistinctMultiset(s[1..], x);
      assert x in s <==> x == s[0] || x in s[1..];
    }
  }

  /** Two listings of the same set differ only in their order. */
  lemma EnumerationsArePermutations<T(!new)>(a: seq<T>, b: seq<T>, s: set<T>)
    requires Enumerates(a, s) && Enumerates(b, s)
    ensures multiset(a) == multiset(b)
  {
    forall x ensures multiset(a)[x] == multiset(b)[x] {
      DistinctMultiset(a, x);
      DistinctMultiset(b, x);
    }
  }
}
