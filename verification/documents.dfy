/**
 The document records the expiry scans read, the time units they compute
 with, and the order-preserving filter both scans are built from.

 Instants are whole microseconds (the resolution of Python's `datetime`),
 so a `timedelta` is a difference of two integers.
 */
module Documents {

  const MICROS_PER_HOUR: int := 3_600_000_000
  /** `timedelta(days=1)` in microseconds. */
  const DAY: int := 24 * MICROS_PER_HOUR

  /** A stored document as the scans see it: its key, its type and its expiry instant. */
  datatype Document = Document(id: nat, documentType: string, endDate: int)

  /** The documents of `docs` that `keep` accepts, in their original order. */
  function Select(docs: seq<Document>, keep: Document -> bool): (r: seq<Document>)
    ensures |r| <= |docs|
  {
    if docs == [] then []
    else
      var last := docs[|docs| - 1];
      Select(docs[..|docs| - 1], keep) + (if keep(last) then [last] else [])
  }

  /** `a` is `b` with some elements deleted, the rest kept in order. */
  predicate IsSubsequence(a: seq<Document>, b: seq<Document>)
    decreases |b|
  {
    if a == [] then true
    else if b == [] then false
    else
      (a[|a| - 1] == b[|b| - 1] && IsSubsequence(a[..|a| - 1], b[..|b| - 1]))
      || IsSubsequence(a, b[..|b| - 1])
  }

  /** A selection keeps the order of its input and takes each entry at most once. */
  lemma {:induction false} SelectIsSubsequence(docs: seq<Document>, keep: Document -> bool)
    ensures IsSubsequence(Select(docs, keep), docs)
    ensures multiset(Select(docs, keep)) <= multiset(docs)
  {
    if docs != [] {
      var init, last := docs[..|docs| - 1], docs[|docs| - 1];
      assert docs == init + [last];
      SelectIsSubsequence(init, keep);
      var r := Select(docs, keep);
      if keep(last) {
        assert r[..|r| - 1] == Select(init, keep);
      } else {
        assert r == Select(init, keep);
        SubsequenceOfPrefix(r, init, last);
      }
    }
  }

  lemma {:induction false} SubsequenceOfPrefix(a: seq<Document>, init: seq<Document>, last: Document)
    requires IsSubsequence(a, init)
    ensures IsSubsequence(a, init + [last])
  {
    var b := init + [last];
    if a != [] {
      assert b[..|b| - 1] == init;
    }
  }

  /** A document is selected exactly when it is in the input and `keep` accepts it. */
  lemma {:induction false} SelectMembership(docs: seq<Document>, keep: Document -> bool, d: Document)
    ensures d in Select(docs, keep) <==> d in docs && keep(d)
  {
    if docs != [] {
      var init, last := docs[..|docs| - 1], docs[|docs| - 1];
      assert docs == init + [last];
      SelectMembership(init, keep, d);
    }
  }

  /**
   Selection over a concatenation is the concatenation of the selections:
   whether one document is taken does not depend on its neighbours.
   */
  lemma {:induction false} SelectAppend(a: seq<Document>, b: seq<Document>, keep: Document -> bool)
    ensures Select(a + b, keep) == Select(a, keep) + Select(b, keep)
  {
    if b == [] {
      assert a + b == a;
    } else {
      var init, last := b[..|b| - 1], b[|b| - 1];
      assert (a + b)[..|a + b| - 1] == a + init;
      SelectAppend(a, init, keep);
    }
  }
}
