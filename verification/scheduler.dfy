/**
 The second expiry scan, in `scheduler.py`. A query first loads the
 documents whose end date is at most ten days after the query's clock
 reading; the loop then reads the clock again for every loaded document and
 notifies it when its end date is at most ten days after that reading.
 There is no lower bound: expired documents are notified too.
 */
module Scheduler {
  import opened Documents
  import Expirations

  /** `timedelta(days=10)`. */
  const ALERT_PERIOD: int := 10 * DAY

  /** The query's filter `Document.end_date <= threshold_date`. */
  predicate WithinThreshold(d: Document, queryTime: int)
  {
    d.endDate <= queryTime + ALERT_PERIOD
  }

  function ThresholdAt(queryTime: int): Document -> bool
  {
    d => WithinThreshold(d, queryTime)
  }

  /** The query's result, in table order. */
  function QueryExpiring(documents: seq<Document>, queryTime: int): seq<Document>
  {
    Select(documents, ThresholdAt(queryTime))
  }

  /**
   The loop's re-check over the query result: the k-th document is compared
   against `clock(k)`, the clock as read in the k-th iteration.
   */
  function Rechecked(expiring: seq<Document>, clock: nat -> int): (notified: seq<Document>)
    ensures |notified| <= |expiring|
    ensures forall d :: d in notified ==> d in expiring
  {
    if expiring == [] then []
    else
      var k := |expiring| - 1;
      Rechecked(expiring[..k], clock)
        + (if expiring[k].endDate - clock(k) <= ALERT_PERIOD then [expiring[k]] else [])
  }

  /** A clock that reads the same instant in every iteration. */
  function Frozen(now: int): nat -> int
  {
    _ => now
  }

  /** What one run notifies when every clock reading is `now`. */
  function NotifiedAt(documents: seq<Document>, now: int): seq<Document>
  {
    Rechecked(QueryExpiring(documents, now), Frozen(now))
  }

  /** The re-check keeps the query's order and takes each entry at most once. */
  lemma {:induction false} RecheckedIsSubsequence(expiring: seq<Document>, clock: nat -> int)
    ensures IsSubsequence(Rechecked(expiring, clock), expiring)
    ensures multiset(Rechecked(expiring, clock)) <= multiset(expiring)
  {
    if expiring != [] {
      var k := |expiring| - 1;
      var init := expiring[..k];
      assert expiring == init + [expiring[k]];
      RecheckedIsSubsequence(init, clock);
      var r := Rechecked(expiring, clock);
      if expiring[k].endDate - clock(k) <= ALERT_PERIOD {
        assert r[..|r| - 1] == Rechecked(init, clock);
      } else {
        assert r == Rechecked(init, clock);
        SubsequenceOfPrefix(r, init, expiring[k]);
      }
    }
  }

  /**
   When no loop reading is earlier than the query's reading, the re-check
   rejects nothing the query admitted.
   */
  lemma {:induction false} RecheckRedundant(expiring: seq<Document>, queryTime: int, clock: nat -> int)
    requires forall k :: 0 <= k < |expiring| ==> WithinThreshold(expiring[k], queryTime)
    requires forall i: nat :: queryTime <= clock(i)
    ensures Rechecked(expiring, clock) == expiring
  {
    if expiring != [] {
      var k := |expiring| - 1;
      var init := expiring[..k];
      assert forall j :: 0 <= j < |init| ==> init[j] == expiring[j];
      RecheckRedundant(init, queryTime, clock);
      assert expiring[k].endDate - clock(k) <= ALERT_PERIOD;
      assert init + [expiring[k]] == expiring;
    }
  }

  /**
   One run. `notified` is the sequence of documents handed to the notifier;
   `queryTime` is the clock reading behind the query and `clock(k)` the one
   taken in the k-th iteration.
   */
  method CheckExpiringDocuments(documents: seq<Document>, queryTime: int, clock: nat -> int)
    returns (notified: seq<Document>)
    ensures notified == Rechecked(QueryExpiring(documents, queryTime), clock)
    ensures IsSubsequence(notified, QueryExpiring(documents, queryTime))
    ensures multiset(notified) <= multiset(QueryExpiring(documents, queryTime))
    ensures forall d :: d in notified ==> d in documents && d.endDate <= queryTime + ALERT_PERIOD
    ensures (forall i: nat :: queryTime <= clock(i)) ==> notified == QueryExpiring(documents, queryTime)
  {
    var expiringDocuments := QueryExpiring(documents, queryTime);
    notified := [];
    for k := 0 to |expiringDocuments|
      invariant notified == Rechecked(expiringDocuments[..k], clock)
    {
      var document := expiringDocuments[k];
      assert expiringDocuments[..k + 1][..k] == expiringDocuments[..k];
      if document.endDate - clock(k) <= ALERT_PERIOD {
        notified := notified + [document];
      }
    }
    assert expiringDocuments[..|expiringDocuments|] == expiringDocuments;
    RecheckedIsSubsequence(expiringDocuments, clock);
    forall d | d in notified
      ensures d in documents && d.endDate <= queryTime + ALERT_PERIOD
    {
      assert d in multiset(expiringDocuments);
      SelectMembership(documents, ThresholdAt(queryTime), d);
    }
    if forall i: nat :: queryTime <= clock(i) {
      forall k | 0 <= k < |expiringDocuments|
        ensures WithinThreshold(expiringDocuments[k], queryTime)
      {
        SelectMembership(documents, ThresholdAt(queryTime), expiringDocuments[k]);
      }
      RecheckRedundant(expiringDocuments, queryTime, clock);
    }
  }

  /** With one clock reading, a document is notified exactly when it ends at most ten days later. */
  lemma NotifiedAtMembership(documents: seq<Document>, now: int, d: Document)
    ensures d in NotifiedAt(documents, now) <==> d in documents && d.endDate <= now + ALERT_PERIOD
  {
    var expiring := QueryExpiring(documents, now);
    forall k | 0 <= k < |expiring|
      ensures WithinThreshold(expiring[k], now)
    {
      SelectMembership(documents, ThresholdAt(now), expiring[k]);
    }
    RecheckRedundant(expiring, now, Frozen(now));
    SelectMembership(documents, ThresholdAt(now), d);
  }

  /** An expired document is notified on every run, however long ago it expired. */
  lemma ExpiredAlwaysNotified(documents: seq<Document>, now: int, d: Document)
    requires d in documents && d.endDate < now
    ensures d in NotifiedAt(documents, now)
  {
    NotifiedAtMembership(documents, now, d);
  }

  /**
   The two scans at the same instant: what `app/__init__.py` notifies and
   this one does not is exactly what ends more than ten and less than eleven
   days ahead; what this one notifies and the other does not is exactly what
   has already expired.
   */
  lemma CompareWithDailyScan(documents: seq<Document>, now: int, d: Document)
    requires d in documents
    ensures d in Expirations.Notified(documents, now) && d !in NotifiedAt(documents, now)
        <==> now + ALERT_PERIOD < d.endDate < now + 11 * DAY
    ensures d in NotifiedAt(documents, now) && d !in Expirations.Notified(documents, now)
        <==> d.endDate < now
  {
    NotifiedAtMembership(documents, now, d);
    SelectMembership(documents, Expirations.DueAt(now), d);
    Expirations.DueIffWithinElevenDays(d, now);
  }

  /** A document one microsecond past its end is notified here and not by the daily scan. */
  lemma ExpiredDocumentSeparatesScans(now: int)
    ensures var d := Document(1, "Road Tax", now - 1);
      d in NotifiedAt([d], now) && d !in Expirations.Notified([d], now)
  {
    CompareWithDailyScan([Document(1, "Road Tax", now - 1)], now, Document(1, "Road Tax", now - 1));
  }

  /** The exact ten-day boundary is included. */
  lemma BoundaryIncluded(now: int)
    ensures var d := Document(2, "Insurance", now + 10 * DAY);
      d in NotifiedAt([d], now)
    ensures var d := Document(3, "Insurance", now + 10 * DAY + 1);
      d !in NotifiedAt([d], now)
  {
    NotifiedAtMembership([Document(2, "Insurance", now + 10 * DAY)], now, Document(2, "Insurance", now + 10 * DAY));
    NotifiedAtMembership([Document(3, "Insurance", now + 10 * DAY + 1)], now, Document(3, "Insurance", now + 10 * DAY + 1));
  }
}
