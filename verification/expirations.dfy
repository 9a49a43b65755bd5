/**
 The daily expiry scan of `app/__init__.py`: every stored document is loaded
 and handed to the notifier when the whole number of days until it expires,
 rounded down as `timedelta.days` does, lies between 0 and 10.
 */
module Expirations {
  import opened Documents

  /** Largest day count that still triggers a notice. */
  const WINDOW_DAYS: int := 10

  /** `(end - now).days`: whole days from `now` to `end`, rounded towards minus infinity. */
  function DaysUntil(end: int, now: int): (days: int)
    ensures days * DAY <= end - now < (days + 1) * DAY
  {
    (end - now) / DAY
  }

  /** The test applied to each loaded document. */
  predicate DueForNotice(d: Document, now: int)
  {
    0 <= DaysUntil(d.endDate, now) <= WINDOW_DAYS
  }

  function DueAt(now: int): Document -> bool
  {
    d => DueForNotice(d, now)
  }

  /** The documents the scan passes to the notifier, in load order. */
  function Notified(documents: seq<Document>, now: int): seq<Document>
  {
    Select(documents, DueAt(now))
  }

  /**
   Rounding down makes the day window `[0, 10]` the half-open interval of
   instants `[now, now + 11 days)`.
   */
  lemma DueIffWithinElevenDays(d: Document, now: int)
    ensures DueForNotice(d, now) <==> now <= d.endDate < now + (WINDOW_DAYS + 1) * DAY
  {
    var days := DaysUntil(d.endDate, now);
    if days < 0 {
      assert d.endDate - now < (days + 1) * DAY <= 0;
    } else if days > WINDOW_DAYS {
      assert (WINDOW_DAYS + 1) * DAY <= days * DAY <= d.endDate - now;
    }
  }

  /**
   One scan. `notified` is the sequence of documents handed to the notifier;
   the loaded list itself is a value and is left as it was.
   */
  method CheckDocumentExpirations(documents: seq<Document>, now: int) returns (notified: seq<Document>)
    ensures notified == Notified(documents, now)
    ensures forall d :: d in notified <==> d in documents && now <= d.endDate < now + (WINDOW_DAYS + 1) * DAY
    ensures IsSubsequence(notified, documents)
    ensures multiset(notified) <= multiset(documents) && |notified| <= |documents|
  {
    notified := [];
    for i := 0 to |documents|
      invariant notified == Notified(documents[..i], now)
    {
      var document := documents[i];
      assert documents[..i + 1] == documents[..i] + [document];
      if 0 <= DaysUntil(document.endDate, now) <= WINDOW_DAYS {
        notified := notified + [document];
      }
    }
    assert documents[..|documents|] == documents;
    SelectIsSubsequence(documents, DueAt(now));
    forall d
      ensures d in notified <==> d in documents && now <= d.endDate < now + (WINDOW_DAYS + 1) * DAY
    {
      SelectMembership(documents, DueAt(now), d);
      DueIffWithinElevenDays(d, now);
    }
  }

  /** A document that expired before `now`, by however little, is never notified. */
  lemma ExpiredNeverNotified(documents: seq<Document>, now: int, d: Document)
    requires d.endDate < now
    ensures d !in Notified(documents, now)
  {
    SelectMembership(documents, DueAt(now), d);
    DueIffWithinElevenDays(d, now);
  }

  /** Each document's fate depends on that document alone. */
  lemma NotifiedPerDocument(a: seq<Document>, b: seq<Document>, now: int)
    ensures Notified(a + b, now) == Notified(a, now) + Notified(b, now)
  {
    SelectAppend(a, b, DueAt(now));
  }

  /** Boundary cases: 10 days 23 hours ahead is notified, exactly 11 days ahead is not. */
  lemma WindowBoundaries(now: int)
    ensures DueForNotice(Document(0, "Permit", now + 10 * DAY + 23 * MICROS_PER_HOUR), now)
    ensures !DueForNotice(Document(0, "Permit", now + 11 * DAY), now)
    ensures DueForNotice(Document(0, "Permit", now), now)
    ensures !DueForNotice(Document(0, "Permit", now - 1), now)
  {
    DueIffWithinElevenDays(Document(0, "Permit", now + 10 * DAY + 23 * MICROS_PER_HOUR), now);
    DueIffWithinElevenDays(Document(0, "Permit", now + 11 * DAY), now);
    DueIffWithinElevenDays(Document(0, "Permit", now), now);
    DueIffWithinElevenDays(Document(0, "Permit", now - 1), now);
  }
}
