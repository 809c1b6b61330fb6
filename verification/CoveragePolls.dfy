/** Which exposures a tick polls, what a poll submits, and what a covered one achieves. */
module CoveragePolls {
  import opened Common
  import opened Sorting
  import opened Outcomes
  import opened SweepProofs
  import opened Coverage
  import CoverageProofs
  import ExposureHistory

  /** The horizon has provably closed, and the returns up to its close are not known to be fetched. */
  predicate Unfetched(e: Exposure, now: int, h: Horizon) {
    && e.sentAt.Some? && now - e.sentAt.value >= Window(h) + GRACE
    && (e.checkedAt.Some? ==> e.checkedAt.value - e.sentAt.value < Window(h))
  }

  /** Exactly the confirmed exposures with such a horizon and no return found yet are polled. */
  lemma DueExactly(db: Db, id: Id, now: int)
    ensures DueExposure(db, id, now) <==>
      && id in db.exposures && db.exposures[id].status.Confirmed?
      && (exists h: Horizon :: Unfetched(db.exposures[id], now, h))
      && (forall row :: row in db.rows ==> !(row.source == Amplitude && row.exposure == Some(id)))
  {
    if id in db.exposures {
      var e := db.exposures[id];
      if h: Horizon :| Unfetched(e, now, h) {
        assert Unfetched(e, now, Day1) || Unfetched(e, now, Day7) || Unfetched(e, now, Day30) by {
          match h case Day1 => case Day7 => case Day30 =>
        }
      }
      assert Unfetched(e, now, Day1) == (e.sentAt.Some? && Unchecked(e, now, Day1));
      assert Unfetched(e, now, Day7) == (e.sentAt.Some? && Unchecked(e, now, Day7));
      assert Unfetched(e, now, Day30) == (e.sentAt.Some? && Unchecked(e, now, Day30));
    }
  }

  // ----- what a poll submits ---------------------------------------------------------

  ghost predicate InWindow(sentAt: int, t: int) {
    0 <= t - sentAt <= Window(Day30)
  }

  /** The item submits the earliest return inside its exposure's window, and claims nothing else. */
  ghost predicate Submits(db: Db, item: Item, id: Id, times: seq<int>) {
    && item.rec == id && item.exposure == Some(id) && item.source == Amplitude
    && item.routing == NoClaim && item.sentAt.None? && item.status == Unknown && item.confirmedAt.None? && item.flags == map[]
    && item.firstReturn.Some? && item.firstReturn.value in times && InWindow(SentAt(db, id), item.firstReturn.value)
    && forall t :: t in times && InWindow(SentAt(db, id), t) ==> item.firstReturn.value <= t
  }

  ghost predicate AnyInWindow(db: Db, id: Id, times: seq<int>) {
    exists t :: t in times && InWindow(SentAt(db, id), t)
  }

  ghost predicate SubmittedFor(db: Db, items: seq<Item>, id: Id, times: seq<int>) {
    exists item :: item in items && Submits(db, item, id, times)
  }

  /** A poll submits a return for exactly those exposures that had one inside their window. */
  lemma {:induction false} FoundMeans(db: Db, ids: seq<Id>, times: seq<int>)
    requires Sorted(Before, times)
    ensures forall item :: item in Found(db, ids, times) ==> item.rec in ids && Submits(db, item, item.rec, times)
    ensures forall id :: id in ids && AnyInWindow(db, id, times) ==> SubmittedFor(db, Found(db, ids, times), id, times)
  {
    if ids != [] {
      var n := |ids| - 1;
      var id := ids[n];
      FoundMeans(db, ids[..n], times);
      var before := Found(db, ids[..n], times);
      var first := FirstIn(times, SentAt(db, id));
      CoverageProofs.FirstInIsFirst(times, SentAt(db, id));
      assert ids == ids[..n] + [id];
      var all := Found(db, ids, times);
      assert forall item :: item in before ==> item in all;
      if first.Some? {
        assert Submits(db, ReturnItem(id, first.value), id, times) && ReturnItem(id, first.value) in all;
      }
      forall other | other in ids && AnyInWindow(db, other, times) ensures SubmittedFor(db, all, other, times) {
        if other in ids[..n] {
          var item :| item in before && Submits(db, item, other, times);
          assert item in all;
        } else {
          var t :| t in times && InWindow(SentAt(db, other), t);
        }
      }
    }
  }

  // ----- what a covered poll achieves ------------------------------------------------

  lemma StampedTo(db: Db, now: int, ids: seq<Id>, times: seq<int>, id: Id)
    requires id in ids && id in db.exposures
    ensures var d := PollStep(db, now, ids, times, true);
      id in d.exposures && d.exposures[id] == db.exposures[id].(checkedAt := Some(now - GRACE))
  {
    hide Ingest, StampAll, Found;
    var items := Found(db, ids, times);
    if items != [] && Ingest(db, items).Some? { ExposureHistory.IngestFrame(db, items); }
    var stored := if items != [] && Ingest(db, items).Some? then Ingest(db, items).value else db;
    CoverageProofs.StampAllFacts(stored, ids, now - GRACE);
  }

  /** After a covered poll its exposures are due no more, and a gated sweep may grade every closed
      horizon of their rows: the gate waits for nothing that can still be fetched. */
  lemma CoveredPollOpensGate(db: Db, now: int, ids: seq<Id>, times: seq<int>, id: Id, row: Row, h: Horizon)
    requires id in ids && DueExposure(db, id, now)
    ensures var d := PollStep(db, now, ids, times, true);
      && !DueExposure(d, id, now)
      && (row.exposure == Some(id) && row.sentAt == db.exposures[id].sentAt ==>
            (Over(d, row, now, true, h) <==> Over(d, row, now, false, h)))
  {
    hide PollStep;
    StampedTo(db, now, ids, times, id);
    var d := PollStep(db, now, ids, times, true);
    DueExactly(d, id, now);
    forall k: Horizon ensures !Unfetched(d.exposures[id], now, k) { }
  }
}
