/** Warm-start eligibility after a run, on the rows and links of the tables. */
module Eligibility {
  import opened Common
  import opened Outcomes
  import opened WarmStart
  import opened WarmStartRuns

  /** A row that counts for the winner: keyed by it or by an exposure linked to it, not labelled, and
      measured at seven days. */
  predicate CountsFor(db: Db, w: Id, row: Row) {
    && row in db.rows && row.limitation == None && row.returned.day7.Some?
    && (row.rec == w || match row.exposure
                        case None => false
                        case Some(id) => id in db.exposures && db.exposures[id].winner == Some(w))
  }

  ghost predicate AnyCounts(db: Db, w: Id, arm: Option<Arm>) {
    exists row :: CountsFor(db, w, row) && row.arm == arm
  }

  ghost predicate AnyReturned(db: Db, w: Id, arm: Option<Arm>) {
    exists row :: CountsFor(db, w, row) && row.arm == arm && row.returned.day7 == Some(true)
  }

  lemma OwnedCount(db: Db, w: Id, row: Row)
    ensures row in OwnedRows(db, w, db.rows) && Observed(row) <==> CountsFor(db, w, row)
  {
    OwnedHas(db, w, db.rows, row);
  }

  lemma SomeObservedCounts(db: Db, w: Id, arm: Option<Arm>)
    ensures SomeObserved(OwnedRows(db, w, db.rows), arm, false) <==> AnyCounts(db, w, arm)
    ensures SomeObserved(OwnedRows(db, w, db.rows), arm, true) <==> AnyReturned(db, w, arm)
  {
    hide OwnedRows, Observed;
    forall row ensures row in OwnedRows(db, w, db.rows) && Observed(row) <==> CountsFor(db, w, row) { OwnedCount(db, w, row); }
  }

  /** After any run over consistently linked rows, a genuine winner is eligible exactly when, among the
      rows that count for it, a treated one returned and a control was measured; or, when none of them
      was in a comparison, one of them returned. */
  lemma EligibilityMeans(events: seq<Event>, w: Id)
    requires Runs(Empty, events) && IsReal(Exec(Empty, events), w)
    ensures var d := Exec(Empty, events);
      d.winners[w].eligible <==>
        if AnyCounts(d, w, Some(A)) || AnyCounts(d, w, Some(B)) then AnyReturned(d, w, Some(A)) && AnyCounts(d, w, Some(B))
        else AnyReturned(d, w, None)
  {
    hide Exec, Runs, AnyCounts, AnyReturned;
    EligibilityIsTheEvidence(events, w);
    var d := Exec(Empty, events);
    SomeObservedCounts(d, w, Some(A));
    SomeObservedCounts(d, w, Some(B));
    SomeObservedCounts(d, w, None);
  }
}
