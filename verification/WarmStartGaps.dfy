/** Two ways rows can be linked that leave eligibility behind its evidence until the next write
    for the winner, exactly when they do, and why the next promotion repairs them. */
module WarmStartGaps {
  import opened Common
  import opened Outcomes
  import opened OutcomesRows
  import opened WarmStart
  import opened WarmStartRuns

  /** A proven real send at time 0 with no arm. */
  function Sent(winner: Option<Id>, pro: Id): Exposure {
    Exposure(winner, pro, None, RouteToPro, Some(0), Confirmed, None)
  }

  /** A report of a return within the day. */
  function Return(rec: Id, exposure: Option<Id>, source: Source): Item {
    Item(rec, exposure, source, 0, NoClaim, None, Unknown, None, map[], Some(DAY))
  }

  lemma PositiveRowDecides(db: Db, w: Id, row: Row)
    requires db.rows == [row] && Owns(db, w, row) && Observed(row) && Positive(row) && row.arm.None?
    ensures EligibleBy(OwnedRows(db, w, db.rows))
  {
    assert db.rows[..0] == [];
    assert OwnedRows(db, w, []) == [];
    assert OwnedRows(db, w, db.rows) == [row];
    assert row in [row];
  }

  lemma NothingOwned(db: Db, w: Id)
    requires forall r :: r in db.rows && Owns(db, w, r) ==> !Observed(r)
    ensures !EligibleBy(OwnedRows(db, w, db.rows))
  {
    hide OwnedRows;
    forall r | r in OwnedRows(db, w, db.rows) ensures !Observed(r) { OwnedHas(db, w, db.rows, r); }
    NothingEligible(OwnedRows(db, w, db.rows));
  }

  /** The rows of an exposure that had no winner when they were measured. */
  function Unlinked(w: Id, e: Id, pro: Id, source: Source): Db {
    var exposures := map[e := Sent(None, pro)];
    var winners := map[w := Winner(true, pro, false, None, None)];
    Db([NewRow(Db([], exposures, winners), Return(e, Some(e), source))], exposures, winners)
  }

  /** Registration links a winner without promoting it: the measured return of the exposure now
      counts for the winner, which stays ineligible. */
  lemma LateLinkLeavesWinnerBehind(w: Id, e: Id, pro: Id, source: Source)
    requires w != e
    ensures var before := Unlinked(w, e, pro, source);
      var after := Register(before, Registration(e, Some(w), pro, None, NoClaim, Unknown, None));
      && ApplyItem(Db([], before.exposures, before.winners), Return(e, Some(e), source)) == Some(before)
      && Evident(before, w) && w in after.winners && !Evident(after, w)
  {
    var before := Unlinked(w, e, pro, source);
    var after := Register(before, Registration(e, Some(w), pro, None, NoClaim, Unknown, None));
    var row := before.rows[0];
    assert row.returned.day7 == Some(true) && row.limitation.None? && row.exposure == Some(e) && row.arm.None?;
    assert [] + [row] == before.rows;
    NothingOwned(before, w);
    assert after.rows == [row];
    PositiveRowDecides(after, w, row);
  }

  /** A late link leaves the winner's eligibility at its evidence exactly when the rows under the
      exposure, added to the winner's own, do not change the verdict. */
  lemma LateLinkKeepsExactly(db: Db, item: Registration)
    requires LateLink(db, item) && IsReal(db, item.rec.value)
    ensures var w := item.rec.value; var after := Register(db, item);
      && w in after.winners
      && (Evident(after, w) <==>
            (db.winners[w].eligible <==> EligibleBy(OwnedRows(db, w, db.rows) + RowsUnder(db.rows, item.id))))
      && (Evident(db, w) ==> (Evident(after, w) <==> AddsNothing(db, w, item.id)))
  {
    hide EligibleBy, OwnedRows, RowsUnder, Register;
    LateLinkVerdict(db, item);
  }

  /** In particular whenever no row under the exposure is both measured and unlabelled. */
  lemma UnobservedRowsAddNothing(db: Db, w: Id, id: Id)
    requires forall i :: 0 <= i < |db.rows| && db.rows[i].exposure == Some(id) ==> !Observed(db.rows[i])
    ensures AddsNothing(db, w, id)
  {
    hide EligibleBy, OwnedRows, Filter;
    var own := OwnedRows(db, w, db.rows);
    forall r | Observed(r) ensures r in own <==> r in own + RowsUnder(db.rows, id) {
      FilterHas((x: Row) => x.exposure == Some(id), db.rows, r);
    }
    EvidenceDecides(own, own + RowsUnder(db.rows, id));
  }

  /** Promotion recomputes from scratch, so any later write that reaches the winner repairs it. */
  lemma NextPromotionRepairs(db: Db, ids: seq<Id>, w: Id)
    requires IsReal(db, w) && w in ids
    ensures w in PromoteAll(db, ids).winners && Evident(PromoteAll(db, ids), w)
  {
    PromotedAreEvident(db, ids, w);
  }

  /** A row keyed by an id nobody knows, attributed through its exposure. */
  function Foreign(w: Id, e: Id, rec: Id, pro: Id, source: Source): Db {
    Db([], map[e := Sent(Some(w), pro)], map[w := Winner(true, pro, false, None, None)])
  }

  /** One ingested item leaves a winner's eligibility at its evidence exactly when it reaches the
      winner or what it stores does not change the verdict. */
  lemma WriteKeepsExactly(db: Db, item: Item, w: Id)
    requires UniqueKeys(db.rows) && ApplyItem(db, item).Some? && IsReal(db, w) && Evident(db, w)
    ensures Ingest(db, [item]).Some? && w in Ingest(db, [item]).value.winners
    ensures Evident(Ingest(db, [item]).value, w) <==>
      WinnerOf(db, item) == Some(w)
      || (EligibleBy(OwnedRows(db, w, ApplyItem(db, item).value.rows)) <==> EligibleBy(OwnedRows(db, w, db.rows)))
  {
    hide ApplyItem, WinnerOf, EligibleBy, OwnedRows, PromoteAll, UniqueKeys;
    OneItem(db, item);
    ApplyItemWrites(db, item);
    var written := ApplyItem(db, item).value;
    var ids := Affected(db, [item]);
    PromoteAllFacts(written, ids);
    var after := PromoteAll(written, ids);
    OwnedRowsFrame(db, after, w, written.rows);
    OwnedRowsFrame(db, written, w, written.rows);
    if WinnerOf(db, item) == Some(w) { PromotedAreEvident(written, ids, w); }
  }

  /** The rows but the one at i. */
  function Left(rows: seq<Row>, i: Option<nat>): seq<Row> {
    if i.Some? && i.value < |rows| then rows[..i.value] + rows[i.value + 1..] else rows
  }

  /** Without the row at i the verdict on the winner is another one. */
  ghost predicate Decisive(db: Db, w: Id, i: nat)
    requires i < |db.rows|
  {
    !(EligibleBy(OwnedRows(db, w, db.rows)) <==> EligibleBy(OwnedRows(db, w, Left(db.rows, Some(i)))))
  }

  /** What an unattributed write leaves of the evidence: every row but the one it overwrites. */
  lemma UnattributedWriteLeaves(db: Db, item: Item, r: Row)
    requires UniqueKeys(db.rows) && ApplyItem(db, item).Some? && !Attributed(db, item) && Observed(r)
    ensures r in ApplyItem(db, item).value.rows <==> r in Left(db.rows, Find(db.rows, item.rec, item.source))
  {
    hide ApplyItem, Updated, NewRow, Attributed, UniqueKeys, Observed;
    ApplyItemWrites(db, item);
    LabelledWrites(db, item);
    var at := Find(db.rows, item.rec, item.source);
    var rows := ApplyItem(db, item).value.rows;
    if at.Some? {
      assert rows == db.rows[..at.value] + [rows[at.value]] + db.rows[at.value + 1..];
    } else {
      assert rows == db.rows + [rows[|db.rows|]];
    }
  }

  /** A write that resolves neither a winner nor an exposure leaves eligibility behind exactly when
      the row it overwrites was decisive for the winner. */
  lemma RelabelKeepsExactly(db: Db, item: Item, w: Id)
    requires UniqueKeys(db.rows) && ApplyItem(db, item).Some? && IsReal(db, w) && Evident(db, w)
    requires !Attributed(db, item)
    ensures Ingest(db, [item]).Some? && w in Ingest(db, [item]).value.winners
    ensures var at := Find(db.rows, item.rec, item.source);
      Evident(Ingest(db, [item]).value, w) <==> at.None? || !Decisive(db, w, at.value)
  {
    hide ApplyItem, EligibleBy, OwnedRows, Ingest, UniqueKeys, Observed, Evident;
    WriteKeepsExactly(db, item, w);
    var rows := ApplyItem(db, item).value.rows;
    var left := Left(db.rows, Find(db.rows, item.rec, item.source));
    forall r | Observed(r) ensures r in OwnedRows(db, w, rows) <==> r in OwnedRows(db, w, left) {
      OwnedHas(db, w, rows, r);
      OwnedHas(db, w, left, r);
      UnattributedWriteLeaves(db, item, r);
    }
    EvidenceDecides(OwnedRows(db, w, rows), OwnedRows(db, w, left));
  }

  lemma LabelledWrites(db: Db, item: Item)
    requires !Attributed(db, item)
    ensures !Observed(NewRow(db, item)) && forall row :: !Observed(Updated(db, item, row))
  {
  }

  /** Only a measured, unlabelled row of the winner can be decisive. */
  lemma DecisiveIsObserved(db: Db, w: Id, i: nat)
    requires i < |db.rows| && Decisive(db, w, i)
    ensures Owns(db, w, db.rows[i]) && Observed(db.rows[i])
  {
    hide EligibleBy, OwnedRows, Owns;
    var left := Left(db.rows, Some(i));
    assert db.rows == db.rows[..i] + [db.rows[i]] + db.rows[i + 1..];
    if !(Owns(db, w, db.rows[i]) && Observed(db.rows[i])) {
      forall r | Observed(r) ensures r in OwnedRows(db, w, db.rows) <==> r in OwnedRows(db, w, left) {
        OwnedHas(db, w, db.rows, r);
        OwnedHas(db, w, left, r);
      }
      EvidenceDecides(OwnedRows(db, w, db.rows), OwnedRows(db, w, left));
    }
  }

  /** The touch reported with its exposure, once. */
  lemma FirstReport(w: Id, e: Id, rec: Id, pro: Id, source: Source)
    requires w != e && rec != e && rec != w
    ensures var first := Ingest(Foreign(w, e, rec, pro, source), [Return(rec, Some(e), source)]);
      first.Some? && IsReal(first.value, w) && Evident(first.value, w) && PositiveAlone(first.value, w, e, rec, source)
  {
    hide OwnedRows, EligibleBy, Promoted;
    var start := Foreign(w, e, rec, pro, source);
    var item := Return(rec, Some(e), source);
    OneItem(start, item);
    var written := ApplyItem(start, item).value;
    assert [] + [NewRow(start, item)] == [NewRow(start, item)];
    PromoteAllFacts(written, [w]);
    PromotedAreEvident(written, [w], w);
  }

  /** The table holds one row, a return under the exposure, which counts for the winner. */
  ghost predicate PositiveAlone(db: Db, w: Id, e: Id, rec: Id, source: Source) {
    && |db.rows| == 1 && db.rows[0].rec == rec && db.rows[0].source == source && db.rows[0].exposure == Some(e)
    && Observed(db.rows[0]) && Positive(db.rows[0]) && db.rows[0].arm.None?
    && e in db.exposures && db.exposures[e].winner == Some(w)
    && rec !in db.exposures && rec !in db.winners
  }

  lemma LoneRowIsDecisive(db: Db, w: Id, e: Id, rec: Id, source: Source)
    requires PositiveAlone(db, w, e, rec, source)
    ensures Find(db.rows, rec, source) == Some(0) && Decisive(db, w, 0)
  {
    hide EligibleBy;
    PositiveRowDecides(db, w, db.rows[0]);
    assert Left(db.rows, Some(0)) == [];
    assert OwnedRows(db, w, []) == [];
    NothingEligible([]);
  }

  /** A touch reported first with its exposure and then, under the same foreign key, without: the
      second write labels the row but reaches no winner, which keeps an eligibility it lost. */
  lemma RelabelWithoutPromotion(w: Id, e: Id, rec: Id, pro: Id, source: Source)
    requires w != e && rec != e && rec != w
    ensures var first := Ingest(Foreign(w, e, rec, pro, source), [Return(rec, Some(e), source)]);
      first.Some? && w in first.value.winners && Evident(first.value, w)
      && var second := Ingest(first.value, [Return(rec, None, source)]);
      second.Some? && w in second.value.winners && !Evident(second.value, w)
  {
    hide Ingest, Evident, Decisive;
    FirstReport(w, e, rec, pro, source);
    var first := Ingest(Foreign(w, e, rec, pro, source), [Return(rec, Some(e), source)]).value;
    LoneRowIsDecisive(first, w, e, rec, source);
    RelabelKeepsExactly(first, Return(rec, None, source), w);
  }
}
