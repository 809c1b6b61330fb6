/** Every run of ingests, registrations, sweeps and coverage stamps keeps eligibility equal to
    the evidence. */
module WarmStartRuns {
  import opened Common
  import opened Outcomes
  import opened OutcomesRows
  import opened WarmStart

  /** One committed transaction. */
  datatype Event =
    | Ingested(items: seq<Item>)
    | Registered(item: Registration)
    | Swept(now: int, gated: bool, silent: seq<Id>, picked: seq<nat>)
    | WinnerAdded(id: Id, pro: Id, genuine: bool)
    | Stamped(id: Id, at: int)

  const Empty := Db([], map[], map[])

  /** The item names its touch one way: by a winner, with no exposure or one linked to it, or by
      an exposure's own id. */
  predicate Canonical(db: Db, item: Item) {
    if IsReal(db, item.rec) then
      item.exposure.None? ||
      (item.exposure.value in db.exposures && db.exposures[item.exposure.value].winner == Some(item.rec))
    else item.exposure.None? || item.exposure.value == item.rec
  }

  /** The registration links a stored exposure that had no winner. */
  predicate LateLink(db: Db, item: Registration) {
    && item.id in db.exposures && db.exposures[item.id].winner.None?
    && item.rec.Some? && item.rec.value in db.winners
  }

  function RowsUnder(rows: seq<Row>, id: Id): seq<Row> {
    Filter((r: Row) => r.exposure == Some(id), rows)
  }

  /** The rows stored under an exposure would not change the verdict on the winner. */
  ghost predicate AddsNothing(db: Db, w: Id, id: Id) {
    EligibleBy(OwnedRows(db, w, db.rows) + RowsUnder(db.rows, id)) <==> EligibleBy(OwnedRows(db, w, db.rows))
  }

  /** An exposure gets its winner late only where its rows add nothing to that winner's evidence. */
  ghost predicate QuietLink(db: Db, item: Registration) {
    item.id !in db.winners && (LateLink(db, item) && IsReal(db, item.rec.value) ==> AddsNothing(db, item.rec.value, item.id))
  }

  ghost predicate AllSilent(db: Db, now: int, ids: seq<Id>) {
    && (forall i :: 0 <= i < |ids| ==> Silent(db, ids[i], now))
    && (forall i, j :: 0 <= i < j < |ids| ==> ids[i] != ids[j])
  }

  ghost predicate Picked(db: Db, now: int, gated: bool, picked: seq<nat>) {
    forall k :: 0 <= k < |picked| ==> picked[k] < |db.rows| && Sweepable(db, db.rows[picked[k]], now, gated)
  }

  ghost predicate Admissible(db: Db, e: Event) {
    match e
    case Ingested(items) => forall i :: 0 <= i < |items| ==> Canonical(db, items[i])
    case Registered(item) => QuietLink(db, item)
    case Swept(now, gated, silent, picked) => AllSilent(db, now, silent) && Picked(Synthesize(db, silent), now, gated, picked)
    case WinnerAdded(id, _, _) => id !in db.winners && id !in db.exposures
    case Stamped(id, _) => id in db.exposures
  }

  function Step(db: Db, e: Event): Db {
    match e
    case Ingested(items) => var d := Ingest(db, items); if d.Some? then d.value else db
    case Registered(item) => Register(db, item)
    case Swept(now, gated, silent, picked) => Sweep(db, now, gated, silent, picked)
    case WinnerAdded(id, pro, genuine) => db.(winners := db.winners[id := Winner(genuine, pro, false, None, None)])
    case Stamped(id, at) =>
      if id in db.exposures then db.(exposures := db.exposures[id := db.exposures[id].(checkedAt := Some(at))]) else db
  }

  // ----- structure -------------------------------------------------------------------

  /** The row's links name its touch one way, and a row without any is labelled. */
  ghost predicate Linked(db: Db, row: Row) {
    && (row.exposure.Some? ==> row.exposure.value in db.exposures)
    && (if IsReal(db, row.rec) then row.exposure.None? || db.exposures[row.exposure.value].winner == Some(row.rec)
        else if row.exposure.None? then row.limitation == Some(Unattributed)
        else row.exposure.value == row.rec)
  }

  ghost predicate Structure(db: Db) {
    && UniqueKeys(db.rows)
    && (forall id :: id in db.winners ==> id !in db.exposures)
    && (forall id :: id in db.exposures && db.exposures[id].winner.Some? ==> db.exposures[id].winner.value in db.winners)
    && (forall i :: 0 <= i < |db.rows| ==> Linked(db, db.rows[i]))
  }

  ghost predicate AllOk(rows: seq<Row>) {
    forall i :: 0 <= i < |rows| ==> HorizonsOk(rows[i].returned)
  }

  ghost predicate Inv(db: Db) {
    Structure(db) && AllOk(db.rows) && AllEvident(db)
  }

  // ----- ingestion -------------------------------------------------------------------

  lemma UpdatedLinks(db: Db, item: Item, row: Row)
    requires Canonical(db, item) && Linked(db, row) && row.rec == item.rec
    requires forall id :: id in db.winners ==> id !in db.exposures
    ensures Linked(db, Updated(db, item, row))
    ensures forall w: Id :: IsReal(db, w) && Owns(db, w, row) ==> WinnerOf(db, item) == Some(w)
    ensures forall w: Id :: IsReal(db, w) && Owns(db, w, Updated(db, item, row)) ==> WinnerOf(db, item) == Some(w)
  {
  }

  lemma NewLinks(db: Db, item: Item)
    requires Canonical(db, item) && ApplyItem(db, item).Some? && Find(db.rows, item.rec, item.source).None?
    requires forall id :: id in db.winners ==> id !in db.exposures
    ensures Linked(db, NewRow(db, item))
    ensures forall w: Id :: IsReal(db, w) && Owns(db, w, NewRow(db, item)) ==> WinnerOf(db, item) == Some(w)
  {
  }

  lemma LinkedFrame(a: Db, b: Db, row: Row)
    requires a.exposures == b.exposures && a.winners == b.winners && Linked(a, row)
    ensures Linked(b, row)
  {
  }

  lemma ItemKeepsStructure(db: Db, item: Item)
    requires Structure(db) && Canonical(db, item) && ApplyItem(db, item).Some?
    ensures Structure(ApplyItem(db, item).value)
  {
    hide ApplyItem, Updated, NewRow, Linked, Canonical;
    ApplyItemWrites(db, item);
    var d := ApplyItem(db, item).value;
    var at := Find(db.rows, item.rec, item.source);
    if at.Some? { UpdatedLinks(db, item, db.rows[at.value]); } else { NewLinks(db, item); }
    forall i | 0 <= i < |d.rows| ensures Linked(d, d.rows[i]) { LinkedFrame(db, d, d.rows[i]); }
  }

  lemma ItemKeepsRowsOk(db: Db, item: Item)
    requires UniqueKeys(db.rows) && AllOk(db.rows) && ApplyItem(db, item).Some?
    ensures AllOk(ApplyItem(db, item).value.rows)
  {
  }

  /** A write for one winner's touch leaves the evidence of every other winner alone. */
  lemma ItemKeepsEvidence(db: Db, item: Item, w: Id)
    requires Structure(db) && Canonical(db, item) && ApplyItem(db, item).Some?
    requires IsReal(db, w) && WinnerOf(db, item) != Some(w)
    ensures SameEvidence(db, ApplyItem(db, item).value, w)
  {
    hide ApplyItem, Updated, NewRow, Linked, Canonical;
    ApplyItemWrites(db, item);
    var d := ApplyItem(db, item).value;
    var at := Find(db.rows, item.rec, item.source);
    if at.Some? { UpdatedLinks(db, item, db.rows[at.value]); } else { NewLinks(db, item); }
    forall r | Observed(r) ensures r in db.rows && Owns(db, w, r) <==> r in d.rows && Owns(d, w, r) {
      OwnsFrame(db, d, w, r);
      if r in db.rows && Owns(db, w, r) {
        var i :| 0 <= i < |db.rows| && db.rows[i] == r;
        assert d.rows[i] == r;
      }
      if r in d.rows && Owns(d, w, r) {
        var i :| 0 <= i < |d.rows| && d.rows[i] == r;
        assert i < |db.rows| && db.rows[i] == r;
      }
    }
  }

  lemma OwnsFrame(a: Db, b: Db, w: Id, r: Row)
    requires a.exposures == b.exposures
    ensures Owns(a, w, r) == Owns(b, w, r)
  {
  }

  lemma LookupFrame(a: Db, b: Db, item: Item)
    requires a.exposures == b.exposures && a.winners == b.winners
    ensures Canonical(a, item) == Canonical(b, item) && WinnerOf(a, item) == WinnerOf(b, item)
  {
  }

  ghost predicate AllCanonical(db: Db, items: seq<Item>) {
    forall i :: 0 <= i < |items| ==> Canonical(db, items[i])
  }

  lemma {:induction false} AffectedHas(db: Db, items: seq<Item>, i: nat)
    requires i < |items| && WinnerOf(db, items[i]).Some?
    ensures WinnerOf(db, items[i]).value in Affected(db, items)
  {
    var n := |items| - 1;
    if i < n { AffectedHas(db, items[..n], i); }
  }

  lemma {:induction false} AffectedGrows(db: Db, items: seq<Item>, w: Id)
    requires items != [] && w !in Affected(db, items)
    ensures w !in Affected(db, items[..|items| - 1]) && WinnerOf(db, items[|items| - 1]) != Some(w)
  {
  }

  lemma OneItem(db: Db, item: Item)
    requires ApplyItem(db, item).Some?
    ensures ApplyItems(db, [item]) == ApplyItem(db, item)
    ensures Affected(db, [item]) == if WinnerOf(db, item).Some? then [WinnerOf(db, item).value] else []
  {
    hide ApplyItem, WinnerOf;
    assert [item][..0] == [];
    assert ApplyItems(db, []) == Some(db) && Affected(db, []) == [];
  }

  lemma SameEvidenceTwice(a: Db, b: Db, d: Db, w: Id)
    requires SameEvidence(a, b, w) && SameEvidence(b, d, w)
    ensures SameEvidence(a, d, w)
  {
  }

  lemma SameEvidenceRefl(a: Db, w: Id)
    ensures SameEvidence(a, a, w)
  {
  }

  ghost predicate Framed(a: Db, b: Db) {
    a.exposures == b.exposures && a.winners == b.winners
  }

  lemma {:induction false} ItemsKeepStructure(db: Db, items: seq<Item>)
    requires Structure(db) && AllOk(db.rows) && AllCanonical(db, items) && ApplyItems(db, items).Some?
    ensures var d := ApplyItems(db, items).value; Structure(d) && AllOk(d.rows) && Framed(db, d)
  {
    hide ApplyItem, Structure, AllOk, Canonical;
    if items != [] {
      var n := |items| - 1;
      ItemsKeepStructure(db, items[..n]);
      var before := ApplyItems(db, items[..n]).value;
      LookupFrame(db, before, items[n]);
      ItemKeepsStructure(before, items[n]);
      StructureHasKeys(before);
      ItemKeepsRowsOk(before, items[n]);
      ApplyItemWrites(before, items[n]);
    }
  }

  lemma StructureHasKeys(db: Db)
    requires Structure(db)
    ensures UniqueKeys(db.rows)
  {
  }

  lemma {:induction false} ItemsKeepEvidence(db: Db, items: seq<Item>, w: Id)
    requires Structure(db) && AllOk(db.rows) && AllCanonical(db, items) && ApplyItems(db, items).Some?
    requires IsReal(db, w) && w !in Affected(db, items)
    ensures SameEvidence(db, ApplyItems(db, items).value, w)
  {
    hide ApplyItem, Structure, AllOk, Canonical, SameEvidence, WinnerOf;
    if items == [] {
      SameEvidenceRefl(db, w);
    } else {
      var n := |items| - 1;
      AffectedGrows(db, items, w);
      ItemsKeepStructure(db, items[..n]);
      ItemsKeepEvidence(db, items[..n], w);
      var before := ApplyItems(db, items[..n]).value;
      LookupFrame(db, before, items[n]);
      ItemKeepsEvidence(before, items[n], w);
      SameEvidenceTwice(db, before, ApplyItem(before, items[n]).value, w);
    }
  }

  lemma PromotionKeepsRows(db: Db, ids: seq<Id>)
    requires Structure(db) && AllOk(db.rows)
    ensures Structure(PromoteAll(db, ids)) && AllOk(PromoteAll(db, ids).rows)
  {
  }

  /** Promotion of everyone whose evidence may have changed restores the invariant. */
  lemma PromotionRestores(before: Db, changed: Db, ids: seq<Id>)
    requires AllEvident(before) && before.winners == changed.winners
    requires forall w: Id :: IsReal(before, w) && w !in ids ==> SameEvidence(before, changed, w)
    ensures AllEvident(PromoteAll(changed, ids))
  {
    hide SameEvidence, EligibleBy, OwnedRows;
    PromoteAllFacts(changed, ids);
    forall w: Id | IsReal(PromoteAll(changed, ids), w) ensures Evident(PromoteAll(changed, ids), w) {
      assert IsReal(before, w);
      if w !in ids {
        SameEvidenceSameVerdict(before, changed, w);
        assert Evident(before, w);
      }
      PromotedAreEvident(changed, ids, w);
    }
  }

  lemma IngestKeepsInv(db: Db, items: seq<Item>)
    requires Inv(db) && AllCanonical(db, items) && Ingest(db, items).Some?
    ensures Inv(Ingest(db, items).value)
  {
    hide ApplyItems, Structure, AllOk, AllEvident, SameEvidence, Affected, PromoteAll;
    var d := ApplyItems(db, items).value;
    ItemsKeepStructure(db, items);
    forall w: Id | IsReal(db, w) && w !in Affected(db, items) ensures SameEvidence(db, d, w) {
      ItemsKeepEvidence(db, items, w);
    }
    PromotionRestores(db, d, Affected(db, items));
    PromotionKeepsRows(d, Affected(db, items));
  }

  // ----- registration, new winners, coverage stamps ----------------------------------

  lemma OwnsSame(a: Db, b: Db, w: Id)
    requires a.rows == b.rows && forall i :: 0 <= i < |a.rows| ==> Owns(a, w, a.rows[i]) == Owns(b, w, a.rows[i])
    ensures SameEvidence(a, b, w)
  {
  }

  /** What counts for the winner after a late link: its own rows and those under the exposure. */
  lemma LateLinkVerdict(db: Db, item: Registration)
    requires LateLink(db, item)
    ensures var w := item.rec.value; var d := Register(db, item);
      && d.rows == db.rows && d.winners == db.winners
      && (EligibleBy(OwnedRows(d, w, d.rows)) <==> EligibleBy(OwnedRows(db, w, db.rows) + RowsUnder(db.rows, item.id)))
  {
    hide EligibleBy, OwnedRows, Filter;
    var w := item.rec.value;
    var d := Register(db, item);
    var under := RowsUnder(db.rows, item.id);
    forall r | Observed(r) ensures r in OwnedRows(d, w, d.rows) <==> r in OwnedRows(db, w, db.rows) + under {
      OwnedHas(d, w, d.rows, r);
      OwnedHas(db, w, db.rows, r);
      FilterHas((x: Row) => x.exposure == Some(item.id), db.rows, r);
    }
    EvidenceDecides(OwnedRows(d, w, d.rows), OwnedRows(db, w, db.rows) + under);
  }

  lemma RegistrationKeepsStructure(db: Db, item: Registration)
    requires Structure(db) && item.id !in db.winners
    ensures Structure(Register(db, item))
  {
    hide UniqueKeys;
    var d := Register(db, item);
    forall i | 0 <= i < |db.rows| ensures Linked(d, d.rows[i]) { assert Linked(db, db.rows[i]); }
  }

  /** A registration changes the evidence of no winner but the one it links late. */
  lemma RegistrationKeepsOthers(db: Db, item: Registration, w: Id)
    requires Structure(db) && w in db.winners && !(LateLink(db, item) && item.rec == Some(w))
    ensures SameEvidence(db, Register(db, item), w)
  {
    hide UniqueKeys, SameEvidence;
    var d := Register(db, item);
    forall i | 0 <= i < |db.rows| ensures Owns(db, w, db.rows[i]) == Owns(d, w, db.rows[i]) {
      assert Linked(db, db.rows[i]);
    }
    OwnsSame(db, d, w);
  }

  lemma RegistrationKeepsInv(db: Db, item: Registration)
    requires Inv(db) && QuietLink(db, item)
    ensures Inv(Register(db, item))
  {
    hide AllOk, Structure, EligibleBy, OwnedRows, SameEvidence, RowsUnder, Linked;
    var d := Register(db, item);
    RegistrationKeepsStructure(db, item);
    forall w: Id | IsReal(d, w) ensures Evident(d, w) {
      assert Evident(db, w);
      if LateLink(db, item) && item.rec == Some(w) {
        LateLinkVerdict(db, item);
      } else {
        RegistrationKeepsOthers(db, item, w);
        SameEvidenceSameVerdict(db, d, w);
      }
    }
  }

  lemma StampKeepsInv(db: Db, id: Id, at: int)
    requires Inv(db) && id in db.exposures
    ensures Inv(Step(db, Stamped(id, at)))
  {
    hide HorizonsOk, UniqueKeys, EligibleBy, OwnedRows, SameEvidence;
    var d := Step(db, Stamped(id, at));
    forall i | 0 <= i < |db.rows| ensures Linked(d, d.rows[i]) { assert Linked(db, db.rows[i]); }
    forall w: Id | IsReal(d, w) ensures Evident(d, w) {
      OwnsSame(db, d, w);
      SameEvidenceSameVerdict(db, d, w);
      assert Evident(db, w);
    }
  }

  /** A row that named the winner before it existed is labelled, so it is no evidence. */
  lemma Orphaned(db: Db, id: Id, r: Row)
    requires Structure(db) && id !in db.winners && id !in db.exposures && r in db.rows && Owns(db, id, r)
    ensures !Observed(r)
  {
  }

  lemma NothingEligible(rows: seq<Row>)
    requires forall r :: r in rows ==> !Observed(r)
    ensures !EligibleBy(rows)
  {
  }

  lemma WinnerKeepsInv(db: Db, id: Id, pro: Id, genuine: bool)
    requires Inv(db) && id !in db.winners && id !in db.exposures
    ensures Inv(Step(db, WinnerAdded(id, pro, genuine)))
  {
    hide HorizonsOk, UniqueKeys, EligibleBy, OwnedRows, SameEvidence, Observed;
    var d := Step(db, WinnerAdded(id, pro, genuine));
    forall i | 0 <= i < |db.rows| ensures Linked(d, d.rows[i]) { assert Linked(db, db.rows[i]); }
    forall w: Id | IsReal(d, w) ensures Evident(d, w) {
      if w == id {
        forall r | r in OwnedRows(d, id, d.rows) ensures !Observed(r) {
          OwnedHas(d, id, d.rows, r);
          Orphaned(db, id, r);
        }
        NothingEligible(OwnedRows(d, id, d.rows));
      } else {
        OwnsSame(db, d, w);
        SameEvidenceSameVerdict(db, d, w);
        assert Evident(db, w);
      }
    }
  }

  // ----- the sweep -------------------------------------------------------------------

  lemma {:induction false} SynthesizeRows(db: Db, ids: seq<Id>)
    requires forall i :: 0 <= i < |ids| ==> ids[i] in db.exposures
    ensures var d := Synthesize(db, ids);
      && Framed(db, d) && |d.rows| == |db.rows| + |ids|
      && (forall i :: 0 <= i < |db.rows| ==> d.rows[i] == db.rows[i])
      && (forall k :: 0 <= k < |ids| ==> d.rows[|db.rows| + k] == SilentRow(ids[k], db.exposures[ids[k]]))
  {
    if ids != [] { SynthesizeRows(db, ids[..|ids| - 1]); }
  }

  lemma SynthesizeKeepsStructure(db: Db, now: int, ids: seq<Id>)
    requires Structure(db) && AllOk(db.rows) && AllSilent(db, now, ids)
    ensures var d := Synthesize(db, ids); Structure(d) && AllOk(d.rows) && Framed(db, d)
  {
    SynthesizeRows(db, ids);
    var d := Synthesize(db, ids);
    forall i | 0 <= i < |d.rows| ensures Linked(d, d.rows[i]) && HorizonsOk(d.rows[i].returned) {
      if i < |db.rows| {
        assert Linked(db, db.rows[i]) && HorizonsOk(db.rows[i].returned);
      } else {
        assert Silent(db, ids[i - |db.rows|], now);
      }
    }
    forall i, j | 0 <= i < j < |d.rows| ensures d.rows[i].rec != d.rows[j].rec || d.rows[i].source != d.rows[j].source {
      if j >= |db.rows| {
        var k := j - |db.rows|;
        assert Silent(db, ids[k], now) && d.rows[|db.rows| + k].rec == ids[k];
        if i >= |db.rows| { assert d.rows[|db.rows| + (i - |db.rows|)].rec == ids[i - |db.rows|]; }
      }
    }
  }

  lemma {:induction false} ResolveRows(db: Db, picked: seq<nat>, now: int, gated: bool)
    ensures var d := ResolveAll(db, picked, now, gated);
      && Framed(db, d) && |d.rows| == |db.rows|
      && (forall i: nat :: i < |db.rows| ==> d.rows[i] == db.rows[i].(returned := d.rows[i].returned))
      && (forall i: nat :: i < |db.rows| && i !in picked ==> d.rows[i] == db.rows[i])
  {
    if picked != [] {
      var n := |picked| - 1;
      ResolveRows(db, picked[..n], now, gated);
      var before := ResolveAll(db, picked[..n], now, gated);
      assert picked == picked[..n] + [picked[n]];
      if picked[n] < |before.rows| { ResolvedOnlyMeasures(before, before.rows[picked[n]], now, gated); }
    }
  }

  lemma ResolvedOnlyMeasures(db: Db, row: Row, now: int, gated: bool)
    ensures Resolved(db, row, now, gated) == row.(returned := Resolved(db, row, now, gated).returned)
  {
  }

  lemma {:induction false} ResolveKeepsOk(db: Db, picked: seq<nat>, now: int, gated: bool)
    requires AllOk(db.rows) && forall k :: 0 <= k < |picked| ==> picked[k] < |db.rows| && db.rows[picked[k]].status.Confirmed?
    ensures AllOk(ResolveAll(db, picked, now, gated).rows)
    ensures forall i: nat :: i < |db.rows| && i < |ResolveAll(db, picked, now, gated).rows| ==>
      Kept(db.rows[i].returned, ResolveAll(db, picked, now, gated).rows[i].returned)
  {
    if picked != [] {
      var n := |picked| - 1;
      ResolveKeepsOk(db, picked[..n], now, gated);
      ResolveRows(db, picked[..n], now, gated);
      var before := ResolveAll(db, picked[..n], now, gated);
      var i := picked[n];
      assert before.rows[i].status == db.rows[i].status;
      assert HorizonsOk(before.rows[i].returned);
      SweepMeasures(before, before.rows[i], now, gated);
    }
  }

  lemma ResolveKeepsStructure(db: Db, picked: seq<nat>, now: int, gated: bool)
    requires Structure(db)
    ensures Structure(ResolveAll(db, picked, now, gated))
  {
    hide ResolveAll;
    ResolveRows(db, picked, now, gated);
    var d := ResolveAll(db, picked, now, gated);
    forall i: nat | i < |d.rows| ensures Linked(d, d.rows[i]) { assert Linked(db, db.rows[i]); }
  }

  /** A changed row that day 7 measures reaches every winner it counts for. */
  lemma {:induction false} ReachedHas(db: Db, after: Db, picked: seq<nat>, i: nat, w: Id)
    requires i in picked && i < |db.rows| && i < |after.rows| && after.rows[i] != db.rows[i]
    requires after.rows[i].returned.day7.Some? && Owns(db, w, after.rows[i])
    ensures w in Reached(db, after, picked)
  {
    var n := |picked| - 1;
    assert picked == picked[..n] + [picked[n]];
    if picked[n] != i { ReachedHas(db, after, picked[..n], i, w); }
  }

  lemma ResolveKeepsEvidence(db: Db, picked: seq<nat>, now: int, gated: bool, w: Id)
    requires var d := ResolveAll(db, picked, now, gated); w !in Reached(db, d, picked)
    requires forall k :: 0 <= k < |picked| ==> picked[k] < |db.rows| && db.rows[picked[k]].status.Confirmed?
    requires AllOk(db.rows)
    ensures SameEvidence(db, ResolveAll(db, picked, now, gated), w)
  {
    hide ResolveAll, HorizonsOk;
    ResolveRows(db, picked, now, gated);
    ResolveKeepsOk(db, picked, now, gated);
    var d := ResolveAll(db, picked, now, gated);
    forall r | Observed(r) ensures r in db.rows && Owns(db, w, r) <==> r in d.rows && Owns(d, w, r) {
      OwnsFrame(db, d, w, r);
      if r in db.rows && Owns(db, w, r) {
        var i :| 0 <= i < |db.rows| && db.rows[i] == r;
        ResolvedRowSame(db, d, picked, i, w);
      }
      if r in d.rows && Owns(d, w, r) {
        var i :| 0 <= i < |d.rows| && d.rows[i] == r;
        ResolvedRowSame(db, d, picked, i, w);
      }
    }
  }

  lemma ResolvedRowSame(db: Db, d: Db, picked: seq<nat>, i: nat, w: Id)
    requires i < |db.rows| == |d.rows| && db.exposures == d.exposures && (i !in picked ==> d.rows[i] == db.rows[i])
    requires d.rows[i] == db.rows[i].(returned := d.rows[i].returned) && Kept(db.rows[i].returned, d.rows[i].returned)
    requires w !in Reached(db, d, picked) && Owns(db, w, db.rows[i]) && (Observed(db.rows[i]) || Observed(d.rows[i]))
    ensures db.rows[i] == d.rows[i]
  {
    assert Owns(db, w, d.rows[i]) == Owns(db, w, db.rows[i]);
    assert At(db.rows[i].returned, Day7).Some? ==> At(d.rows[i].returned, Day7) == At(db.rows[i].returned, Day7);
    if db.rows[i] != d.rows[i] { ReachedHas(db, d, picked, i, w); }
  }

  lemma SilentRowsAreNoEvidence(db: Db, now: int, ids: seq<Id>, w: Id)
    requires AllSilent(db, now, ids)
    ensures SameEvidence(db, Synthesize(db, ids), w)
  {
  }

  lemma SweepKeepsInv(db: Db, now: int, gated: bool, silent: seq<Id>, picked: seq<nat>)
    requires Inv(db) && AllSilent(db, now, silent) && Picked(Synthesize(db, silent), now, gated, picked)
    ensures Inv(Sweep(db, now, gated, silent, picked))
  {
    hide Structure, AllOk, AllEvident, SameEvidence, Reached, PromoteAll, ResolveAll, Synthesize, AllSilent;
    var s := Synthesize(db, silent);
    SynthesizeKeepsStructure(db, now, silent);
    var d := ResolveAll(s, picked, now, gated);
    ResolveRows(s, picked, now, gated);
    ResolveKeepsStructure(s, picked, now, gated);
    ResolveKeepsOk(s, picked, now, gated);
    var reached := Reached(s, d, picked);
    forall w: Id | IsReal(db, w) && w !in reached ensures SameEvidence(db, d, w) {
      SilentRowsAreNoEvidence(db, now, silent, w);
      ResolveKeepsEvidence(s, picked, now, gated, w);
      SameEvidenceTwice(db, s, d, w);
    }
    PromotionRestores(db, d, reached);
    PromotionKeepsRows(d, reached);
  }

  // ----- every run -------------------------------------------------------------------

  lemma StepKeepsInv(db: Db, e: Event)
    requires Inv(db) && Admissible(db, e)
    ensures Inv(Step(db, e))
  {
    hide Inv, Ingest, Register, Sweep;
    match e
    case Ingested(items) => if Ingest(db, items).Some? { IngestKeepsInv(db, items); }
    case Registered(item) => RegistrationKeepsInv(db, item);
    case Swept(now, gated, silent, picked) => SweepKeepsInv(db, now, gated, silent, picked);
    case WinnerAdded(id, pro, genuine) => WinnerKeepsInv(db, id, pro, genuine);
    case Stamped(id, at) => StampKeepsInv(db, id, at);
  }

  ghost predicate Runs(db: Db, events: seq<Event>)
    decreases |events|
  {
    events == [] || (Admissible(db, events[0]) && Runs(Step(db, events[0]), events[1..]))
  }

  function Exec(db: Db, events: seq<Event>): Db
    decreases |events|
  {
    if events == [] then db else Exec(Step(db, events[0]), events[1..])
  }

  lemma {:induction false} EveryRunKeepsInv(db: Db, events: seq<Event>)
    requires Inv(db) && Runs(db, events)
    ensures Inv(Exec(db, events))
    decreases |events|
  {
    hide Inv, Admissible, Step;
    if events != [] {
      StepKeepsInv(db, events[0]);
      EveryRunKeepsInv(Step(db, events[0]), events[1..]);
    }
  }

  /** Warm-start eligibility is a function of the evidence: after any run over consistently linked
      rows, a winner may seed other Pros exactly when its unlabelled measured rows say so. */
  lemma EligibilityIsTheEvidence(events: seq<Event>, w: Id)
    requires Runs(Empty, events) && IsReal(Exec(Empty, events), w)
    ensures var db := Exec(Empty, events); db.winners[w].eligible <==> EligibleBy(OwnedRows(db, w, db.rows))
  {
    EveryRunKeepsInv(Empty, events);
    assert Evident(Exec(Empty, events), w);
  }
}
