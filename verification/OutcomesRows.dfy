/** What every write does to a row: routing claims, labels, tri-state horizons and send state. */
module OutcomesRows {
  import opened Common
  import opened Outcomes

  // ----- routing ---------------------------------------------------------------------

  /** merge_routing is a join: associative, commutative, idempotent, with no claim at the bottom
      and a conflict above everything. */
  lemma MergeIsJoin(a: Routing, b: Routing, c: Routing)
    ensures MergeRouting(MergeRouting(a, b), c) == MergeRouting(a, MergeRouting(b, c))
    ensures MergeRouting(a, b) == MergeRouting(b, a)
    ensures MergeRouting(a, a) == a && MergeRouting(a, NoClaim) == a == MergeRouting(NoClaim, a)
    ensures MergeRouting(a, Conflict) == Conflict
  {
  }

  function Folded(stored: Routing, claims: seq<Routing>): Routing {
    if claims == [] then stored
    else MergeRouting(Folded(stored, claims[..|claims| - 1]), claims[|claims| - 1])
  }

  ghost predicate AllAgree(claims: seq<Routing>, r: Routing) {
    forall i :: 0 <= i < |claims| ==> claims[i].NoClaim? || claims[i] == r
  }

  /** What a row has been told, in whatever order: nothing, one thing, or a conflict. */
  lemma {:induction false} FoldedMeans(claims: seq<Routing>)
    ensures Folded(NoClaim, claims).NoClaim? <==> AllAgree(claims, NoClaim)
    ensures forall r: Routing :: !r.NoClaim? && !r.Conflict? ==>
      (Folded(NoClaim, claims) == r <==> AllAgree(claims, r) && r in claims)
  {
    if claims != [] {
      var n := |claims| - 1;
      var before := claims[..n];
      FoldedMeans(before);
      assert claims == before + [claims[n]];
      forall r ensures AllAgree(claims, r) <==> AllAgree(before, r) && (claims[n].NoClaim? || claims[n] == r) {
        if AllAgree(claims, r) { assert forall i :: 0 <= i < n ==> before[i] == claims[i]; }
      }
      assert AllAgree(before, NoClaim) ==> forall r: Routing :: !r.NoClaim? ==> r !in before;
    }
  }

  /** A row counts as a real send exactly when every source claim it got said so, and one did. */
  lemma RouteToProMeans(claims: seq<Routing>)
    ensures Folded(NoClaim, claims) == RouteToPro <==> RouteToPro in claims && AllAgree(claims, RouteToPro)
  {
    FoldedMeans(claims);
  }

  function ClaimsFor(items: seq<Item>, rec: Id, source: Source): seq<Routing> {
    if items == [] then []
    else
      var it := items[|items| - 1];
      ClaimsFor(items[..|items| - 1], rec, source) + if it.rec == rec && it.source == source then [it.routing] else []
  }

  ghost predicate NoExposureFor(db: Db, items: seq<Item>, rec: Id, source: Source) {
    forall i :: 0 <= i < |items| && items[i].rec == rec && items[i].source == source ==> ExposureOf(db, items[i]).None?
  }

  function RoutingAt(db: Db, rec: Id, source: Source): Routing {
    var at := Find(db.rows, rec, source);
    if at.Some? then db.rows[at.value].routing else NoClaim
  }

  ghost predicate UniqueKeys(rows: seq<Row>) {
    forall i, j :: 0 <= i < j < |rows| ==> rows[i].rec != rows[j].rec || rows[i].source != rows[j].source
  }

  lemma FindIs(rows: seq<Row>, i: nat)
    requires UniqueKeys(rows) && i < |rows|
    ensures Find(rows, rows[i].rec, rows[i].source) == Some(i)
  {
  }

  /** One write: the row it is for, and every other row unchanged. */
  lemma ApplyItemWrites(db: Db, item: Item)
    requires UniqueKeys(db.rows) && ApplyItem(db, item).Some?
    ensures var d := ApplyItem(db, item).value;
      var at := Find(db.rows, item.rec, item.source);
      && UniqueKeys(d.rows) && d.exposures == db.exposures && d.winners == db.winners
      && |d.rows| == |db.rows| + (if at.None? then 1 else 0)
      && (forall i :: 0 <= i < |db.rows| && at != Some(i) ==> d.rows[i] == db.rows[i])
      && (at.Some? ==> d.rows[at.value] == Updated(db, item, db.rows[at.value]))
      && (at.None? ==> d.rows[|db.rows|] == NewRow(db, item))
      && Find(d.rows, item.rec, item.source) == Some(if at.Some? then at.value else |db.rows|)
  {
  }

  lemma ItemRouting(db: Db, item: Item, row: Row)
    requires ExposureOf(db, item).None?
    ensures Updated(db, item, row).routing == MergeRouting(row.routing, item.routing)
    ensures NewRow(db, item).routing == item.routing
  {
  }

  lemma OtherKeyMissing(db: Db, item: Item, rec: Id, source: Source)
    requires UniqueKeys(db.rows) && ApplyItem(db, item).Some?
    requires Find(db.rows, rec, source).None? && (item.rec != rec || item.source != source)
    ensures Find(ApplyItem(db, item).value.rows, rec, source).None?
  {
  }

  /** One write's effect on the routing stored under any key. */
  lemma OneClaim(db: Db, item: Item, rec: Id, source: Source)
    requires UniqueKeys(db.rows) && ApplyItem(db, item).Some?
    requires item.rec == rec && item.source == source ==> ExposureOf(db, item).None?
    ensures RoutingAt(ApplyItem(db, item).value, rec, source) ==
      if item.rec == rec && item.source == source then MergeRouting(RoutingAt(db, rec, source), item.routing)
      else RoutingAt(db, rec, source)
  {
    hide ApplyItem, Updated, NewRow;
    ApplyItemWrites(db, item);
    var d := ApplyItem(db, item).value;
    var at := Find(db.rows, rec, source);
    if item.rec == rec && item.source == source {
      ItemRouting(db, item, if at.Some? then db.rows[at.value] else NewRow(db, item));
    } else if at.Some? {
      FindIs(d.rows, at.value);
    } else {
      OtherKeyMissing(db, item, rec, source);
    }
  }

  /** For a row with no exposure, the stored routing is the fold of every claim its source made. */
  lemma {:induction false} StoredRoutingIsTheFold(db: Db, items: seq<Item>, rec: Id, source: Source)
    requires UniqueKeys(db.rows) && NoExposureFor(db, items, rec, source) && ApplyItems(db, items).Some?
    ensures var d := ApplyItems(db, items).value;
      && UniqueKeys(d.rows) && d.exposures == db.exposures && d.winners == db.winners
      && RoutingAt(d, rec, source) == Folded(RoutingAt(db, rec, source), ClaimsFor(items, rec, source))
  {
    hide ApplyItem, RoutingAt;
    if items != [] {
      var n := |items| - 1;
      var item := items[n];
      StoredRoutingIsTheFold(db, items[..n], rec, source);
      var before := ApplyItems(db, items[..n]).value;
      ApplyItemWrites(before, item);
      OneClaim(before, item, rec, source);
      FoldedGrows(RoutingAt(db, rec, source), ClaimsFor(items[..n], rec, source), item.routing);
    }
  }

  lemma FoldedGrows(stored: Routing, claims: seq<Routing>, claim: Routing)
    ensures Folded(stored, claims + [claim]) == MergeRouting(Folded(stored, claims), claim)
    ensures Folded(stored, claims + []) == Folded(stored, claims)
  {
    assert (claims + [claim])[..|claims|] == claims && claims + [] == claims;
  }

  // ----- labels ----------------------------------------------------------------------

  /** Both kinds of write recompute the label from what they stored: none exactly when the write
      resolved a winner or an exposure, the routing is proven and nothing bounced. */
  lemma WriteLabels(db: Db, item: Item, row: Row)
    ensures var r := Updated(db, item, row); var n := NewRow(db, item);
      && r.limitation == Limitation(Attributed(db, item), r.routing, DeliveredOf(r.flags))
      && n.limitation == Limitation(Attributed(db, item), n.routing, DeliveredOf(n.flags))
      && (r.limitation.None? <==> Attributed(db, item) && r.routing == RouteToPro && DeliveredOf(r.flags) != Some(false))
      && (n.limitation.None? <==> Attributed(db, item) && n.routing == RouteToPro && DeliveredOf(n.flags) != Some(false))
  {
  }

  // ----- horizons --------------------------------------------------------------------

  /** Measured horizons are a prefix, and a return within one horizon is within the longer ones. */
  predicate HorizonsOk(r: Returned) {
    && (r.day7.Some? ==> r.day1.Some?) && (r.day30.Some? ==> r.day7.Some?)
    && (r.day1 == Some(true) ==> r.day7 == Some(true)) && (r.day7 == Some(true) ==> r.day30 == Some(true))
  }

  ghost predicate Kept(before: Returned, after: Returned) {
    forall h :: At(before, h).Some? ==> At(after, h) == At(before, h)
  }

  /** Every horizon that became true was derived from a confirmed send and a return inside it. */
  ghost predicate Justified(before: Returned, row: Row) {
    forall h :: At(row.returned, h) == Some(true) && At(before, h).None? ==>
      && row.status.Confirmed? && row.sentAt.Some? && row.firstReturn.Some?
      && row.sentAt.value <= row.firstReturn.value <= row.sentAt.value + Window(h)
  }

  lemma WriteMeasures(db: Db, item: Item, row: Row)
    requires HorizonsOk(row.returned)
    ensures var r := Updated(db, item, row);
      HorizonsOk(r.returned) && Kept(row.returned, r.returned) && Justified(row.returned, r)
  {
  }

  lemma NewRowMeasures(db: Db, item: Item)
    ensures HorizonsOk(NewRow(db, item).returned) && Justified(Unmeasured, NewRow(db, item))
  {
  }

  /** The sweep never rewrites a measured value; what it adds is derived, or false where the
      window closed. */
  lemma SweepMeasures(db: Db, row: Row, now: int, gated: bool)
    requires HorizonsOk(row.returned) && row.status.Confirmed?
    ensures var r := Resolved(db, row, now, gated);
      && HorizonsOk(r.returned) && Kept(row.returned, r.returned) && Justified(row.returned, r)
      && r == row.(returned := r.returned)
  {
  }

  // ----- send state ------------------------------------------------------------------

  function Rank(s: SendStatus): nat {
    if s.Confirmed? then 2 else if s.Unknown? then 0 else 1
  }

  /** Without an exposure a confirmed send keeps its clock, and an unconfirmed one is only ever
      replaced by what a submission states; the first return only moves earlier. */
  lemma SendStateAdvances(db: Db, item: Item, row: Row)
    requires ExposureOf(db, item).None?
    ensures var r := Updated(db, item, row);
      && (row.status.Confirmed? ==> r.status.Confirmed? && r.sentAt == row.sentAt)
      && Rank(row.status) <= Rank(r.status)
      && (row.sentAt.Some? ==> r.sentAt.Some?)
      && (row.confirmedAt.Some? ==> r.confirmedAt == row.confirmedAt)
      && (row.firstReturn.Some? ==> r.firstReturn.Some? && r.firstReturn.value <= row.firstReturn.value)
  {
  }

  /** A registered exposure that is confirmed keeps its clock, its winner once it has one, and
      only ever gathers routing claims. */
  lemma RegistrationAdvances(db: Db, item: Registration, id: Id)
    requires id in db.exposures
    ensures var e := db.exposures[id]; var after := Register(db, item).exposures;
      && id in after
      && (e.status.Confirmed? ==> after[id].status.Confirmed? && after[id].sentAt == e.sentAt)
      && Rank(e.status) <= Rank(after[id].status)
      && (e.winner.Some? ==> after[id].winner == e.winner && after[id].pro == e.pro)
      && after[id].arm == e.arm && after[id].checkedAt == e.checkedAt
      && (after[id].routing == e.routing || after[id].routing == MergeRouting(e.routing, item.routing))
  {
  }

  // ----- whose identity --------------------------------------------------------------

  /** Attribution identity comes from the exposure, or else from the winner. */
  lemma IdentityIsTheAuthoritys(db: Db, item: Item, row: Row)
    ensures var e := ExposureOf(db, item); var r := Updated(db, item, row); var n := NewRow(db, item);
      && (e.Some? ==> r.exposure == n.exposure == Some(ExposureId(item)) && r.pro == n.pro == e.value.pro
                      && r.arm == n.arm == e.value.arm && r.routing == n.routing == e.value.routing)
      && (e.None? && WinnerOf(db, item).Some? ==>
            WinnerOf(db, item).value in db.winners && r.pro == n.pro == db.winners[WinnerOf(db, item).value].pro)
      && (!Attributed(db, item) ==> r.pro == row.pro && r.exposure == row.exposure && r.arm == row.arm)
  {
  }

  /** So the caller's own claim about the Pro changes nothing once a winner or exposure resolves,
      and its routing claim changes nothing once an exposure does. */
  lemma CallerIdentityIsIgnored(db: Db, item: Item, row: Row, pro: Id, routing: Routing)
    ensures Attributed(db, item) ==>
      && Updated(db, item.(pro := pro), row) == Updated(db, item, row)
      && NewRow(db, item.(pro := pro)) == NewRow(db, item)
    ensures ExposureOf(db, item).Some? ==>
      && Updated(db, item.(routing := routing), row) == Updated(db, item, row)
      && NewRow(db, item.(routing := routing)) == NewRow(db, item)
  {
  }

  /** A winner-linked registration takes the Pro of its winner, whatever the caller says. */
  lemma RegisteredIdentityIsTheWinners(db: Db, item: Registration, pro: Id)
    requires item.rec.Some?
    ensures Register(db, item.(pro := pro)) == Register(db, item)
    ensures item.rec.value in db.winners && item.id !in db.exposures ==>
      item.id in Register(db, item).exposures
      && Register(db, item).exposures[item.id].pro == db.winners[item.rec.value].pro
  {
  }
}
