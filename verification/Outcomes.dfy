/** Outcome learning: the rows observed outcomes are stored in, and what ingestion, exposure
    registration and the checkpoint sweep do to them. Times are seconds. */
module Outcomes {
  import opened Common

  const DAY := 86400
  const GRACE := 6 * 3600

  type Id = nat

  /** A routing claim; every text but these three is Other. */
  datatype Routing = NoClaim | RouteToPro | Conflict | Other(text: string)

  datatype SendStatus = Unknown | Pending | Confirmed | Failed

  datatype Arm = A | B

  /** touch_outcomes.source; the two that this service writes itself, and everyone else's. */
  datatype Source = Amplitude | Checkpoint | Reported(name: string)

  datatype Flag = Delivered | Clicked | Replied | Unsubscribed

  /** evidence_limitation: why a record cannot be evidence. */
  datatype Label = Unattributed | NotReal(routing: Routing) | Bounced

  datatype Horizon = Day1 | Day7 | Day30

  /** returned_1d, returned_7d, returned_30d. */
  datatype Returned = Returned(day1: Option<bool>, day7: Option<bool>, day30: Option<bool>)

  const Unmeasured := Returned(None, None, None)

  /** One row of touch_outcomes. An outcome flag that is absent is NULL. */
  datatype Row = Row(rec: Id, source: Source, exposure: Option<Id>, pro: Id, arm: Option<Arm>, routing: Routing,
                     sentAt: Option<int>, status: SendStatus, confirmedAt: Option<int>, firstReturn: Option<int>,
                     flags: map<Flag, bool>, returned: Returned, limitation: Option<Label>)

  datatype Exposure = Exposure(winner: Option<Id>, pro: Id, arm: Option<Arm>, routing: Routing,
                               sentAt: Option<int>, status: SendStatus, checkedAt: Option<int>)

  datatype Validation = Validated | ValidatedNegative | Directional

  datatype Evidence = Evidence(returned7: bool, source: string, kind: Option<EvidenceKind>)

  datatype EvidenceKind = Causal | DirectionalOnly

  /** `genuine` is kind == "winner"; a no_action row is not a touch. */
  datatype Winner = Winner(genuine: bool, pro: Id, eligible: bool, validation: Option<Validation>, evidence: Option<Evidence>)

  datatype Db = Db(rows: seq<Row>, exposures: map<Id, Exposure>, winners: map<Id, Winner>)

  /** One submitted outcome, once its recommendation id is resolved. */
  datatype Item = Item(rec: Id, exposure: Option<Id>, source: Source, pro: Id, routing: Routing, sentAt: Option<int>,
                       status: SendStatus, confirmedAt: Option<int>, flags: map<Flag, bool>, firstReturn: Option<int>)

  // ----- pure rules ------------------------------------------------------------------

  function Window(h: Horizon): int {
    match h
    case Day1 => DAY
    case Day7 => 7 * DAY
    case Day30 => 30 * DAY
  }

  function At(r: Returned, h: Horizon): Option<bool> {
    match h
    case Day1 => r.day1
    case Day7 => r.day7
    case Day30 => r.day30
  }

  /** derive_checkpoint_flags. */
  function Derive(sentAt: Option<int>, firstReturn: Option<int>): Returned {
    if sentAt.None? || firstReturn.None? || firstReturn.value < sentAt.value then Unmeasured
    else
      var elapsed := firstReturn.value - sentAt.value;
      Returned(Some(elapsed <= DAY), Some(elapsed <= 7 * DAY), Some(elapsed <= 30 * DAY))
  }

  function Filled(stored: Option<bool>, derived: Option<bool>): Option<bool> {
    if stored.Some? then stored else derived
  }

  /** Only unresolved horizons are filled. */
  function Fill(stored: Returned, derived: Returned): Returned {
    Returned(Filled(stored.day1, derived.day1), Filled(stored.day7, derived.day7), Filled(stored.day30, derived.day30))
  }

  /** merge_routing. */
  function MergeRouting(stored: Routing, submitted: Routing): Routing {
    if submitted.NoClaim? then stored
    else if stored.NoClaim? then submitted
    else if stored == submitted then stored
    else Conflict
  }

  function DeliveredOf(flags: map<Flag, bool>): Option<bool> {
    if Delivered in flags then Some(flags[Delivered]) else None
  }

  /** evidence_limitation. */
  function Limitation(attributed: bool, routing: Routing, delivered: Option<bool>): Option<Label> {
    if !attributed then Some(Unattributed)
    else if routing != RouteToPro then Some(NotReal(routing))
    else if delivered == Some(false) then Some(Bounced)
    else None
  }

  // ----- ingestion -------------------------------------------------------------------

  /** Position of the row keyed (rec, source). */
  function Find(rows: seq<Row>, rec: Id, source: Source): (r: Option<nat>)
    ensures r.Some? ==> r.value < |rows| && rows[r.value].rec == rec && rows[r.value].source == source
    ensures r.None? ==> forall i :: 0 <= i < |rows| ==> !(rows[i].rec == rec && rows[i].source == source)
  {
    if rows == [] then None
    else
      var n := |rows| - 1;
      if rows[n].rec == rec && rows[n].source == source then Some(n) else Find(rows[..n], rec, source)
  }

  function ExposureId(item: Item): Id {
    if item.exposure.Some? then item.exposure.value else item.rec
  }

  function ExposureOf(db: Db, item: Item): Option<Exposure> {
    if ExposureId(item) in db.exposures then Some(db.exposures[ExposureId(item)]) else None
  }

  predicate IsReal(db: Db, id: Id) {
    id in db.winners && db.winners[id].genuine
  }

  /** _winner_for_item: the winner named, or the one the exposure links to. */
  function WinnerOf(db: Db, item: Item): Option<Id> {
    if IsReal(db, item.rec) then Some(item.rec)
    else
      var e := ExposureOf(db, item);
      if e.Some? && e.value.winner.Some? && IsReal(db, e.value.winner.value) then e.value.winner else None
  }

  predicate Attributed(db: Db, item: Item) {
    WinnerOf(db, item).Some? || ExposureOf(db, item).Some?
  }

  /** The pro of the authority record, the submitted one only when there is none. */
  function ProOf(db: Db, item: Item, fallback: Id): Id {
    var e := ExposureOf(db, item);
    var w := WinnerOf(db, item);
    if e.Some? then e.value.pro
    else if w.Some? && w.value in db.winners then db.winners[w.value].pro
    else fallback
  }

  /** A first submission. */
  function NewRow(db: Db, item: Item): Row {
    var e := ExposureOf(db, item);
    var routing := if e.Some? then e.value.routing else item.routing;
    var sentAt := if e.Some? then e.value.sentAt else item.sentAt;
    var status := if e.Some? then e.value.status else item.status;
    Row(item.rec, item.source, if e.Some? then Some(ExposureId(item)) else item.exposure, ProOf(db, item, item.pro),
        if e.Some? then e.value.arm else None, routing, sentAt, status, item.confirmedAt, item.firstReturn, item.flags,
        if status.Confirmed? && item.firstReturn.Some? then Derive(sentAt, item.firstReturn) else Unmeasured,
        Limitation(Attributed(db, item), routing, DeliveredOf(item.flags)))
  }

  /** The attribution fill of a row that is already stored. */
  function Refreshed(db: Db, item: Item, row: Row): Row {
    var e := ExposureOf(db, item);
    if e.Some? then
      row.(exposure := Some(ExposureId(item)), pro := e.value.pro, arm := e.value.arm, routing := e.value.routing,
           sentAt := e.value.sentAt, status := e.value.status)
    else row.(routing := MergeRouting(row.routing, item.routing), pro := ProOf(db, item, row.pro))
  }

  function Earliest(stored: Option<int>, submitted: Option<int>): Option<int> {
    if submitted.Some? && (stored.None? || submitted.value < stored.value) then submitted else stored
  }

  /** _apply_flags. */
  function WithFlags(row: Row, item: Item): Row {
    var sentAt := if !row.status.Confirmed? && item.sentAt.Some? then item.sentAt else row.sentAt;
    var status := if !row.status.Confirmed? && !item.status.Unknown? then item.status else row.status;
    var first := Earliest(row.firstReturn, item.firstReturn);
    row.(flags := row.flags + item.flags, sentAt := sentAt, status := status,
         confirmedAt := if row.confirmedAt.None? then item.confirmedAt else row.confirmedAt,
         firstReturn := first,
         returned := if status.Confirmed? then Fill(row.returned, Derive(sentAt, first)) else row.returned)
  }

  function Updated(db: Db, item: Item, row: Row): Row {
    var r := WithFlags(Refreshed(db, item, row), item);
    r.(limitation := Limitation(Attributed(db, item), r.routing, DeliveredOf(r.flags)))
  }

  /** _apply_item. None is the foreign-key violation of a new row that names an exposure nobody
      registered, which rolls the batch back. */
  function ApplyItem(db: Db, item: Item): Option<Db> {
    var at := Find(db.rows, item.rec, item.source);
    if at.Some? then Some(db.(rows := db.rows[at.value := Updated(db, item, db.rows[at.value])]))
    else if item.exposure.Some? && item.exposure.value !in db.exposures then None
    else Some(db.(rows := db.rows + [NewRow(db, item)]))
  }

  function ApplyItems(db: Db, items: seq<Item>): Option<Db> {
    if items == [] then Some(db)
    else
      var before := ApplyItems(db, items[..|items| - 1]);
      if before.None? then None else ApplyItem(before.value, items[|items| - 1])
  }

  /** Each winner an item of the batch reaches, once. */
  function Affected(db: Db, items: seq<Item>): seq<Id> {
    if items == [] then []
    else
      var before := Affected(db, items[..|items| - 1]);
      var w := WinnerOf(db, items[|items| - 1]);
      if w.Some? && w.value !in before then before + [w.value] else before
  }

  /** One ingest transaction. */
  function Ingest(db: Db, items: seq<Item>): Option<Db> {
    var applied := ApplyItems(db, items);
    if applied.None? then None else Some(PromoteAll(applied.value, Affected(db, items)))
  }

  // ----- warm-start promotion --------------------------------------------------------

  /** The row is reached by the winner: keyed by it, or by an exposure linked to it. */
  predicate Owns(db: Db, w: Id, row: Row) {
    || row.rec == w
    || (row.exposure.Some? && row.exposure.value in db.exposures && db.exposures[row.exposure.value].winner == Some(w))
  }

  function OwnedRows(db: Db, w: Id, rows: seq<Row>): seq<Row> {
    if rows == [] then []
    else OwnedRows(db, w, rows[..|rows| - 1]) + if Owns(db, w, rows[|rows| - 1]) then [rows[|rows| - 1]] else []
  }

  /** Measured at seven days and not labelled. */
  predicate Observed(row: Row) {
    row.returned.day7.Some? && row.limitation.None?
  }

  predicate Positive(row: Row) {
    row.returned.day7 == Some(true)
  }

  predicate Tagged(row: Row) {
    row.arm.Some?
  }

  predicate TreatedPositive(row: Row) {
    row.arm == Some(A) && Positive(row)
  }

  predicate Control(row: Row) {
    row.arm == Some(B)
  }

  function Filter(p: Row -> bool, rows: seq<Row>): seq<Row> {
    if rows == [] then []
    else Filter(p, rows[..|rows| - 1]) + if p(rows[|rows| - 1]) then [rows[|rows| - 1]] else []
  }

  function NameOf(s: Source): string {
    match s
    case Amplitude => "amplitude"
    case Checkpoint => "checkpoint"
    case Reported(name) => name
  }

  /** Text order. */
  predicate NameBefore(a: string, b: string) {
    if b == [] then false
    else if a == [] then true
    else if a[0] != b[0] then a[0] < b[0]
    else NameBefore(a[1..], b[1..])
  }

  /** The first row with the least source name. */
  function LeastSource(rows: seq<Row>): (r: Row)
    requires rows != []
    ensures r in rows
  {
    if |rows| == 1 then rows[0]
    else
      var n := |rows| - 1;
      var least := LeastSource(rows[..n]);
      if NameBefore(NameOf(rows[n].source), NameOf(least.source)) then rows[n] else least
  }

  function EvidenceFrom(row: Row, kind: Option<EvidenceKind>): Evidence {
    Evidence(row.returned.day7 == Some(true), NameOf(row.source), kind)
  }

  function Supported(w: Winner, observed: seq<Row>, positive: seq<Row>, kind: Option<EvidenceKind>): Winner
    requires observed != []
  {
    var row := LeastSource(if positive != [] then positive else observed);
    w.(eligible := positive != [], validation := Some(if positive != [] then Validated else ValidatedNegative),
       evidence := Some(EvidenceFrom(row, kind)))
  }

  /** _promote_warm_start. */
  function Promoted(rows: seq<Row>, w: Winner): Winner {
    if !w.genuine then w
    else
      var observed := Filter(Observed, rows);
      if observed == [] then w.(eligible := false, validation := None, evidence := None)
      else
        var tagged := Filter(Tagged, observed);
        if tagged == [] then Supported(w, observed, Filter(Positive, observed), None)
        else
          var positive := Filter(TreatedPositive, tagged);
          if Filter(Control, tagged) == [] then
            if positive == [] then w.(eligible := false)
            else w.(eligible := false, validation := Some(Directional),
                    evidence := Some(EvidenceFrom(LeastSource(positive), Some(DirectionalOnly))))
          else Supported(w, observed, positive, Some(Causal))
  }

  /** promote_winners. */
  function PromoteAll(db: Db, ids: seq<Id>): Db {
    if ids == [] then db
    else
      var before := PromoteAll(db, ids[..|ids| - 1]);
      var id := ids[|ids| - 1];
      if id !in before.winners then before
      else before.(winners := before.winners[id := Promoted(OwnedRows(before, id, before.rows), before.winners[id])])
  }

  // ----- exposure registration -------------------------------------------------------

  datatype Registration = Registration(id: Id, rec: Option<Id>, pro: Id, arm: Option<Arm>, routing: Routing,
                                       status: SendStatus, sentAt: Option<int>)

  /** One item of exposures._apply; an unknown recommendation is skipped. */
  function Register(db: Db, item: Registration): Db {
    if item.rec.Some? && item.rec.value !in db.winners then db
    else
      var pro := if item.rec.Some? then db.winners[item.rec.value].pro else item.pro;
      if item.id !in db.exposures then
        db.(exposures := db.exposures[item.id :=
              Exposure(item.rec, pro, item.arm, item.routing, item.sentAt, item.status, None)])
      else
        var e := db.exposures[item.id];
        var linked := if e.winner.None? && item.rec.Some? then e.(winner := item.rec, pro := pro) else e;
        var advanced :=
          if e.status.Confirmed? then linked
          else linked.(status := if item.status.Unknown? then e.status else item.status,
                       sentAt := if item.sentAt.Some? then item.sentAt else e.sentAt);
        db.(exposures := db.exposures[item.id := advanced.(routing := MergeRouting(e.routing, item.routing))])
  }

  // ----- the checkpoint sweep --------------------------------------------------------

  /** _due_horizons for one horizon; `covered` is None when the sweep is not gated. */
  predicate Due(sentAt: int, now: int, covered: Option<int>, h: Horizon) {
    && sentAt + Window(h) + GRACE <= now
    && (covered.None? || sentAt + Window(h) <= covered.value)
  }

  function DueFlags(sentAt: int, now: int, covered: Option<int>): Returned {
    Returned(if Due(sentAt, now, covered, Day1) then Some(false) else None,
             if Due(sentAt, now, covered, Day7) then Some(false) else None,
             if Due(sentAt, now, covered, Day30) then Some(false) else None)
  }

  function Coverage(db: Db, row: Row): Option<int> {
    if row.exposure.Some? && row.exposure.value in db.exposures then db.exposures[row.exposure.value].checkedAt else None
  }

  /** The sweep's query. */
  predicate Sweepable(db: Db, row: Row, now: int, gated: bool) {
    && row.status.Confirmed? && row.sentAt.Some? && row.sentAt.value <= now - DAY - GRACE
    && (row.returned.day1.None? || row.returned.day7.None? || row.returned.day30.None?)
    && (gated ==> Coverage(db, row).Some?)
  }

  /** One row of resolve_due_checkpoints: derived values first, measured negatives where the
      window provably closed, never over a stored value. */
  function Resolved(db: Db, row: Row, now: int, gated: bool): Row {
    if row.sentAt.None? then row
    else
      var derived := Derive(row.sentAt, row.firstReturn);
      var covered := if gated then Coverage(db, row) else None;
      var due := if gated && covered.None? then Unmeasured else DueFlags(row.sentAt.value, now, covered);
      row.(returned := Fill(row.returned, Fill(derived, due)))
  }

  /** A confirmed exposure, past its first checkpoint, that no row measures. */
  predicate Silent(db: Db, id: Id, now: int) {
    && id in db.exposures
    && db.exposures[id].status.Confirmed? && db.exposures[id].sentAt.Some?
    && db.exposures[id].sentAt.value <= now - DAY - GRACE
    && forall i :: 0 <= i < |db.rows| ==>
         db.rows[i].exposure != Some(id) && db.rows[i].rec != id && Some(db.rows[i].rec) != db.exposures[id].winner
  }

  function SilentRow(id: Id, e: Exposure): Row {
    Row(id, Checkpoint, Some(id), e.pro, e.arm, e.routing, e.sentAt, e.status, None, None, map[], Unmeasured,
        Limitation(true, e.routing, None))
  }

  /** _synthesize_exposure_rows, for the exposures its query returned. */
  function Synthesize(db: Db, ids: seq<Id>): Db {
    if ids == [] then db
    else
      var before := Synthesize(db, ids[..|ids| - 1]);
      var id := ids[|ids| - 1];
      if id in db.exposures then before.(rows := before.rows + [SilentRow(id, db.exposures[id])]) else before
  }

  /** The rows the query returned, resolved in turn. */
  function ResolveAll(db: Db, picked: seq<nat>, now: int, gated: bool): Db {
    if picked == [] then db
    else
      var before := ResolveAll(db, picked[..|picked| - 1], now, gated);
      var i := picked[|picked| - 1];
      if i < |before.rows| then before.(rows := before.rows[i := Resolved(before, before.rows[i], now, gated)]) else before
  }

  /** Every winner a changed row reaches: by its key once day 7 is measured, and by its exposure. */
  function Reached(db: Db, after: Db, picked: seq<nat>): seq<Id> {
    if picked == [] then []
    else
      var before := Reached(db, after, picked[..|picked| - 1]);
      var i := picked[|picked| - 1];
      if i < |db.rows| && i < |after.rows| && after.rows[i] != db.rows[i] then
        before + (if after.rows[i].returned.day7.Some? then [after.rows[i].rec] else []) + LinkedWinner(db, after.rows[i])
      else before
  }

  function LinkedWinner(db: Db, row: Row): seq<Id> {
    if row.exposure.Some? && row.exposure.value in db.exposures && db.exposures[row.exposure.value].winner.Some?
    then [db.exposures[row.exposure.value].winner.value] else []
  }

  /** One sweep, given what its two LIMITed queries returned. */
  function Sweep(db: Db, now: int, gated: bool, silent: seq<Id>, picked: seq<nat>): Db {
    var synthesized := Synthesize(db, silent);
    var resolved := ResolveAll(synthesized, picked, now, gated);
    PromoteAll(resolved, Reached(synthesized, resolved, picked))
  }
}
