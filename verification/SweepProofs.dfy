/** What a checkpoint sweep measures: every horizon that a stored return decides or whose window is
    provably over, on every row its queries return. */
module SweepProofs {
  import opened Common
  import opened Outcomes
  import opened OutcomesRows
  import opened WarmStart
  import opened WarmStartRuns
  import opened RowWrites

  // ----- one row ---------------------------------------------------------------------

  /** Up to when the returns of the row's exposure are known to have been fetched. */
  function Fetched(db: Db, row: Row): Option<int> {
    match row.exposure
    case None => None
    case Some(id) => if id in db.exposures then db.exposures[id].checkedAt else None
  }

  /** The window is six hours past and, where returns must have been fetched, inside what was. */
  predicate Over(db: Db, row: Row, now: int, gated: bool, h: Horizon) {
    && row.sentAt.Some? && now - row.sentAt.value >= Days(h) * 86400 + 6 * 3600
    && (gated ==> Fetched(db, row).Some? && Fetched(db, row).value - row.sentAt.value >= Days(h) * 86400)
  }

  /** What is known of an unmeasured horizon: a stored return decides it either way, and without one
      a window that is over is a miss. */
  function Known(db: Db, row: Row, now: int, gated: bool, h: Horizon): Option<bool> {
    if Shown(row, h).Some? then Shown(row, h)
    else if Over(db, row, now, gated, h) then Some(false)
    else None
  }

  /** A resolved row keeps what it had measured and measures exactly what is known. */
  lemma ResolvedMeans(db: Db, row: Row, now: int, gated: bool, h: Horizon)
    ensures At(Resolved(db, row, now, gated).returned, h) ==
      if At(row.returned, h).Some? then At(row.returned, h) else Known(db, row, now, gated, h)
  {
  }

  /** The query takes exactly the confirmed rows past their first horizon's grace that have something
      left to measure and, on a gated sweep, some return fetched. */
  lemma SweepTakesExactly(db: Db, row: Row, now: int, gated: bool)
    ensures Sweepable(db, row, now, gated) <==>
      && row.status.Confirmed? && Over(db, row, now, false, Day1)
      && (exists h: Horizon :: At(row.returned, h).None?) && (gated ==> Fetched(db, row).Some?)
  {
    if h: Horizon :| At(row.returned, h).None? { match h case Day1 => case Day7 => case Day30 => }
    assert Sweepable(db, row, now, gated) ==>
      At(row.returned, Day1).None? || At(row.returned, Day7).None? || At(row.returned, Day30).None?;
  }

  // ----- a whole sweep ---------------------------------------------------------------

  lemma KnownFrame(a: Db, b: Db, row: Row, was: Row, now: int, gated: bool, h: Horizon)
    requires Framed(a, b) && row == was.(returned := row.returned)
    ensures Known(a, row, now, gated, h) == Known(b, was, now, gated, h)
  {
  }

  /** A row that is picked more than once is measured as if it were picked once. */
  lemma {:induction false} ResolveAllMeans(db: Db, picked: seq<nat>, now: int, gated: bool, i: nat, h: Horizon)
    requires i < |db.rows|
    ensures var d := ResolveAll(db, picked, now, gated);
      && |d.rows| == |db.rows|
      && At(d.rows[i].returned, h) ==
           if At(db.rows[i].returned, h).Some? || i !in picked then At(db.rows[i].returned, h)
           else Known(db, db.rows[i], now, gated, h)
  {
    hide Resolved, Known, At;
    ResolveRows(db, picked, now, gated);
    if picked != [] {
      var n := |picked| - 1;
      ResolveAllMeans(db, picked[..n], now, gated, i, h);
      ResolveRows(db, picked[..n], now, gated);
      var before := ResolveAll(db, picked[..n], now, gated);
      assert picked == picked[..n] + [picked[n]];
      ResolvedMeans(before, before.rows[i], now, gated, h);
      KnownFrame(before, db, before.rows[i], db.rows[i], now, gated, h);
    }
  }

  /** Every row a sweep picks has every known horizon measured afterwards, and nothing else. */
  lemma SweepMeans(db: Db, now: int, gated: bool, silent: seq<Id>, picked: seq<nat>, i: nat, h: Horizon)
    requires i < |Synthesize(db, silent).rows|
    ensures var s := Synthesize(db, silent); var d := Sweep(db, now, gated, silent, picked);
      && |d.rows| == |s.rows|
      && d.rows[i] == s.rows[i].(returned := d.rows[i].returned)
      && At(d.rows[i].returned, h) ==
           if At(s.rows[i].returned, h).Some? || i !in picked then At(s.rows[i].returned, h)
           else Known(s, s.rows[i], now, gated, h)
  {
    hide ResolveAll, Known, At, Synthesize, Reached, PromoteAll;
    var s := Synthesize(db, silent);
    var d := ResolveAll(s, picked, now, gated);
    ResolveRows(s, picked, now, gated);
    ResolveAllMeans(s, picked, now, gated, i, h);
    PromoteAllFacts(d, Reached(s, d, picked));
  }

  // ----- sweeps that reach every row -------------------------------------------------

  /** The queries were not cut by their limits. */
  ghost predicate Unlimited(db: Db, now: int, gated: bool, silent: seq<Id>, picked: seq<nat>) {
    && (forall id :: Silent(db, id, now) ==> id in silent)
    && var s := Synthesize(db, silent);
       forall i: nat :: i < |s.rows| && Sweepable(s, s.rows[i], now, gated) ==> i in picked
  }

  /** After such a sweep no confirmed row has an unmeasured horizon whose window is over. */
  lemma NothingOverdue(db: Db, now: int, gated: bool, silent: seq<Id>, picked: seq<nat>, i: nat, h: Horizon)
    requires Unlimited(db, now, gated, silent, picked)
    requires i < |Synthesize(db, silent).rows|
    requires var row := Synthesize(db, silent).rows[i]; row.status.Confirmed? && Over(Synthesize(db, silent), row, now, gated, h)
    ensures var d := Sweep(db, now, gated, silent, picked); i < |d.rows| && At(d.rows[i].returned, h).Some?
  {
    hide Synthesize, Sweep;
    SweepMeans(db, now, gated, silent, picked, i, h);
  }

  /** A confirmed exposure that no row measures, the silent control among them. */
  ghost predicate Untouched(db: Db, id: Id, now: int) {
    && id in db.exposures
    && db.exposures[id].status.Confirmed? && db.exposures[id].sentAt.Some?
    && now - db.exposures[id].sentAt.value >= 86400 + 6 * 3600
    && forall row :: row in db.rows ==> row.exposure != Some(id) && row.rec != id && db.exposures[id].winner != Some(row.rec)
  }

  /** A row is synthesized for such exposures and no others. */
  lemma SilentExactly(db: Db, id: Id, now: int)
    ensures Silent(db, id, now) <==> Untouched(db, id, now)
  {
    if Silent(db, id, now) {
      forall row | row in db.rows ensures row.exposure != Some(id) && row.rec != id && db.exposures[id].winner != Some(row.rec) {
        var i :| 0 <= i < |db.rows| && db.rows[i] == row;
      }
    }
  }

  ghost predicate MissRow(db: Db, d: Db, row: Row, id: Id, now: int, gated: bool) {
    && id in db.exposures
    && var e := db.exposures[id];
    && row in d.rows && row.rec == id && row.source.Checkpoint? && row.exposure == Some(id)
    && row.pro == e.pro && row.arm == e.arm && row.sentAt == e.sentAt && row.status.Confirmed?
    && (row.limitation.None? <==> e.routing == RouteToPro)
    && forall h :: At(row.returned, h) == if Over(db, row, now, gated, h) then Some(false) else None
  }

  /** Silence is evidence: after such a sweep a confirmed exposure nobody reported on has a row of its
      own, in its arm, with a miss for every window that is over. */
  lemma SilenceIsMeasured(db: Db, now: int, gated: bool, silent: seq<Id>, picked: seq<nat>, id: Id)
    requires AllSilent(db, now, silent) && Unlimited(db, now, gated, silent, picked) && Untouched(db, id, now)
    ensures exists row :: MissRow(db, Sweep(db, now, gated, silent, picked), row, id, now, gated)
  {
    hide Synthesize, Sweep, Over, Sweepable;
    SilentExactly(db, id, now);
    assert forall k :: 0 <= k < |silent| ==> Silent(db, silent[k], now);
    var k :| 0 <= k < |silent| && silent[k] == id;
    SynthesizeRows(db, silent);
    var s := Synthesize(db, silent);
    var i: nat := |db.rows| + k;
    assert s.rows[i] == SilentRow(id, db.exposures[id]);
    var d := Sweep(db, now, gated, silent, picked);
    SweepMeans(db, now, gated, silent, picked, i, Day1);
    forall h: Horizon ensures At(d.rows[i].returned, h) == if Over(db, d.rows[i], now, gated, h) then Some(false) else None {
      SilentHorizon(db, now, gated, silent, picked, i, id, h);
    }
    assert MissRow(db, d, d.rows[i], id, now, gated);
  }

  lemma SilentHorizon(db: Db, now: int, gated: bool, silent: seq<Id>, picked: seq<nat>, i: nat, id: Id, h: Horizon)
    requires Unlimited(db, now, gated, silent, picked) && Untouched(db, id, now)
    requires i < |Synthesize(db, silent).rows| && Synthesize(db, silent).rows[i] == SilentRow(id, db.exposures[id])
    requires Synthesize(db, silent).exposures == db.exposures
    ensures var d := Sweep(db, now, gated, silent, picked);
      i < |d.rows| && At(d.rows[i].returned, h) == if Over(db, d.rows[i], now, gated, h) then Some(false) else None
  {
    hide Synthesize, Sweep;
    SweepMeans(db, now, gated, silent, picked, i, h);
    var s := Synthesize(db, silent);
    if Over(s, s.rows[i], now, gated, h) { assert Sweepable(s, s.rows[i], now, gated); }
  }

  // ----- and what it promotes --------------------------------------------------------

  /** A winner owning a row whose day 7 a sweep newly measured is judged by its evidence again. */
  lemma MeasuredIsPromoted(db: Db, now: int, gated: bool, silent: seq<Id>, picked: seq<nat>, i: nat, w: Id)
    requires i in picked && i < |Synthesize(db, silent).rows| && IsReal(Synthesize(db, silent), w)
    requires var s := Synthesize(db, silent); var row := s.rows[i];
      Owns(s, w, row) && row.returned.day7.None? && Known(s, row, now, gated, Day7).Some?
    ensures var d := Sweep(db, now, gated, silent, picked); w in d.winners && Evident(d, w)
  {
    hide ResolveAll, Known, Synthesize, Reached, PromoteAll, EligibleBy;
    var s := Synthesize(db, silent);
    var d := ResolveAll(s, picked, now, gated);
    ResolveRows(s, picked, now, gated);
    ResolveAllMeans(s, picked, now, gated, i, Day7);
    OwnsFrame(s, d, w, d.rows[i]);
    ReachedHas(s, d, picked, i, w);
    PromotedAreEvident(d, Reached(s, d, picked), w);
  }
}
