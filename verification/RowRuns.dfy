/** Rows over every run of ingests, registrations, sweeps, new winners and stamps, however touches
    are named and linked: keys stay unique, measured horizons stay a monotone prefix, and no
    measured value is ever rewritten. */
module RowRuns {
  import opened Common
  import opened Outcomes
  import opened OutcomesRows
  import opened WarmStart
  import opened WarmStartRuns

  /** What a sweep's two queries return; every other event may be anything. */
  ghost predicate Queried(db: Db, e: Event) {
    e.Swept? ==> AllSilent(db, e.now, e.silent) && Picked(Synthesize(db, e.silent), e.now, e.gated, e.picked)
  }

  ghost predicate AllQueried(db: Db, events: seq<Event>)
    decreases |events|
  {
    events == [] || (Queried(db, events[0]) && AllQueried(Step(db, events[0]), events[1..]))
  }

  // ----- keys ------------------------------------------------------------------------

  lemma {:induction false} ItemsKeepKeys(db: Db, items: seq<Item>)
    requires UniqueKeys(db.rows) && ApplyItems(db, items).Some?
    ensures var d := ApplyItems(db, items).value; Framed(db, d) && UniqueKeys(d.rows)
  {
    hide ApplyItem, UniqueKeys;
    if items != [] {
      var n := |items| - 1;
      ItemsKeepKeys(db, items[..n]);
      ApplyItemWrites(ApplyItems(db, items[..n]).value, items[n]);
    }
  }

  lemma SynthesizedKeys(db: Db, now: int, ids: seq<Id>)
    requires UniqueKeys(db.rows) && AllSilent(db, now, ids)
    ensures UniqueKeys(Synthesize(db, ids).rows)
  {
    hide Synthesize;
    assert forall k :: 0 <= k < |ids| ==> Silent(db, ids[k], now);
    SynthesizeRows(db, ids);
    var d := Synthesize(db, ids);
    forall i, j | 0 <= i < j < |d.rows| ensures d.rows[i].rec != d.rows[j].rec || d.rows[i].source != d.rows[j].source {
      if j >= |db.rows| {
        var k := j - |db.rows|;
        assert Silent(db, ids[k], now) && d.rows[|db.rows| + k].rec == ids[k];
        if i >= |db.rows| { assert d.rows[|db.rows| + (i - |db.rows|)].rec == ids[i - |db.rows|]; }
      }
    }
  }

  lemma ResolvedKeys(db: Db, picked: seq<nat>, now: int, gated: bool)
    requires UniqueKeys(db.rows)
    ensures UniqueKeys(ResolveAll(db, picked, now, gated).rows)
  {
    hide ResolveAll;
    ResolveRows(db, picked, now, gated);
    var d := ResolveAll(db, picked, now, gated);
    forall i: nat | i < |d.rows| ensures d.rows[i].rec == db.rows[i].rec && d.rows[i].source == db.rows[i].source {
      assert d.rows[i] == db.rows[i].(returned := d.rows[i].returned);
    }
  }

  /** No transaction stores a key twice. */
  lemma StepKeepsKeys(db: Db, e: Event)
    requires UniqueKeys(db.rows) && Queried(db, e)
    ensures UniqueKeys(Step(db, e).rows)
  {
    hide UniqueKeys, AllSilent, Picked, ApplyItems, Affected, PromoteAll, ResolveAll, Synthesize, Reached;
    match e
    case Ingested(items) =>
      if Ingest(db, items).Some? {
        ItemsKeepKeys(db, items);
        PromoteAllFacts(ApplyItems(db, items).value, Affected(db, items));
      }
    case Swept(now, gated, silent, picked) =>
      SynthesizedKeys(db, now, silent);
      var s := Synthesize(db, silent);
      var d := ResolveAll(s, picked, now, gated);
      ResolvedKeys(s, picked, now, gated);
      PromoteAllFacts(d, Reached(s, d, picked));
    case _ =>
  }

  // ----- horizons --------------------------------------------------------------------

  /** What every run keeps of its rows. */
  ghost predicate Sound(rows: seq<Row>) {
    UniqueKeys(rows) && AllOk(rows)
  }

  ghost predicate AllConfirmed(rows: seq<Row>, picked: seq<nat>) {
    forall k :: 0 <= k < |picked| ==> picked[k] < |rows| && rows[picked[k]].status.Confirmed?
  }

  lemma NothingMeasured(r: Returned)
    requires forall h :: At(r, h).None?
    ensures HorizonsOk(r)
  {
    assert At(r, Day1).None? && At(r, Day7).None? && At(r, Day30).None?;
  }

  lemma SynthesizedOk(db: Db, ids: seq<Id>)
    requires AllOk(db.rows) && forall k :: 0 <= k < |ids| ==> ids[k] in db.exposures
    ensures AllOk(Synthesize(db, ids).rows)
  {
    hide Synthesize, HorizonsOk;
    SynthesizeRows(db, ids);
    var d := Synthesize(db, ids);
    forall i | 0 <= i < |d.rows| ensures HorizonsOk(d.rows[i].returned) {
      if i >= |db.rows| {
        assert d.rows[|db.rows| + (i - |db.rows|)] == SilentRow(ids[i - |db.rows|], db.exposures[ids[i - |db.rows|]]);
        NothingMeasured(d.rows[i].returned);
      }
    }
  }

  /** Rows stay where they are, under their keys, and keep every measured horizon. */
  ghost predicate MeasuresKept(before: seq<Row>, after: seq<Row>) {
    |before| <= |after| && forall i :: 0 <= i < |before| ==> SameTouch(before[i], after[i])
  }

  ghost predicate SameTouch(before: Row, after: Row) {
    before.rec == after.rec && before.source == after.source && Kept(before.returned, after.returned)
  }

  lemma MeasuresKeptTwice(a: seq<Row>, b: seq<Row>, c: seq<Row>)
    requires MeasuresKept(a, b) && MeasuresKept(b, c)
    ensures MeasuresKept(a, c)
  {
    forall i | 0 <= i < |a| ensures SameTouch(a[i], c[i]) {
      assert SameTouch(a[i], b[i]) && SameTouch(b[i], c[i]);
    }
  }

  lemma ItemKeepsMeasures(db: Db, item: Item)
    requires Sound(db.rows) && ApplyItem(db, item).Some?
    ensures MeasuresKept(db.rows, ApplyItem(db, item).value.rows) && Sound(ApplyItem(db, item).value.rows)
  {
    hide ApplyItem, Updated, NewRow, UniqueKeys, HorizonsOk;
    ApplyItemWrites(db, item);
    ItemKeepsRowsOk(db, item);
    var at := Find(db.rows, item.rec, item.source);
    if at.Some? {
      assert HorizonsOk(db.rows[at.value].returned);
      WriteMeasures(db, item, db.rows[at.value]);
      UpdatedTouch(db, item, db.rows[at.value]);
    }
  }

  lemma UpdatedTouch(db: Db, item: Item, row: Row)
    ensures Updated(db, item, row).rec == row.rec && Updated(db, item, row).source == row.source
  {
  }

  lemma {:induction false} ItemsKeepMeasures(db: Db, items: seq<Item>)
    requires Sound(db.rows) && ApplyItems(db, items).Some?
    ensures var d := ApplyItems(db, items).value; MeasuresKept(db.rows, d.rows) && Sound(d.rows)
  {
    hide ApplyItem, Sound;
    if items != [] {
      var n := |items| - 1;
      ItemsKeepMeasures(db, items[..n]);
      var before := ApplyItems(db, items[..n]).value;
      ItemKeepsMeasures(before, items[n]);
      MeasuresKeptTwice(db.rows, before.rows, ApplyItem(before, items[n]).value.rows);
    }
  }

  lemma SweepKeepsMeasures(db: Db, now: int, gated: bool, silent: seq<Id>, picked: seq<nat>)
    requires Sound(db.rows) && AllSilent(db, now, silent) && Picked(Synthesize(db, silent), now, gated, picked)
    ensures var d := Sweep(db, now, gated, silent, picked); MeasuresKept(db.rows, d.rows) && Sound(d.rows)
  {
    hide UniqueKeys, AllOk, Reached, PromoteAll, ResolveAll, Synthesize;
    assert forall k :: 0 <= k < |silent| ==> Silent(db, silent[k], now);
    var s := Synthesize(db, silent);
    SynthesizeRows(db, silent);
    SynthesizedKeys(db, now, silent);
    SynthesizedOk(db, silent);
    var d := ResolveAll(s, picked, now, gated);
    ResolveRows(s, picked, now, gated);
    ResolvedKeys(s, picked, now, gated);
    ResolveKeepsOk(s, picked, now, gated);
    PromoteAllFacts(d, Reached(s, d, picked));
    forall i: nat | i < |db.rows| ensures SameTouch(db.rows[i], d.rows[i]) {
      assert s.rows[i] == db.rows[i];
    }
  }

  lemma StepKeepsMeasures(db: Db, e: Event)
    requires Sound(db.rows) && Queried(db, e)
    ensures MeasuresKept(db.rows, Step(db, e).rows) && Sound(Step(db, e).rows)
  {
    hide Sound, ApplyItems, Sweep, Affected, PromoteAll;
    match e
    case Ingested(items) =>
      if Ingest(db, items).Some? {
        ItemsKeepMeasures(db, items);
        PromoteAllFacts(ApplyItems(db, items).value, Affected(db, items));
      }
    case Swept(now, gated, silent, picked) => SweepKeepsMeasures(db, now, gated, silent, picked);
    case _ =>
  }

  /** Over any interleaving of transactions a measured horizon is never rewritten. */
  lemma {:induction false} MeasuredForever(db: Db, events: seq<Event>)
    requires Sound(db.rows) && AllQueried(db, events)
    ensures MeasuresKept(db.rows, Exec(db, events).rows) && Sound(Exec(db, events).rows)
    decreases |events|
  {
    hide Sound, Queried, Step;
    if events != [] {
      var next := Step(db, events[0]);
      StepKeepsMeasures(db, events[0]);
      MeasuredForever(next, events[1..]);
      MeasuresKeptTwice(db.rows, next.rows, Exec(next, events[1..]).rows);
    }
  }

  /** After any run, no key is stored twice and every row's measured horizons are a monotone prefix. */
  lemma HorizonsStayMonotone(events: seq<Event>, i: nat)
    requires AllQueried(Empty, events) && i < |Exec(Empty, events).rows|
    ensures HorizonsOk(Exec(Empty, events).rows[i].returned)
    ensures UniqueKeys(Exec(Empty, events).rows)
  {
    MeasuredForever(Empty, events);
  }
}
