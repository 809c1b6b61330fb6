/** Labels and measured returns over every run: what the last write of a key resolved, and which
    stored version of a row proves each measured return. Any ingested batch and any registration
    is allowed here, however it names its touch. */
module RowHistory {
  import opened Common
  import opened Outcomes
  import opened OutcomesRows
  import opened WarmStart
  import opened WarmStartRuns
  import opened RowRuns

  /** What a row of touch_outcomes is stored under. */
  datatype Key = Key(rec: Id, source: Source)

  function KeyOf(row: Row): Key {
    Key(row.rec, row.source)
  }

  // ----- what the last write resolved ------------------------------------------------

  /** After a batch: for each key, whether its last item resolved a winner or an exposure. */
  function ItemsResolve(db: Db, items: seq<Item>, log: map<Key, bool>): map<Key, bool> {
    if items == [] then log
    else
      var item := items[|items| - 1];
      ItemsResolve(db, items[..|items| - 1], log)[Key(item.rec, item.source) := Attributed(db, item)]
  }

  /** A synthesized row is written for its exposure. */
  function SilentResolve(ids: seq<Id>, log: map<Key, bool>): map<Key, bool> {
    if ids == [] then log else SilentResolve(ids[..|ids| - 1], log)[Key(ids[|ids| - 1], Checkpoint) := true]
  }

  function EventResolves(db: Db, e: Event, log: map<Key, bool>): map<Key, bool> {
    match e
    case Ingested(items) => if Ingest(db, items).Some? then ItemsResolve(db, items, log) else log
    case Swept(_, _, silent, _) => SilentResolve(silent, log)
    case _ => log
  }

  /** After a run: for each key that was ever written, what its last write resolved. */
  function LastWrites(db: Db, events: seq<Event>, log: map<Key, bool>): map<Key, bool>
    decreases |events|
  {
    if events == [] then log else LastWrites(Step(db, events[0]), events[1..], EventResolves(db, events[0], log))
  }

  /** The label of every row, by its stored routing and flags and by what its last write resolved. */
  ghost predicate Labelled(rows: seq<Row>, log: map<Key, bool>) {
    forall i :: 0 <= i < |rows| ==> KeyOf(rows[i]) in log && LabelledBy(rows[i], log[KeyOf(rows[i])])
  }

  predicate LabelledBy(row: Row, resolved: bool) {
    row.limitation == Limitation(resolved, row.routing, DeliveredOf(row.flags))
  }

  // ----- what was written ------------------------------------------------------------

  /** The row one item stores. */
  function WrittenRow(db: Db, item: Item): Row {
    var at := Find(db.rows, item.rec, item.source);
    if at.Some? then Updated(db, item, db.rows[at.value]) else NewRow(db, item)
  }

  function ItemsWrite(db: Db, items: seq<Item>): seq<Row> {
    if items == [] then []
    else
      var before := ApplyItems(db, items[..|items| - 1]);
      if before.None? then [] else ItemsWrite(db, items[..|items| - 1]) + [WrittenRow(before.value, items[|items| - 1])]
  }

  function SweepWrites(db: Db, picked: seq<nat>, now: int, gated: bool): seq<Row> {
    if picked == [] then []
    else
      var before := ResolveAll(db, picked[..|picked| - 1], now, gated);
      var i := picked[|picked| - 1];
      SweepWrites(db, picked[..|picked| - 1], now, gated)
      + if i < |before.rows| then [Resolved(before, before.rows[i], now, gated)] else []
  }

  /** The rows a transaction submitted or resolved, as it stored them. */
  function EventWrites(db: Db, e: Event): seq<Row> {
    match e
    case Ingested(items) => if Ingest(db, items).Some? then ItemsWrite(db, items) else []
    case Swept(now, gated, silent, picked) => SweepWrites(Synthesize(db, silent), picked, now, gated)
    case _ => []
  }

  function History(db: Db, events: seq<Event>): seq<Row>
    decreases |events|
  {
    if events == [] then [] else EventWrites(db, events[0]) + History(Step(db, events[0]), events[1..])
  }

  /** The version shows a confirmed send and a return inside the horizon. */
  predicate Proves(row: Row, h: Horizon) {
    && At(row.returned, h) == Some(true) && row.status.Confirmed? && row.sentAt.Some? && row.firstReturn.Some?
    && row.sentAt.value <= row.firstReturn.value <= row.sentAt.value + Window(h)
  }

  ghost predicate Proven(past: seq<Row>, key: Key, h: Horizon) {
    exists v :: v in past && KeyOf(v) == key && Proves(v, h)
  }

  ghost predicate AllProven(rows: seq<Row>, past: seq<Row>) {
    forall i, h :: 0 <= i < |rows| && At(rows[i].returned, h) == Some(true) ==> Proven(past, KeyOf(rows[i]), h)
  }

  // ----- one item --------------------------------------------------------------------

  lemma AttributedFrame(a: Db, b: Db, item: Item)
    requires Framed(a, b)
    ensures Attributed(a, item) == Attributed(b, item)
  {
  }

  lemma WrittenRowFacts(db: Db, item: Item)
    ensures KeyOf(WrittenRow(db, item)) == Key(item.rec, item.source)
    ensures LabelledBy(WrittenRow(db, item), Attributed(db, item))
  {
  }

  lemma ItemLabels(db: Db, item: Item, log: map<Key, bool>)
    requires UniqueKeys(db.rows) && Labelled(db.rows, log) && ApplyItem(db, item).Some?
    ensures Labelled(ApplyItem(db, item).value.rows, log[Key(item.rec, item.source) := Attributed(db, item)])
  {
    hide ApplyItem, Updated, NewRow, LabelledBy, Attributed;
    ApplyItemWrites(db, item);
    WrittenRowFacts(db, item);
    var d := ApplyItem(db, item).value;
    var at := Find(db.rows, item.rec, item.source);
    forall i | 0 <= i < |d.rows| && KeyOf(d.rows[i]) != Key(item.rec, item.source) ensures i < |db.rows| && d.rows[i] == db.rows[i] {
      assert at.Some? ==> i != at.value;
    }
    forall i | 0 <= i < |d.rows| && KeyOf(d.rows[i]) == Key(item.rec, item.source) ensures d.rows[i] == WrittenRow(db, item) {
      FindIs(d.rows, i);
    }
  }

  /** A return the write makes true is proven by the row it stores; one that was true stays proven. */
  lemma ItemProves(db: Db, item: Item, past: seq<Row>)
    requires UniqueKeys(db.rows) && AllOk(db.rows) && AllProven(db.rows, past) && ApplyItem(db, item).Some?
    ensures AllProven(ApplyItem(db, item).value.rows, past + [WrittenRow(db, item)])
  {
    hide ApplyItem, Updated, NewRow, UniqueKeys, HorizonsOk, Proves;
    ApplyItemWrites(db, item);
    WrittenRowFacts(db, item);
    var d := ApplyItem(db, item).value;
    var at := Find(db.rows, item.rec, item.source);
    var written := WrittenRow(db, item);
    var now := past + [written];
    forall i, h | 0 <= i < |d.rows| && At(d.rows[i].returned, h) == Some(true) ensures Proven(now, KeyOf(d.rows[i]), h) {
      if i < |db.rows| && at != Some(i) {
        StillProven(past, [written], KeyOf(d.rows[i]), h);
      } else {
        assert d.rows[i] == written;
        if at.Some? && At(db.rows[i].returned, h) == Some(true) {
          StillProven(past, [written], KeyOf(db.rows[i]), h);
        } else {
          WrittenProves(db, item, h);
        }
      }
    }
  }

  lemma StillProven(past: seq<Row>, more: seq<Row>, key: Key, h: Horizon)
    requires Proven(past, key, h)
    ensures Proven(past + more, key, h)
  {
    hide Proves;
    var v :| v in past && KeyOf(v) == key && Proves(v, h);
    assert v in past + more;
  }

  lemma WrittenProves(db: Db, item: Item, h: Horizon)
    requires AllOk(db.rows) && At(WrittenRow(db, item).returned, h) == Some(true)
    requires var at := Find(db.rows, item.rec, item.source); at.Some? ==> At(db.rows[at.value].returned, h) != Some(true)
    ensures Proves(WrittenRow(db, item), h)
  {
    hide Updated, NewRow, HorizonsOk;
    var at := Find(db.rows, item.rec, item.source);
    if at.Some? {
      assert HorizonsOk(db.rows[at.value].returned);
      WriteMeasures(db, item, db.rows[at.value]);
    } else {
      NewRowMeasures(db, item);
      assert At(Unmeasured, h).None?;
    }
  }

  // ----- one transaction -------------------------------------------------------------

  /** What the runs keep. */
  ghost predicate Honest(db: Db, log: map<Key, bool>, past: seq<Row>) {
    UniqueKeys(db.rows) && AllOk(db.rows) && Labelled(db.rows, log) && AllProven(db.rows, past)
  }

  lemma {:induction false} ItemsStayHonest(db: Db, items: seq<Item>, log: map<Key, bool>, past: seq<Row>)
    requires Honest(db, log, past) && ApplyItems(db, items).Some?
    ensures var d := ApplyItems(db, items).value;
      Framed(db, d) && Honest(d, ItemsResolve(db, items, log), past + ItemsWrite(db, items))
  {
    hide ApplyItem, Labelled, AllProven, UniqueKeys, AllOk, WrittenRow, Attributed;
    if items == [] {
      assert past + [] == past;
    } else {
      var n := |items| - 1;
      ItemsStayHonest(db, items[..n], log, past);
      var before := ApplyItems(db, items[..n]).value;
      var now := past + ItemsWrite(db, items[..n]);
      ApplyItemWrites(before, items[n]);
      ItemKeepsRowsOk(before, items[n]);
      ItemLabels(before, items[n], ItemsResolve(db, items[..n], log));
      AttributedFrame(db, before, items[n]);
      ItemProves(before, items[n], now);
      assert past + ItemsWrite(db, items) == now + [WrittenRow(before, items[n])];
    }
  }

  lemma {:induction false} SilentLogged(ids: seq<Id>, log: map<Key, bool>, key: Key)
    ensures var after := SilentResolve(ids, log);
      && (key in after <==> key in log || (key.source.Checkpoint? && key.rec in ids))
      && (key in after ==> after[key] == if key.source.Checkpoint? && key.rec in ids then true else log[key])
  {
    if ids != [] {
      var n := |ids| - 1;
      SilentLogged(ids[..n], log, key);
      assert ids == ids[..n] + [ids[n]];
    }
  }

  lemma SilentRowLabel(id: Id, e: Exposure)
    ensures KeyOf(SilentRow(id, e)) == Key(id, Checkpoint) && LabelledBy(SilentRow(id, e), true)
    ensures forall h :: At(SilentRow(id, e).returned, h).None?
  {
  }

  /** Synthesized rows are attributed to their exposures and measure nothing. */
  lemma SynthesizeStaysHonest(db: Db, now: int, ids: seq<Id>, log: map<Key, bool>, past: seq<Row>)
    requires Honest(db, log, past) && AllSilent(db, now, ids)
    ensures Honest(Synthesize(db, ids), SilentResolve(ids, log), past)
  {
    hide Synthesize, SilentRow, LabelledBy, HorizonsOk;
    assert forall k :: 0 <= k < |ids| ==> Silent(db, ids[k], now);
    SynthesizeRows(db, ids);
    var d := Synthesize(db, ids);
    var after := SilentResolve(ids, log);
    forall k | 0 <= k < |ids| ensures d.rows[|db.rows| + k] == SilentRow(ids[k], db.exposures[ids[k]]) {
    }
    forall i | 0 <= i < |d.rows| ensures KeyOf(d.rows[i]) in after && LabelledBy(d.rows[i], after[KeyOf(d.rows[i])]) {
      SilentLogged(ids, log, KeyOf(d.rows[i]));
      if i >= |db.rows| { SilentRowLabel(ids[i - |db.rows|], db.exposures[ids[i - |db.rows|]]); }
    }
    SynthesizedKeys(db, now, ids);
    SynthesizedProven(db, ids, past);
  }

  lemma SynthesizedProven(db: Db, ids: seq<Id>, past: seq<Row>)
    requires AllProven(db.rows, past) && AllOk(db.rows) && forall k :: 0 <= k < |ids| ==> ids[k] in db.exposures
    ensures AllProven(Synthesize(db, ids).rows, past) && AllOk(Synthesize(db, ids).rows)
  {
    hide Synthesize, SilentRow, Proven;
    SynthesizeRows(db, ids);
    var d := Synthesize(db, ids);
    forall i | |db.rows| <= i < |d.rows| ensures forall h :: At(d.rows[i].returned, h).None? {
      assert d.rows[|db.rows| + (i - |db.rows|)] == SilentRow(ids[i - |db.rows|], db.exposures[ids[i - |db.rows|]]);
      SilentRowLabel(ids[i - |db.rows|], db.exposures[ids[i - |db.rows|]]);
    }
    SynthesizedOk(db, ids);
  }

  lemma {:induction false} ResolveProves(db: Db, picked: seq<nat>, now: int, gated: bool, past: seq<Row>)
    requires AllOk(db.rows) && AllProven(db.rows, past) && AllConfirmed(db.rows, picked)
    ensures AllProven(ResolveAll(db, picked, now, gated).rows, past + SweepWrites(db, picked, now, gated))
  {
    hide Resolved, HorizonsOk, Proven;
    if picked == [] {
      assert past + [] == past;
    } else {
      var n := |picked| - 1;
      ResolveProves(db, picked[..n], now, gated, past);
      ResolveKeepsOk(db, picked[..n], now, gated);
      ResolveRows(db, picked[..n], now, gated);
      var before := ResolveAll(db, picked[..n], now, gated);
      var i := picked[n];
      var logged := past + SweepWrites(db, picked[..n], now, gated);
      var row := Resolved(before, before.rows[i], now, gated);
      assert before.rows[i].status == db.rows[i].status;
      ResolvedProves(before, i, now, gated, logged);
      assert past + SweepWrites(db, picked, now, gated) == logged + [row];
    }
  }

  lemma ResolvedProves(db: Db, i: nat, now: int, gated: bool, past: seq<Row>)
    requires i < |db.rows| && AllOk(db.rows) && AllProven(db.rows, past) && db.rows[i].status.Confirmed?
    ensures var row := Resolved(db, db.rows[i], now, gated); AllProven(db.rows[i := row], past + [row])
  {
    hide Resolved, HorizonsOk;
    var row := Resolved(db, db.rows[i], now, gated);
    assert HorizonsOk(db.rows[i].returned);
    SweepMeasures(db, db.rows[i], now, gated);
    var rows := db.rows[i := row];
    forall j, h | 0 <= j < |rows| && At(rows[j].returned, h) == Some(true) ensures Proven(past + [row], KeyOf(rows[j]), h) {
      if At(db.rows[j].returned, h) == Some(true) {
        StillProven(past, [row], KeyOf(db.rows[j]), h);
      } else {
        assert Proves(row, h) && row in past + [row];
      }
    }
  }

  lemma ResolveKeepsLabels(db: Db, picked: seq<nat>, now: int, gated: bool, log: map<Key, bool>)
    requires UniqueKeys(db.rows) && Labelled(db.rows, log)
    ensures var d := ResolveAll(db, picked, now, gated); UniqueKeys(d.rows) && Labelled(d.rows, log)
  {
    hide ResolveAll;
    ResolveRows(db, picked, now, gated);
    var d := ResolveAll(db, picked, now, gated);
    forall i: nat | i < |d.rows| ensures KeyOf(d.rows[i]) == KeyOf(db.rows[i]) && d.rows[i].limitation == db.rows[i].limitation
      && d.rows[i].routing == db.rows[i].routing && d.rows[i].flags == db.rows[i].flags
    {
      assert d.rows[i] == db.rows[i].(returned := d.rows[i].returned);
    }
  }

  lemma SweepStaysHonest(db: Db, now: int, gated: bool, silent: seq<Id>, picked: seq<nat>, log: map<Key, bool>, past: seq<Row>)
    requires Honest(db, log, past) && AllSilent(db, now, silent) && Picked(Synthesize(db, silent), now, gated, picked)
    ensures Honest(Sweep(db, now, gated, silent, picked), SilentResolve(silent, log),
                   past + SweepWrites(Synthesize(db, silent), picked, now, gated))
  {
    hide Labelled, AllProven, UniqueKeys, AllOk, AllSilent, Synthesize, ResolveAll, PromoteAll, Reached, SweepWrites, SilentResolve;
    SynthesizeStaysHonest(db, now, silent, log, past);
    var s := Synthesize(db, silent);
    var d := ResolveAll(s, picked, now, gated);
    assert AllConfirmed(s.rows, picked);
    ResolveKeepsOk(s, picked, now, gated);
    ResolveProves(s, picked, now, gated, past);
    ResolveKeepsLabels(s, picked, now, gated, SilentResolve(silent, log));
    PromoteAllFacts(d, Reached(s, d, picked));
  }

  // ----- every run -------------------------------------------------------------------

  lemma StepStaysHonest(db: Db, e: Event, log: map<Key, bool>, past: seq<Row>)
    requires Honest(db, log, past) && Queried(db, e)
    ensures Honest(Step(db, e), EventResolves(db, e, log), past + EventWrites(db, e))
  {
    hide Labelled, AllProven, UniqueKeys, AllOk, AllSilent, ApplyItems, Sweep, PromoteAll, Affected, Picked, Synthesize;
    match e
    case Ingested(items) =>
      if Ingest(db, items).Some? {
        ItemsStayHonest(db, items, log, past);
        PromoteAllFacts(ApplyItems(db, items).value, Affected(db, items));
      } else {
        assert past + [] == past;
      }
    case Swept(now, gated, silent, picked) => SweepStaysHonest(db, now, gated, silent, picked, log, past);
    case _ => assert past + [] == past;
  }

  lemma {:induction false} EveryRunStaysHonest(db: Db, events: seq<Event>, log: map<Key, bool>, past: seq<Row>)
    requires Honest(db, log, past) && AllQueried(db, events)
    ensures Honest(Exec(db, events), LastWrites(db, events, log), past + History(db, events))
    decreases |events|
  {
    hide Honest, Queried, Step, EventResolves, EventWrites;
    if events == [] {
      assert past + [] == past;
    } else {
      var e := events[0];
      StepStaysHonest(db, e, log, past);
      EveryRunStaysHonest(Step(db, e), events[1..], EventResolves(db, e, log), past + EventWrites(db, e));
      assert past + EventWrites(db, e) + History(Step(db, e), events[1..]) == past + History(db, events);
    }
  }

  /** After any run a row can count as evidence exactly when the last write under its key resolved a
      winner or an exposure, its routing is proven and its delivery was not refused; otherwise its
      label says which of the three failed first. */
  lemma RowsStayHonest(events: seq<Event>, i: nat)
    requires AllQueried(Empty, events) && i < |Exec(Empty, events).rows|
    ensures var row := Exec(Empty, events).rows[i]; var log := LastWrites(Empty, events, map[]);
      && KeyOf(row) in log
      && (row.limitation.None? <==> log[KeyOf(row)] && row.routing == RouteToPro && DeliveredOf(row.flags) != Some(false))
      && (row.limitation == Some(Unattributed) <==> !log[KeyOf(row)])
      && (row.limitation == Some(Bounced) <==> log[KeyOf(row)] && row.routing == RouteToPro && DeliveredOf(row.flags) == Some(false))
  {
    EveryRunStaysHonest(Empty, events, map[], []);
    var row := Exec(Empty, events).rows[i];
    assert LabelledBy(row, LastWrites(Empty, events, map[])[KeyOf(row)]);
  }

  /** After any run, behind every horizon a row shows as returned there is a stored version of that
      row with a confirmed send and a first return inside the horizon. */
  lemma ReturnsAreProven(events: seq<Event>, i: nat, h: Horizon)
    requires AllQueried(Empty, events) && i < |Exec(Empty, events).rows|
    ensures var row := Exec(Empty, events).rows[i];
      At(row.returned, h) == Some(true) ==> Proven(History(Empty, events), KeyOf(row), h)
  {
    EveryRunStaysHonest(Empty, events, map[], []);
    assert [] + History(Empty, events) == History(Empty, events);
  }
}
