/** What one write leaves in a row, and what every run keeps of the returns it was told: the earliest
    one stays, and a confirmed row is measured as soon as it shows one. */
module RowWrites {
  import opened Common
  import opened Outcomes
  import opened OutcomesRows
  import opened WarmStart
  import opened WarmStartRuns
  import opened RowRuns
  import opened RowHistory

  // ----- whose touch it is -----------------------------------------------------------

  /** A genuine winner that is named comes before the one the exposure links to. */
  lemma NamedWinnerFirst(db: Db, item: Item, w: Id)
    ensures WinnerOf(db, item) == Some(w) <==>
      IsReal(db, w) &&
      if IsReal(db, item.rec) then w == item.rec
      else var e := ExposureOf(db, item); e.Some? && e.value.winner == Some(w)
  {
  }

  /** After a batch the winner of each of its items is judged by its evidence again. */
  lemma IngestJudgesWinners(db: Db, items: seq<Item>, i: nat, w: Id)
    requires i < |items| && Ingest(db, items).Some? && IsReal(db, w)
    requires w == items[i].rec
      || (!IsReal(db, items[i].rec) && var e := ExposureOf(db, items[i]); e.Some? && e.value.winner == Some(w))
    ensures var d := Ingest(db, items).value; w in d.winners && Evident(d, w)
  {
    hide ApplyItems, Affected, PromoteAll, EligibleBy;
    NamedWinnerFirst(db, items[i], w);
    AffectedHas(db, items, i);
    ItemsFrame(db, items);
    PromotedAreEvident(ApplyItems(db, items).value, Affected(db, items), w);
  }

  lemma {:induction false} ItemsFrame(db: Db, items: seq<Item>)
    requires ApplyItems(db, items).Some?
    ensures Framed(db, ApplyItems(db, items).value)
  {
    if items != [] { ItemsFrame(db, items[..|items| - 1]); }
  }

  // ----- the send --------------------------------------------------------------------

  /** A confirmed send is the exposure's when there is one, else the row's own, and nothing submitted
      moves it; an unconfirmed one takes what the submission states. */
  lemma SendStateMeans(db: Db, item: Item, row: Row)
    ensures var r := Updated(db, item, row); var e := ExposureOf(db, item);
      var status := if e.Some? then e.value.status else row.status;
      var sentAt := if e.Some? then e.value.sentAt else row.sentAt;
      && (status.Confirmed? ==> r.status == Confirmed && r.sentAt == sentAt)
      && (!status.Confirmed? ==>
            && r.status == (if item.status.Unknown? then status else item.status)
            && r.sentAt == (if item.sentAt.Some? then item.sentAt else sentAt))
      && r.exposure == (if e.Some? then Some(ExposureId(item)) else row.exposure)
  {
  }

  // ----- what it measures ------------------------------------------------------------

  predicate ReturnStored(row: Row) {
    row.sentAt.Some? && row.firstReturn.Some? && row.firstReturn.value >= row.sentAt.value
  }

  function Days(h: Horizon): int {
    match h
    case Day1 => 1
    case Day7 => 7
    case Day30 => 30
  }

  /** What the row's own send and first return say of a horizon. */
  function Shown(row: Row, h: Horizon): Option<bool> {
    if ReturnStored(row) then Some(row.firstReturn.value - row.sentAt.value <= Days(h) * 86400) else None
  }

  /** A write measures an unmeasured horizon exactly when the row it stores is confirmed and shows a
      return, and as it shows it. */
  lemma UpdateMeasures(db: Db, item: Item, row: Row, h: Horizon)
    ensures var r := Updated(db, item, row);
      At(r.returned, h) == if At(row.returned, h).Some? || !r.status.Confirmed? then At(row.returned, h) else Shown(r, h)
    ensures var r := NewRow(db, item); At(r.returned, h) == if r.status.Confirmed? then Shown(r, h) else None
  {
  }

  ghost predicate Timely(row: Row) {
    row.status.Confirmed? && ReturnStored(row) ==> forall h: Horizon :: At(row.returned, h).Some?
  }

  ghost predicate AllTimely(rows: seq<Row>) {
    forall i :: 0 <= i < |rows| ==> Timely(rows[i])
  }

  lemma WrittenIsTimely(db: Db, item: Item)
    ensures Timely(WrittenRow(db, item))
  {
    hide Updated, NewRow;
    var at := Find(db.rows, item.rec, item.source);
    forall h: Horizon | WrittenRow(db, item).status.Confirmed? && ReturnStored(WrittenRow(db, item))
      ensures At(WrittenRow(db, item).returned, h).Some?
    {
      UpdateMeasures(db, item, if at.Some? then db.rows[at.value] else NewRow(db, item), h);
    }
  }

  lemma {:induction false} ItemsAreTimely(db: Db, items: seq<Item>)
    requires AllTimely(db.rows) && ApplyItems(db, items).Some?
    ensures AllTimely(ApplyItems(db, items).value.rows)
  {
    hide Timely, Updated, NewRow;
    if items != [] {
      var n := |items| - 1;
      ItemsAreTimely(db, items[..n]);
      WrittenIsTimely(ApplyItems(db, items[..n]).value, items[n]);
    }
  }

  lemma SweepIsTimely(db: Db, now: int, gated: bool, silent: seq<Id>, picked: seq<nat>)
    requires Sound(db.rows) && AllTimely(db.rows)
    requires AllSilent(db, now, silent) && Picked(Synthesize(db, silent), now, gated, picked)
    ensures AllTimely(Sweep(db, now, gated, silent, picked).rows)
  {
    hide Synthesize, ResolveAll, PromoteAll, Reached, Sound, Sweepable;
    assert forall k :: 0 <= k < |silent| ==> Silent(db, silent[k], now);
    SynthesizeRows(db, silent);
    var s := Synthesize(db, silent);
    SweepKeepsMeasures(db, now, gated, silent, picked);
    var d := ResolveAll(s, picked, now, gated);
    ResolveRows(s, picked, now, gated);
    PromoteAllFacts(d, Reached(s, d, picked));
    forall i: nat | i < |d.rows| ensures Timely(d.rows[i]) {
      assert d.rows[i] == s.rows[i].(returned := d.rows[i].returned);
      if i < |db.rows| {
        assert Timely(db.rows[i]) && SameTouch(db.rows[i], d.rows[i]);
      } else {
        assert s.rows[|db.rows| + (i - |db.rows|)] == SilentRow(silent[i - |db.rows|], db.exposures[silent[i - |db.rows|]]);
      }
    }
  }

  lemma StepIsTimely(db: Db, e: Event)
    requires Sound(db.rows) && AllTimely(db.rows) && Queried(db, e)
    ensures AllTimely(Step(db, e).rows)
  {
    hide Sound, AllTimely, ApplyItems, Sweep, Affected, PromoteAll, AllSilent, Picked, Synthesize;
    match e
    case Ingested(items) =>
      if Ingest(db, items).Some? {
        ItemsAreTimely(db, items);
        PromoteAllFacts(ApplyItems(db, items).value, Affected(db, items));
      }
    case Swept(now, gated, silent, picked) => SweepIsTimely(db, now, gated, silent, picked);
    case _ =>
  }

  lemma {:induction false} EveryRunIsTimely(db: Db, events: seq<Event>)
    requires Sound(db.rows) && AllTimely(db.rows) && AllQueried(db, events)
    ensures AllTimely(Exec(db, events).rows)
    decreases |events|
  {
    hide Sound, AllTimely, Queried, Step;
    if events != [] {
      StepIsTimely(db, events[0]);
      StepKeepsMeasures(db, events[0]);
      EveryRunIsTimely(Step(db, events[0]), events[1..]);
    }
  }

  /** After any run a confirmed row that shows a return has every horizon measured: no later sweep is
      needed to learn what is already known. */
  lemma ShownIsMeasured(events: seq<Event>, i: nat, h: Horizon)
    requires AllQueried(Empty, events) && i < |Exec(Empty, events).rows|
    requires Exec(Empty, events).rows[i].status.Confirmed? && ReturnStored(Exec(Empty, events).rows[i])
    ensures At(Exec(Empty, events).rows[i].returned, h).Some?
  {
    EveryRunIsTimely(Empty, events);
    assert Timely(Exec(Empty, events).rows[i]);
  }

  // ----- the earliest return -----------------------------------------------------------

  function ItemsReturns(items: seq<Item>, key: Key): seq<int> {
    if items == [] then []
    else
      var item := items[|items| - 1];
      ItemsReturns(items[..|items| - 1], key)
      + if Key(item.rec, item.source) == key && item.firstReturn.Some? then [item.firstReturn.value] else []
  }

  function EventReturns(db: Db, e: Event, key: Key): seq<int> {
    if e.Ingested? && Ingest(db, e.items).Some? then ItemsReturns(e.items, key) else []
  }

  /** Every first return a run submitted under a key, in stored batches. */
  function RunReturns(db: Db, events: seq<Event>, key: Key): seq<int>
    decreases |events|
  {
    if events == [] then [] else EventReturns(db, events[0], key) + RunReturns(Step(db, events[0]), events[1..], key)
  }

  function FirstReturnOf(db: Db, key: Key): Option<int> {
    var at := Find(db.rows, key.rec, key.source);
    if at.Some? then db.rows[at.value].firstReturn else None
  }

  ghost predicate IsEarliest(first: Option<int>, times: seq<int>) {
    if first.None? then times == [] else first.value in times && forall t :: t in times ==> first.value <= t
  }

  lemma OneReturn(db: Db, item: Item, key: Key, times: seq<int>)
    requires UniqueKeys(db.rows) && ApplyItem(db, item).Some? && IsEarliest(FirstReturnOf(db, key), times)
    ensures IsEarliest(FirstReturnOf(ApplyItem(db, item).value, key),
      times + if Key(item.rec, item.source) == key && item.firstReturn.Some? then [item.firstReturn.value] else [])
  {
    hide ApplyItem, Updated, NewRow;
    ApplyItemWrites(db, item);
    var d := ApplyItem(db, item).value;
    var at := Find(db.rows, key.rec, key.source);
    if Key(item.rec, item.source) == key {
      ReturnWritten(db, item, if at.Some? then db.rows[at.value] else NewRow(db, item));
      FindIs(d.rows, if at.Some? then at.value else |db.rows|);
    } else if at.Some? {
      FindIs(d.rows, at.value);
    } else {
      OtherKeyMissing(db, item, key.rec, key.source);
    }
  }

  lemma ReturnWritten(db: Db, item: Item, row: Row)
    ensures NewRow(db, item).firstReturn == item.firstReturn
    ensures Updated(db, item, row).firstReturn ==
      if item.firstReturn.None? then row.firstReturn
      else if row.firstReturn.None? || item.firstReturn.value < row.firstReturn.value then item.firstReturn
      else row.firstReturn
  {
  }

  lemma {:induction false} ItemsKeepEarliest(db: Db, items: seq<Item>, key: Key, times: seq<int>)
    requires UniqueKeys(db.rows) && ApplyItems(db, items).Some? && IsEarliest(FirstReturnOf(db, key), times)
    ensures IsEarliest(FirstReturnOf(ApplyItems(db, items).value, key), times + ItemsReturns(items, key))
  {
    hide ApplyItem, UniqueKeys, FirstReturnOf, IsEarliest;
    if items == [] {
      assert times + [] == times;
    } else {
      var n := |items| - 1;
      var before := times + ItemsReturns(items[..n], key);
      ItemsKeepEarliest(db, items[..n], key, times);
      ItemsKeepKeys(db, items[..n]);
      OneReturn(ApplyItems(db, items[..n]).value, items[n], key, before);
      var item := items[n];
      var last := if Key(item.rec, item.source) == key && item.firstReturn.Some? then [item.firstReturn.value] else [];
      assert before + last == times + ItemsReturns(items, key);
    }
  }

  lemma SweepReturnsNothing(db: Db, now: int, gated: bool, silent: seq<Id>, picked: seq<nat>, key: Key)
    requires UniqueKeys(db.rows) && AllSilent(db, now, silent)
    ensures FirstReturnOf(Sweep(db, now, gated, silent, picked), key) == FirstReturnOf(db, key)
  {
    hide Synthesize, ResolveAll, PromoteAll, Reached;
    assert forall k :: 0 <= k < |silent| ==> Silent(db, silent[k], now);
    SynthesizeRows(db, silent);
    SynthesizedKeys(db, now, silent);
    var s := Synthesize(db, silent);
    var d := ResolveAll(s, picked, now, gated);
    ResolvedKeys(s, picked, now, gated);
    ResolveRows(s, picked, now, gated);
    PromoteAllFacts(d, Reached(s, d, picked));
    forall i: nat | i < |d.rows| ensures KeyOf(d.rows[i]) == KeyOf(s.rows[i]) && d.rows[i].firstReturn == s.rows[i].firstReturn {
      assert d.rows[i] == s.rows[i].(returned := d.rows[i].returned);
    }
    forall i | |db.rows| <= i < |d.rows| ensures d.rows[i].firstReturn.None? {
      assert s.rows[|db.rows| + (i - |db.rows|)] == SilentRow(silent[i - |db.rows|], db.exposures[silent[i - |db.rows|]]);
    }
    var at := Find(db.rows, key.rec, key.source);
    if at.Some? {
      FindIs(d.rows, at.value);
    } else {
      var later := Find(d.rows, key.rec, key.source);
      assert later.Some? ==> KeyOf(d.rows[later.value]) == key;
    }
  }

  lemma StepKeepsEarliest(db: Db, e: Event, key: Key, times: seq<int>)
    requires UniqueKeys(db.rows) && Queried(db, e) && IsEarliest(FirstReturnOf(db, key), times)
    ensures IsEarliest(FirstReturnOf(Step(db, e), key), times + EventReturns(db, e, key))
  {
    hide UniqueKeys, IsEarliest, AllSilent, Picked, ApplyItems, Affected, PromoteAll, Sweep, ItemsReturns;
    assert times + [] == times;
    match e
    case Ingested(items) =>
      if Ingest(db, items).Some? {
        ItemsKeepEarliest(db, items, key, times);
        PromoteAllFacts(ApplyItems(db, items).value, Affected(db, items));
      }
    case Swept(now, gated, silent, picked) => SweepReturnsNothing(db, now, gated, silent, picked, key);
    case _ =>
  }

  lemma {:induction false} RunKeepsEarliest(db: Db, events: seq<Event>, key: Key, times: seq<int>)
    requires UniqueKeys(db.rows) && AllQueried(db, events) && IsEarliest(FirstReturnOf(db, key), times)
    ensures IsEarliest(FirstReturnOf(Exec(db, events), key), times + RunReturns(db, events, key))
    decreases |events|
  {
    hide UniqueKeys, Queried, Step, IsEarliest, FirstReturnOf, EventReturns;
    if events == [] {
      assert times + [] == times;
    } else {
      var e := events[0];
      StepKeepsEarliest(db, e, key, times);
      StepKeepsKeys(db, e);
      RunKeepsEarliest(Step(db, e), events[1..], key, times + EventReturns(db, e, key));
      assert times + EventReturns(db, e, key) + RunReturns(Step(db, e), events[1..], key) == times + RunReturns(db, events, key);
    }
  }

  /** After any run the first return stored under a key is the earliest its source ever reported,
      whatever the order of the reports. */
  lemma StoredReturnIsEarliest(events: seq<Event>, key: Key)
    requires AllQueried(Empty, events)
    ensures IsEarliest(FirstReturnOf(Exec(Empty, events), key), RunReturns(Empty, events, key))
  {
    RunKeepsEarliest(Empty, events, key, []);
    assert [] + RunReturns(Empty, events, key) == RunReturns(Empty, events, key);
  }
}
