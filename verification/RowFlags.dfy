/** The outcome flags a row is stored with after any run: the last value its source stated for each;
    and what its label comes down to. */
module RowFlags {
  import opened Common
  import opened Outcomes
  import opened OutcomesRows
  import opened WarmStart
  import opened WarmStartRuns
  import opened RowRuns
  import opened RowHistory
  import opened RowRouting

  function FlagIn(flags: map<Flag, bool>, f: Flag): Option<bool> {
    if f in flags then Some(flags[f]) else None
  }

  /** What a submission says of a flag wins; what it leaves out stays as it was. */
  lemma StatedFlagsWin(db: Db, item: Item, row: Row, f: Flag)
    ensures FlagIn(Updated(db, item, row).flags, f) == if f in item.flags then Some(item.flags[f]) else FlagIn(row.flags, f)
    ensures FlagIn(NewRow(db, item).flags, f) == FlagIn(item.flags, f)
  {
  }

  // ----- what a run stated -----------------------------------------------------------

  function ItemsState(items: seq<Item>, key: Key, f: Flag, stated: Option<bool>): Option<bool> {
    if items == [] then stated
    else
      var item := items[|items| - 1];
      if Key(item.rec, item.source) == key && f in item.flags then Some(item.flags[f])
      else ItemsState(items[..|items| - 1], key, f, stated)
  }

  /** Only a batch that was stored states anything. */
  function EventStates(db: Db, e: Event, key: Key, f: Flag, stated: Option<bool>): Option<bool> {
    if e.Ingested? && Ingest(db, e.items).Some? then ItemsState(e.items, key, f, stated) else stated
  }

  /** The last value a run stated for a flag of a key. */
  function LastStated(db: Db, events: seq<Event>, key: Key, f: Flag, stated: Option<bool>): Option<bool>
    decreases |events|
  {
    if events == [] then stated
    else LastStated(Step(db, events[0]), events[1..], key, f, EventStates(db, events[0], key, f, stated))
  }

  function FlagOf(db: Db, key: Key, f: Flag): Option<bool> {
    var at := Find(db.rows, key.rec, key.source);
    if at.Some? then FlagIn(db.rows[at.value].flags, f) else None
  }

  // ----- one transaction -------------------------------------------------------------

  lemma OneStates(db: Db, item: Item, key: Key, f: Flag)
    requires UniqueKeys(db.rows) && ApplyItem(db, item).Some?
    ensures FlagOf(ApplyItem(db, item).value, key, f) ==
      if Key(item.rec, item.source) == key && f in item.flags then Some(item.flags[f]) else FlagOf(db, key, f)
  {
    hide ApplyItem, Updated, NewRow;
    ApplyItemWrites(db, item);
    var d := ApplyItem(db, item).value;
    var at := Find(db.rows, key.rec, key.source);
    if Key(item.rec, item.source) == key {
      StatedFlagsWin(db, item, if at.Some? then db.rows[at.value] else NewRow(db, item), f);
    } else if at.Some? {
      FindIs(d.rows, at.value);
    } else {
      OtherKeyMissing(db, item, key.rec, key.source);
    }
  }

  lemma {:induction false} ItemsAreStated(db: Db, items: seq<Item>, key: Key, f: Flag)
    requires UniqueKeys(db.rows) && ApplyItems(db, items).Some?
    ensures FlagOf(ApplyItems(db, items).value, key, f) == ItemsState(items, key, f, FlagOf(db, key, f))
  {
    hide ApplyItem, UniqueKeys, FlagOf;
    if items != [] {
      var n := |items| - 1;
      ItemsAreStated(db, items[..n], key, f);
      ItemsKeepKeys(db, items[..n]);
      OneStates(ApplyItems(db, items[..n]).value, items[n], key, f);
    }
  }

  /** Rows keep their keys and flags; rows that are added have no flags. */
  lemma SameFlags(a: Db, b: Db, key: Key, f: Flag)
    requires UniqueKeys(a.rows) && UniqueKeys(b.rows) && |a.rows| <= |b.rows|
    requires forall i :: 0 <= i < |a.rows| ==> KeyOf(b.rows[i]) == KeyOf(a.rows[i]) && b.rows[i].flags == a.rows[i].flags
    requires forall i :: |a.rows| <= i < |b.rows| ==> b.rows[i].flags == map[]
    ensures FlagOf(b, key, f) == FlagOf(a, key, f)
  {
    var at := Find(a.rows, key.rec, key.source);
    if at.Some? {
      FindIs(b.rows, at.value);
    } else {
      var later := Find(b.rows, key.rec, key.source);
      assert later.Some? ==> KeyOf(b.rows[later.value]) == key;
    }
  }

  lemma SweepStatesNothing(db: Db, now: int, gated: bool, silent: seq<Id>, picked: seq<nat>, key: Key, f: Flag)
    requires UniqueKeys(db.rows) && AllSilent(db, now, silent)
    ensures FlagOf(Sweep(db, now, gated, silent, picked), key, f) == FlagOf(db, key, f)
  {
    hide Synthesize, ResolveAll, PromoteAll, Reached, UniqueKeys;
    assert forall k :: 0 <= k < |silent| ==> Silent(db, silent[k], now);
    SynthesizeRows(db, silent);
    SynthesizedKeys(db, now, silent);
    var s := Synthesize(db, silent);
    var d := ResolveAll(s, picked, now, gated);
    ResolvedKeys(s, picked, now, gated);
    ResolveRows(s, picked, now, gated);
    forall i: nat | i < |d.rows| ensures KeyOf(d.rows[i]) == KeyOf(s.rows[i]) && d.rows[i].flags == s.rows[i].flags {
      assert d.rows[i] == s.rows[i].(returned := d.rows[i].returned);
    }
    forall i | |db.rows| <= i < |d.rows| ensures d.rows[i].flags == map[] {
      assert s.rows[|db.rows| + (i - |db.rows|)] == SilentRow(silent[i - |db.rows|], db.exposures[silent[i - |db.rows|]]);
    }
    SameFlags(db, d, key, f);
    PromoteAllFacts(d, Reached(s, d, picked));
  }

  lemma StepIsStated(db: Db, e: Event, key: Key, f: Flag)
    requires UniqueKeys(db.rows) && Queried(db, e)
    ensures FlagOf(Step(db, e), key, f) == EventStates(db, e, key, f, FlagOf(db, key, f))
  {
    hide UniqueKeys, AllSilent, Picked, ApplyItems, Affected, PromoteAll, Sweep, ItemsState;
    match e
    case Ingested(items) =>
      if Ingest(db, items).Some? {
        ItemsAreStated(db, items, key, f);
        PromoteAllFacts(ApplyItems(db, items).value, Affected(db, items));
      }
    case Swept(now, gated, silent, picked) => SweepStatesNothing(db, now, gated, silent, picked, key, f);
    case _ =>
  }

  // ----- every run -------------------------------------------------------------------

  lemma {:induction false} RunIsStated(db: Db, events: seq<Event>, key: Key, f: Flag)
    requires UniqueKeys(db.rows) && AllQueried(db, events)
    ensures FlagOf(Exec(db, events), key, f) == LastStated(db, events, key, f, FlagOf(db, key, f))
    decreases |events|
  {
    hide UniqueKeys, Queried, Step, FlagOf, EventStates;
    if events != [] {
      StepIsStated(db, events[0], key, f);
      StepKeepsKeys(db, events[0]);
      RunIsStated(Step(db, events[0]), events[1..], key, f);
    }
  }

  /** After any run a stored flag is the last value its source stated, and a flag nobody stated is not stored. */
  lemma StoredFlagsMean(events: seq<Event>, key: Key, f: Flag)
    requires AllQueried(Empty, events)
    ensures FlagOf(Exec(Empty, events), key, f) == LastStated(Empty, events, key, f, None)
  {
    RunIsStated(Empty, events, key, f);
  }

  /** Whether a row counts as evidence, from the run alone: its last write resolved its touch, every
      claim since an exposure last spoke is a proven real send, and the last delivery stated was not
      a refusal. */
  lemma EvidenceMeans(events: seq<Event>, i: nat)
    requires AllQueried(Empty, events) && i < |Exec(Empty, events).rows|
    ensures var row := Exec(Empty, events).rows[i]; var key := KeyOf(row);
      var log := LastWrites(Empty, events, map[]); var claims := Since(RunTold(Empty, events, key));
      && key in log
      && (row.limitation.None? <==>
            && log[key]
            && RouteToPro in claims && AllAgree(claims, RouteToPro)
            && LastStated(Empty, events, key, Delivered, None) != Some(false))
  {
    hide Step, Queried, UniqueKeys, Labelled;
    var d := Exec(Empty, events);
    var key := KeyOf(d.rows[i]);
    HorizonsStayMonotone(events, i);
    FindIs(d.rows, i);
    RowsStayHonest(events, i);
    StoredRoutingMeans(events, key);
    StoredFlagsMean(events, key, Delivered);
  }
}
