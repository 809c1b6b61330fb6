/** The routing a row is stored with after any run: what its sources have claimed since an exposure
    last spoke for it, in whatever order and however many batches. */
module RowRouting {
  import opened Common
  import opened Outcomes
  import opened OutcomesRows
  import opened WarmStart
  import opened WarmStartRuns
  import opened RowRuns
  import opened RowHistory

  /** What one write tells a row about its routing: a claim of its source, or what its exposure has. */
  datatype Told = Claimed(routing: Routing) | Taken(routing: Routing)

  function ItemTold(db: Db, item: Item): Told {
    var e := ExposureOf(db, item);
    if e.Some? then Taken(e.value.routing) else Claimed(item.routing)
  }

  function ItemsTold(db: Db, items: seq<Item>, key: Key): seq<Told> {
    if items == [] then []
    else
      var item := items[|items| - 1];
      ItemsTold(db, items[..|items| - 1], key) + if Key(item.rec, item.source) == key then [ItemTold(db, item)] else []
  }

  /** A synthesized row starts from its exposure. */
  function SilentTold(db: Db, ids: seq<Id>, key: Key): seq<Told> {
    if key.source.Checkpoint? && key.rec in ids && key.rec in db.exposures then [Taken(db.exposures[key.rec].routing)] else []
  }

  function EventTold(db: Db, e: Event, key: Key): seq<Told> {
    match e
    case Ingested(items) => if Ingest(db, items).Some? then ItemsTold(db, items, key) else []
    case Swept(_, _, silent, _) => SilentTold(db, silent, key)
    case _ => []
  }

  /** Everything a run told the row under a key, in order. */
  function RunTold(db: Db, events: seq<Event>, key: Key): seq<Told>
    decreases |events|
  {
    if events == [] then [] else EventTold(db, events[0], key) + RunTold(Step(db, events[0]), events[1..], key)
  }

  function Hears(stored: Routing, t: Told): Routing {
    if t.Taken? then t.routing else MergeRouting(stored, t.routing)
  }

  function Heard(stored: Routing, told: seq<Told>): Routing {
    if told == [] then stored else Hears(Heard(stored, told[..|told| - 1]), told[|told| - 1])
  }

  /** The claims since an exposure last spoke, its own routing first. */
  function Since(told: seq<Told>): seq<Routing> {
    if told == [] then []
    else
      var last := told[|told| - 1];
      (if last.Taken? then [] else Since(told[..|told| - 1])) + [last.routing]
  }

  lemma {:induction false} HeardIsTheFold(told: seq<Told>)
    ensures Heard(NoClaim, told) == Folded(NoClaim, Since(told))
  {
    if told != [] {
      var n := |told| - 1;
      HeardIsTheFold(told[..n]);
      FoldedGrows(NoClaim, if told[n].Taken? then [] else Since(told[..n]), told[n].routing);
    }
  }

  lemma {:induction false} HeardTwice(stored: Routing, a: seq<Told>, b: seq<Told>)
    ensures Heard(stored, a + b) == Heard(Heard(stored, a), b)
    decreases |b|
  {
    if b == [] {
      assert a + b == a;
    } else {
      var n := |b| - 1;
      HeardTwice(stored, a, b[..n]);
      assert (a + b)[..|a| + n] == a + b[..n];
    }
  }

  // ----- one transaction -------------------------------------------------------------

  function RoutingOf(db: Db, key: Key): Routing {
    RoutingAt(db, key.rec, key.source)
  }

  lemma ToldIsStored(db: Db, item: Item, row: Row)
    ensures Updated(db, item, row).routing == Hears(row.routing, ItemTold(db, item))
    ensures NewRow(db, item).routing == Hears(NoClaim, ItemTold(db, item))
  {
  }

  lemma OneTold(db: Db, item: Item, key: Key)
    requires UniqueKeys(db.rows) && ApplyItem(db, item).Some?
    ensures RoutingOf(ApplyItem(db, item).value, key) ==
      if Key(item.rec, item.source) == key then Hears(RoutingOf(db, key), ItemTold(db, item)) else RoutingOf(db, key)
  {
    hide ApplyItem, Updated, NewRow, Hears, ItemTold;
    ApplyItemWrites(db, item);
    var d := ApplyItem(db, item).value;
    var at := Find(db.rows, key.rec, key.source);
    if Key(item.rec, item.source) == key {
      ToldIsStored(db, item, if at.Some? then db.rows[at.value] else NewRow(db, item));
    } else if at.Some? {
      FindIs(d.rows, at.value);
    } else {
      OtherKeyMissing(db, item, key.rec, key.source);
    }
  }

  lemma ToldFrame(a: Db, b: Db, item: Item)
    requires Framed(a, b)
    ensures ItemTold(a, item) == ItemTold(b, item)
  {
  }

  lemma {:induction false} ItemsAreHeard(db: Db, items: seq<Item>, key: Key)
    requires UniqueKeys(db.rows) && ApplyItems(db, items).Some?
    ensures RoutingOf(ApplyItems(db, items).value, key) == Heard(RoutingOf(db, key), ItemsTold(db, items, key))
  {
    hide ApplyItem, UniqueKeys, RoutingOf, ItemTold, Hears;
    if items != [] {
      var n := |items| - 1;
      ItemsAreHeard(db, items[..n], key);
      ItemsKeepKeys(db, items[..n]);
      var before := ApplyItems(db, items[..n]).value;
      OneTold(before, items[n], key);
      ToldFrame(db, before, items[n]);
      var told := ItemsTold(db, items[..n], key);
      assert (told + [ItemTold(db, items[n])])[..|told|] == told && told + [] == told;
    }
  }

  lemma SameRouting(a: Db, b: Db, key: Key)
    requires UniqueKeys(a.rows) && UniqueKeys(b.rows) && |a.rows| <= |b.rows|
    requires forall i :: 0 <= i < |a.rows| ==> KeyOf(b.rows[i]) == KeyOf(a.rows[i]) && b.rows[i].routing == a.rows[i].routing
    requires forall i :: |a.rows| <= i < |b.rows| ==> KeyOf(b.rows[i]) != key
    ensures RoutingOf(b, key) == RoutingOf(a, key)
  {
    var at := Find(a.rows, key.rec, key.source);
    if at.Some? {
      FindIs(b.rows, at.value);
    } else {
      var later := Find(b.rows, key.rec, key.source);
      assert later.Some? ==> KeyOf(b.rows[later.value]) == key;
    }
  }

  lemma SilentIsHeard(db: Db, now: int, ids: seq<Id>, key: Key)
    requires UniqueKeys(db.rows) && AllSilent(db, now, ids)
    ensures RoutingOf(Synthesize(db, ids), key) == Heard(RoutingOf(db, key), SilentTold(db, ids, key))
  {
    hide Synthesize;
    assert forall k :: 0 <= k < |ids| ==> Silent(db, ids[k], now);
    SynthesizeRows(db, ids);
    SynthesizedKeys(db, now, ids);
    var d := Synthesize(db, ids);
    forall i | |db.rows| <= i < |d.rows| ensures d.rows[i] == SilentRow(ids[i - |db.rows|], db.exposures[ids[i - |db.rows|]]) {
      assert d.rows[|db.rows| + (i - |db.rows|)] == d.rows[i];
    }
    if key.source.Checkpoint? && key.rec in ids {
      var k :| 0 <= k < |ids| && ids[k] == key.rec;
      FindIs(d.rows, |db.rows| + k);
      assert [Taken(db.exposures[key.rec].routing)][..0] == [];
    } else {
      SameRouting(db, d, key);
    }
  }

  lemma SweepIsHeard(db: Db, now: int, gated: bool, silent: seq<Id>, picked: seq<nat>, key: Key)
    requires UniqueKeys(db.rows) && AllSilent(db, now, silent)
    ensures RoutingOf(Sweep(db, now, gated, silent, picked), key) == Heard(RoutingOf(db, key), SilentTold(db, silent, key))
  {
    hide AllSilent, Synthesize, ResolveAll, PromoteAll, Reached, SilentTold;
    SilentIsHeard(db, now, silent, key);
    SynthesizedKeys(db, now, silent);
    var s := Synthesize(db, silent);
    var d := ResolveAll(s, picked, now, gated);
    ResolvedKeys(s, picked, now, gated);
    ResolveRows(s, picked, now, gated);
    forall i: nat | i < |s.rows| ensures KeyOf(d.rows[i]) == KeyOf(s.rows[i]) && d.rows[i].routing == s.rows[i].routing {
      assert d.rows[i] == s.rows[i].(returned := d.rows[i].returned);
    }
    SameRouting(s, d, key);
    PromoteAllFacts(d, Reached(s, d, picked));
  }

  lemma StepIsHeard(db: Db, e: Event, key: Key)
    requires UniqueKeys(db.rows) && Queried(db, e)
    ensures RoutingOf(Step(db, e), key) == Heard(RoutingOf(db, key), EventTold(db, e, key))
  {
    hide UniqueKeys, AllSilent, Picked, ApplyItems, Affected, PromoteAll, Sweep, SilentTold, ItemsTold;
    match e
    case Ingested(items) =>
      if Ingest(db, items).Some? {
        ItemsAreHeard(db, items, key);
        PromoteAllFacts(ApplyItems(db, items).value, Affected(db, items));
      }
    case Swept(now, gated, silent, picked) => SweepIsHeard(db, now, gated, silent, picked, key);
    case _ =>
  }

  // ----- every run -------------------------------------------------------------------

  lemma {:induction false} RunIsHeard(db: Db, events: seq<Event>, key: Key)
    requires UniqueKeys(db.rows) && AllQueried(db, events)
    ensures RoutingOf(Exec(db, events), key) == Heard(RoutingOf(db, key), RunTold(db, events, key))
    decreases |events|
  {
    hide UniqueKeys, Queried, Step, RoutingOf, EventTold, Hears;
    if events != [] {
      var next := Step(db, events[0]);
      StepIsHeard(db, events[0], key);
      StepKeepsKeys(db, events[0]);
      RunIsHeard(next, events[1..], key);
      HeardTwice(RoutingOf(db, key), EventTold(db, events[0], key), RunTold(next, events[1..], key));
    }
  }

  /** After any run of batches, registrations and sweeps, the routing under any key is the fold of
      the claims its source made since an exposure last spoke for it, and it is a proven real send
      exactly when every one of those that was not empty says so, and one did. */
  lemma StoredRoutingMeans(events: seq<Event>, key: Key)
    requires AllQueried(Empty, events)
    ensures var claims := Since(RunTold(Empty, events, key));
      && RoutingOf(Exec(Empty, events), key) == Folded(NoClaim, claims)
      && (RoutingOf(Exec(Empty, events), key) == RouteToPro <==> RouteToPro in claims && AllAgree(claims, RouteToPro))
  {
    hide Step, Queried;
    var told := RunTold(Empty, events, key);
    RunIsHeard(Empty, events, key);
    HeardIsTheFold(told);
    RouteToProMeans(Since(told));
  }
}
