/** The outcome half of an Iterable tick: which events pass the gate, when the batch they make can
    be stored, and what a batch that cannot be stored does to the cursor. */
module IterableOutcomes {
  import opened Common
  import opened Outcomes
  import opened OutcomesRows
  import Iterable

  /** One bounce or click; `stamped` when it carries the run of its batch. */
  datatype Signal = Signal(item: Item, stamped: bool)

  predicate Kept(db: Db, s: Signal) {
    (s.item.exposure.Some? && s.item.exposure.value in db.exposures) || s.stamped
  }

  /** _known_outcomes. */
  function KnownOutcomes(db: Db, signals: seq<Signal>): seq<Item> {
    if signals == [] then []
    else
      var last := signals[|signals| - 1];
      KnownOutcomes(db, signals[..|signals| - 1]) + if Kept(db, last) then [last.item] else []
  }

  lemma {:induction false} KnownHas(db: Db, signals: seq<Signal>, item: Item)
    ensures item in KnownOutcomes(db, signals) <==> exists i :: 0 <= i < |signals| && signals[i].item == item && Kept(db, signals[i])
  {
    if signals != [] {
      var n := |signals| - 1;
      KnownHas(db, signals[..n], item);
      assert forall i :: 0 <= i < n ==> signals[..n][i] == signals[i];
    }
  }

  /** The gate keeps exactly the events of registered exposures and those stamped with a run. */
  lemma GateKeeps(db: Db, signals: seq<Signal>, item: Item)
    ensures item in KnownOutcomes(db, signals) <==> exists s ::
      s in signals && s.item == item && (s.stamped || (item.exposure.Some? && item.exposure.value in db.exposures))
  {
    KnownHas(db, signals, item);
    if i :| 0 <= i < |signals| && signals[i].item == item && Kept(db, signals[i]) { assert signals[i] in signals; }
    if s :| s in signals && s.item == item && (s.stamped || (item.exposure.Some? && item.exposure.value in db.exposures)) {
      var i :| 0 <= i < |signals| && signals[i] == s;
      assert Kept(db, signals[i]);
    }
  }

  // ----- when a batch can be stored --------------------------------------------------

  predicate SameKey(a: Item, b: Item) {
    a.rec == b.rec && a.source == b.source
  }

  /** The item names an exposure nobody registered. */
  predicate Unregistered(db: Db, item: Item) {
    item.exposure.Some? && item.exposure.value !in db.exposures
  }

  /** The first item of a key without a stored row names an exposure nobody registered. */
  ghost predicate Poison(db: Db, items: seq<Item>, i: nat)
    requires i < |items|
  {
    && Unregistered(db, items[i]) && Find(db.rows, items[i].rec, items[i].source).None?
    && forall j :: 0 <= j < i ==> !SameKey(items[j], items[i])
  }

  ghost predicate Poisoned(db: Db, items: seq<Item>) {
    exists i: nat :: i < |items| && Poison(db, items, i)
  }

  ghost predicate Mentions(items: seq<Item>, rec: Id, source: Source) {
    exists j :: 0 <= j < |items| && items[j].rec == rec && items[j].source == source
  }

  /** What has a row after a batch: what had one before, and every key of the batch. */
  lemma {:induction false} StoredAfter(db: Db, items: seq<Item>, rec: Id, source: Source)
    requires ApplyItems(db, items).Some?
    ensures var d := ApplyItems(db, items).value;
      && d.exposures == db.exposures
      && (Find(d.rows, rec, source).Some? <==> Find(db.rows, rec, source).Some? || Mentions(items, rec, source))
  {
    hide ApplyItem, Mentions;
    if items == [] {
      assert !Mentions(items, rec, source) by { NobodyMentions(rec, source); }
    } else {
      var n := |items| - 1;
      StoredAfter(db, items[..n], rec, source);
      OneStored(ApplyItems(db, items[..n]).value, items[n], rec, source);
      MentionsGrows(items, rec, source);
    }
  }

  lemma NobodyMentions(rec: Id, source: Source)
    ensures !Mentions([], rec, source)
  {
  }

  lemma MentionsGrows(items: seq<Item>, rec: Id, source: Source)
    requires items != []
    ensures var n := |items| - 1;
      Mentions(items, rec, source) <==> Mentions(items[..n], rec, source) || (items[n].rec == rec && items[n].source == source)
  {
    var n := |items| - 1;
    assert forall j :: 0 <= j < n ==> items[..n][j] == items[j];
    if Mentions(items[..n], rec, source) {
      var j :| 0 <= j < n && items[..n][j].rec == rec && items[..n][j].source == source;
      assert items[j].rec == rec && items[j].source == source;
    }
  }

  lemma OneStored(db: Db, item: Item, rec: Id, source: Source)
    requires ApplyItem(db, item).Some?
    ensures var d := ApplyItem(db, item).value;
      && d.exposures == db.exposures
      && (Find(d.rows, rec, source).Some? <==> Find(db.rows, rec, source).Some? || (item.rec == rec && item.source == source))
  {
    hide Find, Updated, NewRow;
    var d := ApplyItem(db, item).value;
    var at := Find(db.rows, item.rec, item.source);
    UpdatedKey(db, item);
    HasKey(db.rows, rec, source);
    HasKey(d.rows, rec, source);
    if at.Some? {
      assert forall i :: 0 <= i < |db.rows| ==> d.rows[i].rec == db.rows[i].rec && d.rows[i].source == db.rows[i].source;
    } else {
      assert d.rows[|db.rows|] == NewRow(db, item);
      assert forall i :: 0 <= i < |db.rows| ==> d.rows[i] == db.rows[i];
    }
  }

  lemma UpdatedKey(db: Db, item: Item)
    ensures NewRow(db, item).rec == item.rec && NewRow(db, item).source == item.source
    ensures forall row :: Updated(db, item, row).rec == row.rec && Updated(db, item, row).source == row.source
  {
  }

  lemma HasKey(rows: seq<Row>, rec: Id, source: Source)
    ensures Find(rows, rec, source).Some? <==> exists i :: 0 <= i < |rows| && rows[i].rec == rec && rows[i].source == source
  {
  }

  /** A batch is stored exactly when it is not poisoned: no key without a row begins with an item
      that names an unregistered exposure. */
  lemma {:induction false} BatchStoresExactly(db: Db, items: seq<Item>)
    ensures ApplyItems(db, items).Some? <==> !Poisoned(db, items)
    ensures Ingest(db, items).Some? <==> !Poisoned(db, items)
  {
    hide Updated, NewRow;
    if items != [] {
      var n := |items| - 1;
      var before := ApplyItems(db, items[..n]);
      BatchStoresExactly(db, items[..n]);
      PoisonGrows(db, items);
      if before.Some? {
        StoredAfter(db, items[..n], items[n].rec, items[n].source);
        LastIsPoison(db, items);
      }
    }
  }

  lemma PoisonGrows(db: Db, items: seq<Item>)
    requires items != []
    ensures Poisoned(db, items) <==> Poisoned(db, items[..|items| - 1]) || Poison(db, items, |items| - 1)
  {
    var n := |items| - 1;
    assert forall i :: 0 <= i < n ==> items[..n][i] == items[i];
    forall i: nat | i < n ensures Poison(db, items, i) == Poison(db, items[..n], i) {}
  }

  lemma LastIsPoison(db: Db, items: seq<Item>)
    requires items != []
    ensures var n := |items| - 1; var item := items[n];
      Poison(db, items, n) <==>
        Unregistered(db, item) && Find(db.rows, item.rec, item.source).None? && !Mentions(items[..n], item.rec, item.source)
  {
    var n := |items| - 1;
    assert forall i :: 0 <= i < n ==> items[..n][i] == items[i];
  }

  /** What can poison a window is a stamped event whose exposure was never registered: the gate
      keeps it for its stamp. */
  lemma PoisonIsStamped(db: Db, signals: seq<Signal>, i: nat)
    requires i < |KnownOutcomes(db, signals)| && Poison(db, KnownOutcomes(db, signals), i)
    ensures exists k :: 0 <= k < |signals| && signals[k].stamped && signals[k].item == KnownOutcomes(db, signals)[i]
  {
    KnownHas(db, signals, KnownOutcomes(db, signals)[i]);
  }

  // ----- the cursor ------------------------------------------------------------------

  /** One tick as it went: whether the export failed, how many sends were held, and the events and
      tables its outcomes met. */
  datatype Turn = Turn(now: int, failed: bool, deferred: nat, db: Db, signals: seq<Signal>)

  /** A batch that cannot be stored raises before the cursor moves, like a failed call. */
  function TickOf(t: Turn): Iterable.Tick {
    Iterable.Tick(t.now, t.failed || Ingest(t.db, KnownOutcomes(t.db, t.signals)).None?, t.deferred)
  }

  /** A window passes exactly when it is long enough, was fetched, holds no send and is not poisoned. */
  lemma WindowPassesExactly(p: Iterable.Poller, t: Turn)
    ensures Iterable.Advances(p, TickOf(t)) <==>
      && Iterable.Long(Iterable.WindowAt(p.cursor, t.now)) && !t.failed && t.deferred == 0
      && !Poisoned(t.db, KnownOutcomes(t.db, t.signals))
  {
    BatchStoresExactly(t.db, KnownOutcomes(t.db, t.signals));
  }

  function After(p: Iterable.Poller, turns: seq<Turn>): Iterable.Poller {
    if turns == [] then p else Iterable.Polled(After(p, turns[..|turns| - 1]), TickOf(turns[|turns| - 1]))
  }

  /** While the poison stays, the window replays forever: no run of ticks moves the cursor, however
      late. */
  lemma {:induction false} PoisonHoldsCursor(p: Iterable.Poller, turns: seq<Turn>)
    requires forall k :: 0 <= k < |turns| ==> Poisoned(turns[k].db, KnownOutcomes(turns[k].db, turns[k].signals))
    ensures After(p, turns) == p
  {
    if turns != [] {
      var n := |turns| - 1;
      PoisonHoldsCursor(p, turns[..n]);
      WindowPassesExactly(p, turns[n]);
    }
  }

  /** A stamped click on a message nobody registered, into empty tables, is such poison. */
  lemma UnregisteredClickPoisons(message: Id, pro: Id)
    ensures var click := Item(message, Some(message), Reported("iterable"), pro, NoClaim, None, Unknown, None, map[Clicked := true], None);
      var db := Db([], map[], map[]);
      && KnownOutcomes(db, [Signal(click, true)]) == [click]
      && Poisoned(db, [click]) && Ingest(db, [click]).None?
  {
    var click := Item(message, Some(message), Reported("iterable"), pro, NoClaim, None, Unknown, None, map[Clicked := true], None);
    var db := Db([], map[], map[]);
    assert [Signal(click, true)][..0] == [];
    assert Poison(db, [click], 0);
    BatchStoresExactly(db, [click]);
  }
}
