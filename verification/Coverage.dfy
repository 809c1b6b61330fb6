/** The Amplitude return source: one activity lookup per Pro, the coverage stamps it earns, and
    the call budget of a tick. */
module Coverage {
  import opened Common
  import opened Sorting
  import opened Outcomes
  import OutcomesStore

  const PAGE_SIZE := 1000
  const PAGE_CAP := 5
  const CALL_BUDGET := 25
  const TICKS_PER_HOUR := 12
  const WINDOW := 30 * DAY

  /** One event of a Pro's activity; its time may not parse. */
  datatype Activity = Activity(time: Option<int>, qualifies: bool)

  /** The provider's contract: pages come newest first. */
  ghost predicate NewestFirst(history: seq<Activity>) {
    forall i, j :: 0 <= i < j < |history| && history[i].time.Some? && history[j].time.Some? ==>
      history[i].time.value >= history[j].time.value
  }

  predicate IsReturn(a: Activity) {
    a.qualifies && a.time.Some?
  }

  function Before(a: int, b: int): bool {
    a <= b
  }

  /** Every return at or after `oldest` in the history was collected. */
  ghost predicate Collected(history: seq<Activity>, times: seq<int>, oldest: int) {
    forall i :: 0 <= i < |history| && history[i].qualifies && history[i].time.Some? && history[i].time.value >= oldest ==>
      history[i].time.value in times
  }

  ghost predicate Genuine(history: seq<Activity>, times: seq<int>) {
    forall t :: t in times ==> exists i :: 0 <= i < |history| && history[i].qualifies && history[i].time == Some(t)
  }

  /** _return_times: page until the page reaches past `oldest`, the history ends, or the cap. */
  method ReturnTimes(history: seq<Activity>, oldest: int) returns (times: seq<int>, calls: nat, covered: bool)
    requires NewestFirst(history)
    ensures Sorted(Before, times) && Genuine(history, times)
    ensures covered ==> Collected(history, times, oldest)
    ensures 1 <= calls <= PAGE_CAP
    ensures !covered ==> calls == PAGE_CAP && |history| >= 5000
  {
    var found: seq<int> := [];
    calls := 0;
    covered := false;
    for page := 0 to PAGE_CAP
      invariant calls == page && !covered && page * PAGE_SIZE <= |history|
      invariant Genuine(history, found)
      invariant Collected(history[..page * PAGE_SIZE], found, oldest)
    {
      var start := page * PAGE_SIZE;
      var end := if start + PAGE_SIZE <= |history| then start + PAGE_SIZE else |history|;
      calls := calls + 1;
      ghost var before := found;
      var past := false;
      for i := start to end
        invariant Genuine(history, found)
        invariant Collected(history[..i], found, oldest)
        invariant past ==> exists k :: start <= k < i && history[k].time.Some? && history[k].time.value < oldest
      {
        if IsReturn(history[i]) {
          found := found + [history[i].time.value];
        }
        if history[i].time.Some? && history[i].time.value < oldest {
          past := true;
        }
        assert history[..i + 1] == history[..i] + [history[i]];
      }
      if end - start < PAGE_SIZE {
        assert history[..end] == history;
        covered := true;
        break;
      }
      if past {
        var k :| start <= k < end && history[k].time.Some? && history[k].time.value < oldest;
        PastTheOldest(history, found, oldest, end, k);
        covered := true;
        break;
      }
    }
    times := Sort(Before, found);
    SortSorts(Before, found);
    SortPermutes(Before, found);
    PermutationKeeps(found, times);
  }

  lemma PastTheOldest(history: seq<Activity>, found: seq<int>, oldest: int, end: nat, k: nat)
    requires NewestFirst(history) && k < end <= |history|
    requires history[k].time.Some? && history[k].time.value < oldest
    requires Collected(history[..end], found, oldest)
    ensures Collected(history, found, oldest)
  {
  }

  // ----- one Pro's turn in a tick ----------------------------------------------------

  /** The first return inside the 30-day window of a send. */
  function FirstIn(times: seq<int>, sentAt: int): Option<int> {
    if times == [] then None
    else if sentAt <= times[0] <= sentAt + WINDOW then Some(times[0])
    else FirstIn(times[1..], sentAt)
  }

  predicate Unchecked(e: Exposure, now: int, h: Horizon)
    requires e.sentAt.Some?
  {
    && e.sentAt.value + Window(h) + GRACE <= now
    && (e.checkedAt.None? || e.checkedAt.value < e.sentAt.value + Window(h))
  }

  /** _due_exposures: confirmed, some closed horizon not proven fetched, and no return found yet. */
  predicate DueExposure(db: Db, id: Id, now: int) {
    && id in db.exposures
    && var e := db.exposures[id];
    && e.status.Confirmed? && e.sentAt.Some?
    && (Unchecked(e, now, Day1) || Unchecked(e, now, Day7) || Unchecked(e, now, Day30))
    && forall i :: 0 <= i < |db.rows| ==> !(db.rows[i].exposure == Some(id) && db.rows[i].source.Amplitude?)
  }

  function ReturnItem(id: Id, first: int): Item {
    Item(id, Some(id), Amplitude, 0, NoClaim, None, Unknown, None, map[], Some(first))
  }

  function SentAt(db: Db, id: Id): int {
    if id in db.exposures && db.exposures[id].sentAt.Some? then db.exposures[id].sentAt.value else 0
  }

  /** The outcomes of one lookup. */
  function Found(db: Db, ids: seq<Id>, times: seq<int>): seq<Item> {
    if ids == [] then []
    else
      var id := ids[|ids| - 1];
      var first := FirstIn(times, SentAt(db, id));
      Found(db, ids[..|ids| - 1], times) + if first.Some? then [ReturnItem(id, first.value)] else []
  }

  function StampAll(db: Db, ids: seq<Id>, at: int): Db {
    if ids == [] then db
    else
      var before := StampAll(db, ids[..|ids| - 1], at);
      var id := ids[|ids| - 1];
      if id in before.exposures
      then before.(exposures := before.exposures[id := before.exposures[id].(checkedAt := Some(at))])
      else before
  }

  /** A new stamp always reaches further than the one it replaces, and past a closed horizon. */
  lemma StampsAdvance(db: Db, id: Id, now: int)
    requires DueExposure(db, id, now)
    ensures var e := db.exposures[id];
      && (e.checkedAt.Some? ==> e.checkedAt.value < now - GRACE)
      && e.sentAt.value + DAY <= now - GRACE
  {
  }

  /** What one Pro's turn commits: the returns it found and, when the lookup reached far enough,
      a coverage stamp that leaves the index lag out. */
  function PollStep(db: Db, now: int, ids: seq<Id>, times: seq<int>, covered: bool): Db {
    var items := Found(db, ids, times);
    var ingested := if items == [] then None else Ingest(db, items);
    var stored := if ingested.Some? then ingested.value else db;
    if covered then StampAll(stored, ids, now - GRACE) else stored
  }

  function OldestOf(db: Db, ids: seq<Id>): (r: int)
    requires ids != [] && forall i :: 0 <= i < |ids| ==> ids[i] in db.exposures && db.exposures[ids[i]].sentAt.Some?
    ensures forall i :: 0 <= i < |ids| ==> r <= db.exposures[ids[i]].sentAt.value
  {
    var n := |ids| - 1;
    var last := db.exposures[ids[n]].sentAt.value;
    if n == 0 then last
    else
      var rest := OldestOf(db, ids[..n]);
      assert forall i :: 0 <= i < n ==> ids[..n][i] == ids[i];
      if last < rest then last else rest
  }

  method CollectFound(db: Db, ids: seq<Id>, times: seq<int>) returns (items: seq<Item>)
    ensures items == Found(db, ids, times)
  {
    items := [];
    for k := 0 to |ids|
      invariant items == Found(db, ids[..k], times)
    {
      assert ids[..k + 1][..k] == ids[..k];
      var first := FirstIn(times, SentAt(db, ids[k]));
      if first.Some? {
        items := items + [ReturnItem(ids[k], first.value)];
      }
    }
    assert ids[..|ids|] == ids;
  }

  method StampExposures(store: OutcomesStore.Store, ids: seq<Id>, at: int)
    modifies store`exposures
    ensures store.Contents() == StampAll(old(store.Contents()), ids, at)
  {
    for k := 0 to |ids|
      modifies store`exposures
      invariant store.Contents() == StampAll(old(store.Contents()), ids[..k], at)
    {
      assert ids[..k + 1][..k] == ids[..k];
      if ids[k] in store.exposures {
        store.exposures := store.exposures[ids[k] := store.exposures[ids[k]].(checkedAt := Some(at))];
      }
    }
    assert ids[..|ids|] == ids;
  }

  /** The turn of one Pro, given its activity as the provider serves it. */
  method PollPro(store: OutcomesStore.Store, now: int, ids: seq<Id>, history: seq<Activity>)
    returns (times: seq<int>, calls: nat, covered: bool)
    requires NewestFirst(history) && ids != []
    requires forall i :: 0 <= i < |ids| ==> DueExposure(store.Contents(), ids[i], now)
    modifies store
    ensures calls <= PAGE_CAP && Sorted(Before, times) && Genuine(history, times)
    ensures covered ==> forall i :: 0 <= i < |ids| ==>
      Collected(history, times, SentAt(old(store.Contents()), ids[i]))
    ensures store.Contents() == PollStep(old(store.Contents()), now, ids, times, covered)
  {
    hide Ingest, StampAll, Found, Collected, Genuine, Sorted;
    ghost var start := store.Contents();
    assert forall i :: 0 <= i < |ids| ==> DueExposure(start, ids[i], now);
    var db := Db(store.rows, store.exposures, store.winners);
    var oldest := OldestOf(db, ids);
    times, calls, covered := ReturnTimes(history, oldest);
    forall i | covered && 0 <= i < |ids| ensures Collected(history, times, SentAt(start, ids[i])) {
      assert DueExposure(start, ids[i], now);
      CollectedLater(history, times, oldest, SentAt(start, ids[i]));
    }
    var items := CollectFound(db, ids, times);
    if items != [] {
      var stored := store.IngestBatch(items);
    }
    if covered {
      StampExposures(store, ids, now - GRACE);
    }
  }

  lemma CollectedLater(history: seq<Activity>, times: seq<int>, oldest: int, later: int)
    requires Collected(history, times, oldest) && oldest <= later
    ensures Collected(history, times, later)
  {
  }

  // ----- the call budget -------------------------------------------------------------

  /** What a Pro's turn costs: nothing when it backs off, a search when its identity is not
      cached, and the pages of its lookup when the identity resolved. */
  datatype Turn = Turn(backsOff: bool, search: bool, resolved: bool, pages: nat)

  /** The poll loop's call counter: the budget is checked before the search and again before the
      lookup. */
  method SpendCalls(turns: seq<Turn>) returns (calls: nat)
    requires forall i :: 0 <= i < |turns| ==> 1 <= turns[i].pages <= PAGE_CAP
    ensures calls == Spent(turns, 0)
    ensures calls <= 29
  {
    calls := 0;
    for i := 0 to |turns|
      invariant calls <= CALL_BUDGET - 1 + PAGE_CAP
      invariant Spent(turns, 0) == Spent(turns[i..], calls)
    {
      assert turns[i..][0] == turns[i] && turns[i..][1..] == turns[i + 1..];
      if calls >= CALL_BUDGET {
        return;
      }
      if !turns[i].backsOff {
        if turns[i].search {
          calls := calls + 1;
        }
        if turns[i].resolved {
          if calls >= CALL_BUDGET {
            return;
          }
          calls := calls + turns[i].pages;
        }
      }
    }
    assert turns[|turns|..] == [];
  }

  /** Calls spent by the end of a tick that had already spent `calls`. */
  function Spent(turns: seq<Turn>, calls: nat): nat
    decreases |turns|
  {
    if turns == [] || calls >= CALL_BUDGET then calls
    else if turns[0].backsOff then Spent(turns[1..], calls)
    else
      var searched := if turns[0].search then calls + 1 else calls;
      if !turns[0].resolved then Spent(turns[1..], searched)
      else if searched >= CALL_BUDGET then searched
      else Spent(turns[1..], searched + turns[0].pages)
  }

  lemma {:induction false} TickIsBounded(turns: seq<Turn>, calls: nat)
    requires forall i :: 0 <= i < |turns| ==> turns[i].pages <= PAGE_CAP
    requires calls <= CALL_BUDGET - 1 + PAGE_CAP
    ensures Spent(turns, calls) <= CALL_BUDGET - 1 + PAGE_CAP
    decreases |turns|
  {
    if turns != [] && calls < CALL_BUDGET {
      var t := turns[0];
      if t.backsOff { TickIsBounded(turns[1..], calls); }
      else {
        var searched := if t.search then calls + 1 else calls;
        if !t.resolved { TickIsBounded(turns[1..], searched); }
        else if searched < CALL_BUDGET { TickIsBounded(turns[1..], searched + t.pages); }
      }
    }
  }

  function Hour(ticks: seq<seq<Turn>>): nat {
    if ticks == [] then 0 else Spent(ticks[0], 0) + Hour(ticks[1..])
  }

  ghost predicate Capped(ticks: seq<seq<Turn>>) {
    forall k, i :: 0 <= k < |ticks| && 0 <= i < |ticks[k]| ==> ticks[k][i].pages <= PAGE_CAP
  }

  lemma {:induction false} HourIsBounded(ticks: seq<seq<Turn>>)
    requires Capped(ticks)
    ensures Hour(ticks) <= |ticks| * (CALL_BUDGET - 1 + PAGE_CAP)
  {
    if ticks != [] {
      TickIsBounded(ticks[0], 0);
      HourIsBounded(ticks[1..]);
    }
  }

  /** An hour of ticks stays under the provider's 360 calls. */
  lemma UnderTheHourlyLimit(ticks: seq<seq<Turn>>)
    requires |ticks| <= TICKS_PER_HOUR && Capped(ticks)
    ensures Hour(ticks) < 360
  {
    HourIsBounded(ticks);
  }

  /** The bound is met: 24 searches that resolve nobody, then one full lookup. */
  lemma BoundIsTight()
    ensures exists turns: seq<Turn> ::
      (forall i :: 0 <= i < |turns| ==> turns[i].pages <= PAGE_CAP) && Spent(turns, 0) == 29
  {
    var miss := Turn(false, true, false, 1);
    var hit := Turn(false, false, true, PAGE_CAP);
    var turns := Misses(miss, CALL_BUDGET - 1) + [hit];
    MissesSpend(miss, hit, CALL_BUDGET - 1, 0);
    assert Spent(turns, 0) == CALL_BUDGET - 1 + PAGE_CAP;
  }

  function Misses(miss: Turn, n: nat): seq<Turn> {
    if n == 0 then [] else [miss] + Misses(miss, n - 1)
  }

  lemma {:induction false} MissesSpend(miss: Turn, hit: Turn, n: nat, calls: nat)
    requires miss == Turn(false, true, false, 1) && hit == Turn(false, false, true, PAGE_CAP)
    requires calls + n == CALL_BUDGET - 1
    ensures Spent(Misses(miss, n) + [hit], calls) == CALL_BUDGET - 1 + PAGE_CAP
    ensures forall i :: 0 <= i < |Misses(miss, n)| ==> Misses(miss, n)[i].pages <= PAGE_CAP
    decreases n
  {
    var turns := Misses(miss, n) + [hit];
    if n == 0 {
      assert turns == [hit];
      assert turns[1..] == [];
    } else {
      MissesSpend(miss, hit, n - 1, calls + 1);
      assert turns[1..] == Misses(miss, n - 1) + [hit];
    }
  }
}
