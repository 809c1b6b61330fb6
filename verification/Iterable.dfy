/** The Iterable outcome source: export windows under a durable cursor, and what becomes of every
    send in one. Times are seconds. */
module Iterable {
  import opened Common

  const HOUR := 3600
  const CATCHUP := 24 * HOUR
  const INITIAL_LOOKBACK := 24 * HOUR
  const LAG := 15 * 60
  const MIN_WINDOW := 3 * HOUR
  const DEFER_LIMIT := 24 * HOUR

  type Id = nat

  /** One smsSend event; whatever does not parse is None. */
  datatype Send = Send(run: Option<Id>, pro: Option<Id>, message: Option<Id>, createdAt: Option<int>)

  datatype Exposure = Exposure(id: Id, winner: Option<Id>, pro: Option<Id>, sentAt: int)

  type Winners = map<(Id, Id), Id>

  // ----- one send --------------------------------------------------------------------

  /** What happens to a send: not Waypoint's, held for its winner, registered, or unusable. */
  datatype Fate = Ignored | Deferred | Registered(exposure: Exposure) | Skipped

  function WinnerOf(s: Send, winners: Winners): Option<Id> {
    if s.run.Some? && s.pro.Some? && (s.run.value, s.pro.value) in winners then Some(winners[(s.run.value, s.pro.value)])
    else None
  }

  /** _send_to_exposure. */
  function ToExposure(s: Send, winner: Option<Id>): Option<Exposure> {
    if s.message.None? || s.createdAt.None? || (winner.None? && s.pro.None?) then None
    else Some(Exposure(s.message.value, winner, s.pro, s.createdAt.value))
  }

  function FateOf(s: Send, winners: Winners, now: int): Fate {
    var winner := WinnerOf(s, winners);
    if s.run.None? then Ignored
    else if winner.None? && s.pro.Some? && s.createdAt.Some? && s.createdAt.value > now - DEFER_LIMIT then Deferred
    else
      var e := ToExposure(s, winner);
      if e.Some? then Registered(e.value) else Skipped
  }

  function Fates(sends: seq<Send>, winners: Winners, now: int): (f: seq<Fate>)
    ensures |f| == |sends|
  {
    seq(|sends|, i requires 0 <= i < |sends| => FateOf(sends[i], winners, now))
  }

  function Count(fates: seq<Fate>, p: Fate -> bool): nat {
    if fates == [] then 0 else Count(fates[..|fates| - 1], p) + if p(fates[|fates| - 1]) then 1 else 0
  }

  function RegisteredIn(fates: seq<Fate>): seq<Exposure> {
    if fates == [] then []
    else RegisteredIn(fates[..|fates| - 1]) + if fates[|fates| - 1].Registered? then [fates[|fates| - 1].exposure] else []
  }

  predicate IsDeferred(f: Fate) { f.Deferred? }

  predicate IsIgnored(f: Fate) { f.Ignored? }

  predicate IsSkipped(f: Fate) { f.Skipped? }

  /** _sends_to_exposures. */
  method SendsToExposures(sends: seq<Send>, winners: Winners, now: int)
    returns (exposures: seq<Exposure>, deferred: nat, ignored: nat)
    ensures var fates := Fates(sends, winners, now);
      && exposures == RegisteredIn(fates) && deferred == Count(fates, IsDeferred) && ignored == Count(fates, IsIgnored)
  {
    ghost var fates := Fates(sends, winners, now);
    exposures, deferred, ignored := [], 0, 0;
    for i := 0 to |sends|
      invariant exposures == RegisteredIn(fates[..i])
      invariant deferred == Count(fates[..i], IsDeferred) && ignored == Count(fates[..i], IsIgnored)
    {
      assert fates[..i + 1][..i] == fates[..i] && fates[i] == FateOf(sends[i], winners, now);
      var s := sends[i];
      if s.run.None? {
        ignored := ignored + 1;
        continue;
      }
      var winner := WinnerOf(s, winners);
      if winner.None? && s.pro.Some? {
        if s.createdAt.Some? && s.createdAt.value > now - DEFER_LIMIT {
          deferred := deferred + 1;
          continue;
        }
      }
      var e := ToExposure(s, winner);
      if e.Some? {
        exposures := exposures + [e.value];
      }
    }
    assert fates[..|sends|] == fates;
  }

  /** Every send of a window is accounted for exactly once. */
  lemma {:induction false} EverySendCounts(fates: seq<Fate>)
    ensures |RegisteredIn(fates)| + Count(fates, IsDeferred) + Count(fates, IsIgnored) + Count(fates, IsSkipped) == |fates|
  {
    if fates != [] { EverySendCounts(fates[..|fates| - 1]); }
  }

  lemma {:induction false} NoneDeferred(fates: seq<Fate>, i: nat)
    requires Count(fates, IsDeferred) == 0 && i < |fates|
    ensures !fates[i].Deferred?
  {
    if i < |fates| - 1 { NoneDeferred(fates[..|fates| - 1], i); }
  }

  lemma {:induction false} RegisteredHas(fates: seq<Fate>, i: nat)
    requires i < |fates| && fates[i].Registered?
    ensures fates[i].exposure in RegisteredIn(fates)
  {
    if i < |fates| - 1 { RegisteredHas(fates[..|fates| - 1], i); }
  }

  lemma {:induction false} CountZero(fates: seq<Fate>, p: Fate -> bool)
    requires forall i :: 0 <= i < |fates| ==> !p(fates[i])
    ensures Count(fates, p) == 0
  {
    if fates != [] { CountZero(fates[..|fates| - 1], p); }
  }

  /** A send whose winner is visible is never held, and one that waited out the limit is
      registered without a winner. */
  lemma DeferralIsBounded(s: Send, winners: Winners, now: int)
    ensures WinnerOf(s, winners).Some? ==> !FateOf(s, winners, now).Deferred?
    ensures FateOf(s, winners, now).Deferred? ==> s.createdAt.value > now - DEFER_LIMIT
    ensures s.run.Some? && s.pro.Some? && s.message.Some? && s.createdAt.Some? && s.createdAt.value <= now - DEFER_LIMIT ==>
      FateOf(s, winners, now) == Registered(Exposure(s.message.value, WinnerOf(s, winners), s.pro, s.createdAt.value))
  {
  }

  // ----- windows and the cursor ------------------------------------------------------

  datatype Window = Window(since: int, until: int)

  function WindowAt(cursor: Option<int>, now: int): Window {
    var since := if cursor.Some? then cursor.value else now - INITIAL_LOOKBACK;
    Window(since, if now - LAG < since + CATCHUP then now - LAG else since + CATCHUP)
  }

  predicate Long(w: Window) {
    w.until - w.since >= MIN_WINDOW
  }

  /** One tick: the export may fail, and the window may hold a send for its winner. */
  datatype Tick = Tick(now: int, failed: bool, deferred: nat)

  /** The cursor, and every window it moved past. */
  datatype Poller = Poller(cursor: Option<int>, passed: seq<Window>)

  predicate Advances(p: Poller, t: Tick) {
    Long(WindowAt(p.cursor, t.now)) && !t.failed && t.deferred == 0
  }

  function Polled(p: Poller, t: Tick): Poller {
    if !Advances(p, t) then p
    else
      var w := WindowAt(p.cursor, t.now);
      Poller(Some(w.until), p.passed + [w])
  }

  class Cursor {
    var since: Option<int>

    constructor ()
      ensures since == None
    {
      since := None;
    }

    /** One poll of the send stream: `fetch` is what the export returned for the window, None a
        failed call. The cursor moves only past a window that holds nothing back. */
    method Poll(now: int, fetch: Option<seq<Send>>, winners: Winners) returns (exposures: seq<Exposure>, deferred: nat)
      modifies this
      ensures if fetch.Some? && Long(WindowAt(old(since), now))
        then deferred == Count(Fates(fetch.value, winners, now), IsDeferred)
             && exposures == RegisteredIn(Fates(fetch.value, winners, now))
        else deferred == 0 && exposures == []
      ensures since == Polled(Poller(old(since), []), Tick(now, fetch.None?, deferred)).cursor
    {
      var w := WindowAt(since, now);
      exposures, deferred := [], 0;
      if w.until - w.since < MIN_WINDOW || fetch.None? {
        return;
      }
      var ignored: nat;
      exposures, deferred, ignored := SendsToExposures(fetch.value, winners, now);
      if deferred == 0 {
        since := Some(w.until);
      }
    }
  }

  function Run(p: Poller, ticks: seq<Tick>): Poller {
    if ticks == [] then p else Polled(Run(p, ticks[..|ticks| - 1]), ticks[|ticks| - 1])
  }

  /** The passed windows tile time: each starts where the one before it ended, none is shorter
      than MIN_WINDOW or longer than CATCHUP, and the cursor is the end of the last. */
  ghost predicate Tiles(p: Poller) {
    && (forall i :: 0 <= i < |p.passed| ==> MIN_WINDOW <= p.passed[i].until - p.passed[i].since <= CATCHUP)
    && (forall i :: 0 <= i < |p.passed| - 1 ==> p.passed[i].until == p.passed[i + 1].since)
    && (p.passed != [] ==> p.cursor == Some(p.passed[|p.passed| - 1].until))
  }

  /** From no cursor, in every run of ticks, failed, held or successful, at any times. */
  lemma {:induction false} WindowsTile(ticks: seq<Tick>)
    ensures Tiles(Run(Poller(None, []), ticks))
  {
    if ticks != [] { WindowsTile(ticks[..|ticks| - 1]); }
  }

  /** A window is passed only when it ended at least LAG before the tick. */
  lemma WindowsTrailNow(p: Poller, t: Tick)
    requires Advances(p, t)
    ensures WindowAt(p.cursor, t.now).until <= t.now - LAG
    ensures Polled(p, t).cursor.value >= WindowAt(p.cursor, t.now).since + MIN_WINDOW
  {
  }

  ghost predicate InWindow(sends: seq<Send>, w: Window) {
    forall i :: 0 <= i < |sends| && sends[i].createdAt.Some? ==> sends[i].createdAt.value <= w.until
  }

  /** A held cursor is never stuck: any tick whose export succeeds at or after since + CATCHUP +
      DEFER_LIMIT holds nothing back, registers every usable stamped send, and moves a full window. */
  lemma HeldCursorAdvances(since: int, now: int, sends: seq<Send>, winners: Winners)
    requires now >= since + CATCHUP + DEFER_LIMIT && InWindow(sends, WindowAt(Some(since), now))
    ensures var fates := Fates(sends, winners, now); var deferred := Count(fates, IsDeferred);
      && deferred == 0 && Polled(Poller(Some(since), []), Tick(now, false, deferred)).cursor == Some(since + CATCHUP)
  {
    var fates := Fates(sends, winners, now);
    forall i | 0 <= i < |fates| ensures !IsDeferred(fates[i]) { DeferralIsBounded(sends[i], winners, now); }
    CountZero(fates, IsDeferred);
  }

  /** When the cursor passes a window, every stamped usable send in it was registered: with its
      winner, or after waiting out the limit without one. */
  lemma NothingIsPassedOver(cursor: Option<int>, now: int, sends: seq<Send>, winners: Winners, i: nat)
    requires i < |sends| && sends[i].run.Some? && ToExposure(sends[i], WinnerOf(sends[i], winners)).Some?
    requires Advances(Poller(cursor, []), Tick(now, false, Count(Fates(sends, winners, now), IsDeferred)))
    ensures ToExposure(sends[i], WinnerOf(sends[i], winners)).value in RegisteredIn(Fates(sends, winners, now))
    ensures WinnerOf(sends[i], winners).Some? || sends[i].createdAt.value <= now - DEFER_LIMIT
  {
    var fates := Fates(sends, winners, now);
    NoneDeferred(fates, i);
    RegisteredHas(fates, i);
  }

  // ----- every run ---------------------------------------------------------------------

  /** One poll as it went: what the export returned, None when the call failed. */
  datatype Poll = Poll(now: int, fetch: Option<seq<Send>>, winners: Winners)

  function TickOf(p: Poll): Tick {
    Tick(p.now, p.fetch.None?, if p.fetch.Some? then Count(Fates(p.fetch.value, p.winners, p.now), IsDeferred) else 0)
  }

  /** The poller after a run of polls from no cursor. */
  function After(polls: seq<Poll>): Poller {
    if polls == [] then Poller(None, []) else Polled(After(polls[..|polls| - 1]), TickOf(polls[|polls| - 1]))
  }

  lemma {:induction false} AfterIsRun(polls: seq<Poll>)
    ensures After(polls) == Run(Poller(None, []), seq(|polls|, k requires 0 <= k < |polls| => TickOf(polls[k])))
  {
    if polls != [] {
      var n := |polls| - 1;
      AfterIsRun(polls[..n]);
      var ticks := seq(|polls|, k requires 0 <= k < |polls| => TickOf(polls[k]));
      assert ticks[..n] == seq(n, k requires 0 <= k < n => TickOf(polls[..n][k]));
    }
  }

  /** An export holds every send of the stream that was created in its window. */
  ghost predicate Exports(stream: set<Send>, fetch: seq<Send>, w: Window) {
    forall s :: s in stream && s.createdAt.Some? && w.since <= s.createdAt.value < w.until ==> s in fetch
  }

  ghost predicate AllExported(stream: set<Send>, polls: seq<Poll>) {
    forall k :: 0 <= k < |polls| && polls[k].fetch.Some? ==>
      Exports(stream, polls[k].fetch.value, WindowAt(After(polls[..k]).cursor, polls[k].now))
  }

  predicate Usable(s: Send) {
    s.run.Some? && s.pro.Some? && s.message.Some? && s.createdAt.Some?
  }

  /** The poll registered the send: with its winner, or after waiting out the limit without one. */
  ghost predicate RegisteredBy(p: Poll, s: Send) {
    && p.fetch.Some? && ToExposure(s, WinnerOf(s, p.winners)).Some?
    && ToExposure(s, WinnerOf(s, p.winners)).value in RegisteredIn(Fates(p.fetch.value, p.winners, p.now))
    && (WinnerOf(s, p.winners).Some? || s.createdAt.value <= p.now - DEFER_LIMIT)
  }

  ghost predicate SomeRegistered(polls: seq<Poll>, s: Send) {
    exists k :: 0 <= k < |polls| && RegisteredBy(polls[k], s)
  }

  /** Behind the cursor of any run, however many polls failed or were held, no usable send of the
      stream is left out: some poll registered it. */
  lemma {:induction false} NothingBehindTheCursor(stream: set<Send>, polls: seq<Poll>, s: Send)
    requires AllExported(stream, polls) && s in stream && Usable(s)
    requires var p := After(polls); p.passed != [] && p.cursor.Some? && p.passed[0].since <= s.createdAt.value < p.cursor.value
    ensures SomeRegistered(polls, s)
    decreases |polls|
  {
    hide Fates, RegisteredIn, Count, RegisteredBy;
    var n := |polls| - 1;
    var before := After(polls[..n]);
    var last := polls[n];
    var w := WindowAt(before.cursor, last.now);
    AfterIsRun(polls[..n]);
    WindowsTile(seq(n, k requires 0 <= k < n => TickOf(polls[..n][k])));
    if Advances(before, TickOf(last)) && w.since <= s.createdAt.value {
      PassedIsRegistered(stream, before.cursor, last, s);
    } else {
      assert AllExported(stream, polls[..n]) by {
        forall k | 0 <= k < n && polls[..n][k].fetch.Some?
          ensures Exports(stream, polls[..n][k].fetch.value, WindowAt(After(polls[..n][..k]).cursor, polls[..n][k].now))
        {
          assert polls[..n][..k] == polls[..k] && polls[..n][k] == polls[k];
        }
      }
      NothingBehindTheCursor(stream, polls[..n], s);
      var k :| 0 <= k < n && RegisteredBy(polls[..n][k], s);
      assert polls[k] == polls[..n][k];
    }
  }

  lemma PassedIsRegistered(stream: set<Send>, cursor: Option<int>, p: Poll, s: Send)
    requires p.fetch.Some? && Advances(Poller(cursor, []), TickOf(p)) && Exports(stream, p.fetch.value, WindowAt(cursor, p.now))
    requires s in stream && Usable(s)
    requires WindowAt(cursor, p.now).since <= s.createdAt.value < WindowAt(cursor, p.now).until
    ensures RegisteredBy(p, s)
  {
    hide Fates, RegisteredIn, Count;
    var i :| 0 <= i < |p.fetch.value| && p.fetch.value[i] == s;
    NothingIsPassedOver(cursor, p.now, p.fetch.value, p.winners, i);
  }
}
