/** A measured negative is never a missed return: what coverage stamps prove, over every run of
    lookups, ingests, registrations and gated sweeps. */
module CoverageProofs {
  import opened Common
  import opened Sorting
  import opened Outcomes
  import opened OutcomesRows
  import opened WarmStart
  import opened WarmStartRuns
  import opened RowRuns
  import opened Coverage

  /** A Pro's return to the app, and when the provider could first serve it. */
  datatype Visit = Visit(pro: Id, time: int, indexed: int)

  /** The provider indexes every event within the grace lag. */
  ghost predicate IndexedInTime(visits: seq<Visit>) {
    forall k :: 0 <= k < |visits| ==> visits[k].indexed <= visits[k].time + GRACE
  }

  /** What a lookup at `now` must have seen to claim coverage back to `oldest`. */
  ghost predicate Saw(visits: seq<Visit>, pro: Id, now: int, times: seq<int>, oldest: int) {
    forall k :: 0 <= k < |visits| && visits[k].pro == pro && visits[k].indexed <= now && visits[k].time >= oldest
      ==> visits[k].time in times
  }

  /** The provider serves every event of the Pro that it has indexed. */
  ghost predicate Serves(history: seq<Activity>, visits: seq<Visit>, pro: Id, now: int) {
    forall k :: 0 <= k < |visits| && visits[k].pro == pro && visits[k].indexed <= now ==>
      exists i :: 0 <= i < |history| && IsReturn(history[i]) && history[i].time.value == visits[k].time
  }

  /** What a covered lookup collected is everything a stamp may rest on. */
  lemma CoveredLookupSaw(history: seq<Activity>, visits: seq<Visit>, pro: Id, now: int, times: seq<int>, oldest: int)
    requires Serves(history, visits, pro, now) && Collected(history, times, oldest)
    ensures Saw(visits, pro, now, times, oldest)
  {
  }

  datatype Tick =
    | Transaction(e: Event)
    | Polled(pro: Id, now: int, ids: seq<Id>, history: seq<Activity>, times: seq<int>, covered: bool, stamped: bool)

  /** A turn as PollPro takes it, on the history its lookup was served. */
  ghost predicate PollOk(db: Db, visits: seq<Visit>, t: Tick)
    requires t.Polled?
  {
    && Sorted(Before, t.times)
    && (forall i, j :: 0 <= i < j < |t.ids| ==> t.ids[i] != t.ids[j])
    && (forall i :: 0 <= i < |t.ids| ==> DueExposure(db, t.ids[i], t.now) && db.exposures[t.ids[i]].pro == t.pro)
    && Serves(t.history, visits, t.pro, t.now)
    && (t.covered ==> forall i :: 0 <= i < |t.ids| ==> Collected(t.history, t.times, SentAt(db, t.ids[i])))
    && (t.stamped ==> t.covered)
  }

  /** The exposure without a winner gets one whose Pro's returns its stamp cannot have missed: it
      has no stamp, the Pro stays, or each time in reach is found or ruled out. */
  ghost predicate SafeLink(db: Db, item: Registration)
    requires LateLink(db, item)
  {
    var e := db.exposures[item.id];
    var pro := db.winners[item.rec.value].pro;
    e.checkedAt.None? || e.sentAt.None? || e.pro == pro
    || forall t :: InReach(e, t) ==> FoundBy(db.rows, item.id, t) || RuledOut(db, item.id, pro, t)
  }

  /** A lookup for another send of the Pro covered the time and found no return by then. */
  ghost predicate RuledOut(db: Db, id: Id, pro: Id, time: int) {
    exists other :: other in db.exposures && other != id && CoversTime(db.exposures[other], pro, time)
      && !FoundBy(db.rows, other, time)
  }

  predicate CoversTime(e: Exposure, pro: Id, time: int) {
    e.pro == pro && e.checkedAt.Some? && e.sentAt.Some? && InReach(e, time)
  }

  /** Other writers leave the poller's own rows and stamps to it, and link late only safely. */
  ghost predicate Outside(db: Db, e: Event) {
    match e
    case Ingested(items) => forall i :: 0 <= i < |items| ==> !items[i].source.Amplitude?
    case Registered(item) => LateLink(db, item) ==> SafeLink(db, item)
    case Stamped(_, _) => false
    case _ => true
  }

  ghost predicate TickOk(db: Db, visits: seq<Visit>, t: Tick) {
    if t.Polled? then PollOk(db, visits, t) else Queried(db, t.e) && Outside(db, t.e)
  }

  /** A crash between the two commits of a turn keeps the outcomes and loses the stamps. */
  function Tock(db: Db, t: Tick): Db {
    if t.Transaction? then Step(db, t.e) else PollStep(db, t.now, t.ids, t.times, t.stamped)
  }

  // ----- the invariant ---------------------------------------------------------------

  /** A row the poller wrote: its exposure's confirmed send, a return after it, derived flags. */
  predicate PolledRow(db: Db, row: Row) {
    row.source.Amplitude? ==>
      && row.exposure == Some(row.rec) && row.rec in db.exposures
      && db.exposures[row.rec].status.Confirmed? && db.exposures[row.rec].sentAt == row.sentAt
      && row.sentAt.Some? && row.firstReturn.Some? && row.sentAt.value <= row.firstReturn.value
      && row.returned == Derive(row.sentAt, row.firstReturn)
  }

  ghost predicate AllPolled(db: Db) {
    forall i :: 0 <= i < |db.rows| ==> PolledRow(db, db.rows[i])
  }

  ghost predicate FoundBy(rows: seq<Row>, id: Id, time: int) {
    exists i :: 0 <= i < |rows| && rows[i].source.Amplitude? && rows[i].exposure == Some(id)
      && rows[i].firstReturn.Some? && rows[i].firstReturn.value <= time
  }

  /** Within the 30 days after the send and not after the stamp. */
  predicate InReach(e: Exposure, time: int)
    requires e.sentAt.Some? && e.checkedAt.Some?
  {
    e.sentAt.value <= time <= e.sentAt.value + WINDOW && time <= e.checkedAt.value
  }

  /** The stamp's promise for one exposure. */
  ghost predicate StampOk(rows: seq<Row>, visits: seq<Visit>, id: Id, e: Exposure) {
    e.checkedAt.Some? ==>
      && e.status.Confirmed? && e.sentAt.Some?
      && forall k :: 0 <= k < |visits| && visits[k].pro == e.pro && InReach(e, visits[k].time) ==>
           FoundBy(rows, id, visits[k].time)
  }

  ghost predicate Covered(db: Db, visits: seq<Visit>) {
    && AllPolled(db)
    && (forall id :: id in db.exposures ==> StampOk(db.rows, visits, id, db.exposures[id]))
  }

  /** The conclusion a measured negative needs. */
  ghost predicate TrueNegative(db: Db, visits: seq<Visit>, id: Id, e: Exposure, h: Horizon)
    requires e.sentAt.Some?
  {
    || (forall k :: 0 <= k < |visits| && visits[k].pro == e.pro ==>
          !(e.sentAt.value <= visits[k].time <= e.sentAt.value + Window(h)))
    || exists i :: 0 <= i < |db.rows| && db.rows[i].source.Amplitude? && db.rows[i].exposure == Some(id)
         && db.rows[i].firstReturn.Some? && db.rows[i].firstReturn.value <= e.sentAt.value + Window(h)
         && At(db.rows[i].returned, h) == Some(true)
  }

  /** The gated sweep stamps the horizon false, and no stored return derives it. */
  ghost predicate StampsFalse(db: Db, row: Row, now: int, h: Horizon) {
    && row.exposure.Some? && row.exposure.value in db.exposures && row.sentAt.Some?
    && At(row.returned, h).None? && At(Derive(row.sentAt, row.firstReturn), h).None?
    && At(Resolved(db, row, now, true).returned, h) == Some(false)
  }

  /** The row's horizon lies in the 30 days after its exposure's send. */
  predicate Inside(e: Exposure, row: Row, h: Horizon) {
    && e.sentAt.Some? && row.sentAt.Some?
    && e.sentAt.value <= row.sentAt.value && row.sentAt.value + Window(h) <= e.sentAt.value + WINDOW
  }

  /** The Pro made no return in the row's horizon that a row of the exposure does not show. */
  ghost predicate NoneMissed(db: Db, visits: seq<Visit>, row: Row, h: Horizon)
    requires row.exposure.Some? && row.exposure.value in db.exposures && row.sentAt.Some?
  {
    forall k :: 0 <= k < |visits| && visits[k].pro == db.exposures[row.exposure.value].pro
      && row.sentAt.value <= visits[k].time <= row.sentAt.value + Window(h)
      ==> FoundBy(db.rows, row.exposure.value, visits[k].time)
  }

  /** Coverage-gated negatives: when the gated sweep writes a false that no stored return derives,
      on a row whose horizon lies in the reach of its exposure, every return of the Pro within the
      horizon is shown by the exposure's own Amplitude row; and on a row that carries its
      exposure's send, there was none, or that row already shows the horizon as true. */
  lemma GatedNegativeIsTrue(db: Db, visits: seq<Visit>, row: Row, now: int, h: Horizon)
    requires Covered(db, visits) && StampsFalse(db, row, now, h)
    ensures Inside(db.exposures[row.exposure.value], row, h) ==> NoneMissed(db, visits, row, h)
    ensures db.exposures[row.exposure.value].sentAt == row.sentAt ==>
      TrueNegative(db, visits, row.exposure.value, db.exposures[row.exposure.value], h)
  {
    NegativeIsCovered(db, row, now, h);
  }

  /** A time of the row's horizon that the exposure's stamp says nothing about. */
  ghost predicate Unfetched(db: Db, row: Row, h: Horizon, time: int)
    requires row.exposure.Some? && row.exposure.value in db.exposures && row.sentAt.Some?
  {
    var id := row.exposure.value;
    var e := db.exposures[id];
    && row.sentAt.value <= time <= row.sentAt.value + Window(h)
    && e.sentAt.Some? && !(e.sentAt.value <= time <= e.sentAt.value + WINDOW)
    && !FoundBy(db.rows, id, time) && !RuledOut(db, id, e.pro, time)
  }

  /** Every history that the stamps allow is free of missed returns. */
  ghost predicate AlwaysNoneMissed(db: Db, row: Row, h: Horizon)
    requires row.exposure.Some? && row.exposure.value in db.exposures && row.sentAt.Some?
  {
    forall visits :: IndexedInTime(visits) && Covered(db, visits) ==> NoneMissed(db, visits, row, h)
  }

  /** Such a false can be trusted exactly when no time of the row's horizon is unfetched. */
  lemma GatedNegativeExactly(db: Db, row: Row, now: int, h: Horizon)
    requires Covered(db, []) && StampsFalse(db, row, now, h)
    ensures AlwaysNoneMissed(db, row, h) <==> forall t :: !Unfetched(db, row, h, t)
  {
    hide Resolved, Derive;
    NegativeIsCovered(db, row, now, h);
    var id := row.exposure.value;
    var e := db.exposures[id];
    if t :| Unfetched(db, row, h, t) {
      var visits := [Visit(e.pro, t, t)];
      LoneVisitIsCovered(db, id, e.pro, t);
      assert visits[0].pro == e.pro && visits[0].time == t && !NoneMissed(db, visits, row, h);
    } else {
      forall visits: seq<Visit> | IndexedInTime(visits) && Covered(db, visits) ensures NoneMissed(db, visits, row, h) {
        forall k | 0 <= k < |visits| && visits[k].pro == e.pro
          && row.sentAt.value <= visits[k].time <= row.sentAt.value + Window(h)
          ensures FoundBy(db.rows, id, visits[k].time)
        {
          assert StampOk(db.rows, visits, id, e) && !Unfetched(db, row, h, visits[k].time);
          if RuledOut(db, id, e.pro, visits[k].time) { NotRuledOut(db, visits, id, k); }
        }
      }
    }
  }

  /** No visit of a covered history is ruled out. */
  lemma NotRuledOut(db: Db, visits: seq<Visit>, id: Id, k: nat)
    requires Covered(db, visits) && k < |visits|
    ensures !RuledOut(db, id, visits[k].pro, visits[k].time)
  {
    forall other | other in db.exposures && CoversTime(db.exposures[other], visits[k].pro, visits[k].time)
      ensures FoundBy(db.rows, other, visits[k].time)
    {
      assert StampOk(db.rows, visits, other, db.exposures[other]);
    }
  }

  /** A visit that no stamp rules out may have happened. */
  lemma LoneVisitIsCovered(db: Db, id: Id, pro: Id, t: int)
    requires Covered(db, []) && !RuledOut(db, id, pro, t)
    requires id in db.exposures && !CoversTime(db.exposures[id], pro, t)
    ensures Covered(db, [Visit(pro, t, t)]) && IndexedInTime([Visit(pro, t, t)])
  {
    hide FoundBy;
    forall other | other in db.exposures ensures StampOk(db.rows, [Visit(pro, t, t)], other, db.exposures[other]) {
      assert StampOk(db.rows, [], other, db.exposures[other]);
    }
  }

  /** A gated non-derived false proves that the stamp reaches past the horizon's close. */
  lemma NegativeIsCovered(db: Db, row: Row, now: int, h: Horizon)
    requires StampsFalse(db, row, now, h)
    ensures var c := db.exposures[row.exposure.value].checkedAt;
      c.Some? && row.sentAt.value + Window(h) <= c.value && row.sentAt.value + Window(h) + GRACE <= now
  {
  }

  // ----- what other writers leave alone ----------------------------------------------

  /** Rows of the poller survive. */
  ghost predicate RowsKept(before: seq<Row>, after: seq<Row>) {
    |before| <= |after| && forall i :: 0 <= i < |before| && before[i].source.Amplitude? ==> after[i] == before[i]
  }

  /** They survive, and nobody else adds one. */
  ghost predicate RowsFrame(before: seq<Row>, after: seq<Row>) {
    && RowsKept(before, after)
    && (forall i :: 0 <= i < |after| && after[i].source.Amplitude? ==> i < |before| && before[i] == after[i])
  }

  /** Exposures keep a confirmed clock and the Pro, and get no stamp. */
  ghost predicate ExposuresFrame(before: map<Id, Exposure>, after: map<Id, Exposure>) {
    && (forall id :: id in before ==>
          && id in after && after[id].checkedAt == before[id].checkedAt && after[id].pro == before[id].pro
          && (before[id].status.Confirmed? ==> after[id].status.Confirmed? && after[id].sentAt == before[id].sentAt))
    && (forall id :: id in after && id !in before ==> after[id].checkedAt.None?)
  }

  lemma FrameKeepsCovered(before: Db, after: Db, visits: seq<Visit>)
    requires Covered(before, visits)
    requires RowsFrame(before.rows, after.rows) && ExposuresFrame(before.exposures, after.exposures)
    ensures Covered(after, visits)
  {
  }

  lemma RowsFrameTwice(a: seq<Row>, b: seq<Row>, c: seq<Row>)
    requires RowsFrame(a, b) && RowsFrame(b, c)
    ensures RowsFrame(a, c)
  {
  }

  lemma {:induction false} OthersItemsFrame(db: Db, items: seq<Item>)
    requires UniqueKeys(db.rows) && ApplyItems(db, items).Some?
    requires forall i :: 0 <= i < |items| ==> !items[i].source.Amplitude?
    ensures RowsFrame(db.rows, ApplyItems(db, items).value.rows)
  {
    hide ApplyItem, UniqueKeys, RowsFrame;
    if items == [] {
      RowsFrameRefl(db.rows);
    } else {
      var n := |items| - 1;
      OthersItemsFrame(db, items[..n]);
      ItemsKeepKeys(db, items[..n]);
      var before := ApplyItems(db, items[..n]).value;
      OtherItemFrame(before, items[n]);
      RowsFrameTwice(db.rows, before.rows, ApplyItem(before, items[n]).value.rows);
    }
  }

  lemma RowsFrameRefl(rows: seq<Row>)
    ensures RowsFrame(rows, rows)
  {
  }

  lemma OtherItemFrame(db: Db, item: Item)
    requires UniqueKeys(db.rows) && ApplyItem(db, item).Some? && !item.source.Amplitude?
    ensures RowsFrame(db.rows, ApplyItem(db, item).value.rows)
  {
  }

  /** The promise after a late link: it holds exactly when the stamp is none, the Pro stays, or
      every visit of the new Pro in reach is already found. */
  lemma LateLinkCoversExactly(db: Db, visits: seq<Visit>, item: Registration)
    requires Covered(db, visits) && LateLink(db, item)
    ensures var e := db.exposures[item.id]; var pro := db.winners[item.rec.value].pro;
      Covered(Register(db, item), visits) <==>
        e.checkedAt.None? || e.sentAt.None? || e.pro == pro
        || forall k :: 0 <= k < |visits| && visits[k].pro == pro && InReach(e, visits[k].time) ==>
             FoundBy(db.rows, item.id, visits[k].time)
  {
    hide FoundBy;
    RegistrationKeepsOtherStamps(db, visits, item);
    var d := Register(db, item);
    var e := db.exposures[item.id];
    assert StampOk(db.rows, visits, item.id, e);
    assert StampOk(d.rows, visits, item.id, d.exposures[item.id]) <==> Covered(d, visits);
  }

  /** What a registration cannot disturb: the rows, and the promise of every other exposure. */
  lemma RegistrationKeepsOtherStamps(db: Db, visits: seq<Visit>, item: Registration)
    requires Covered(db, visits)
    ensures var d := Register(db, item);
      && d.rows == db.rows && AllPolled(d)
      && forall id :: id in d.exposures && id != item.id ==> StampOk(d.rows, visits, id, d.exposures[id])
  {
    hide FoundBy;
    var d := Register(db, item);
    forall i | 0 <= i < |d.rows| ensures PolledRow(d, d.rows[i]) { assert PolledRow(db, db.rows[i]); }
    forall id | id in d.exposures && id != item.id ensures StampOk(d.rows, visits, id, d.exposures[id]) {
      assert id in db.exposures && d.exposures[id] == db.exposures[id] && StampOk(db.rows, visits, id, db.exposures[id]);
    }
  }

  lemma RegistrationKeepsCovered(db: Db, visits: seq<Visit>, item: Registration)
    requires Covered(db, visits) && Outside(db, Registered(item))
    ensures Covered(Register(db, item), visits)
  {
    hide FoundBy;
    if LateLink(db, item) {
      LateLinkCoversExactly(db, visits, item);
      forall k | 0 <= k < |visits| && visits[k].pro == db.winners[item.rec.value].pro
        ensures !RuledOut(db, item.id, visits[k].pro, visits[k].time)
      {
        NotRuledOut(db, visits, item.id, k);
      }
    } else {
      RegistrationKeepsOtherStamps(db, visits, item);
      if item.id in db.exposures { assert StampOk(db.rows, visits, item.id, db.exposures[item.id]); }
    }
  }

  /** Every history that the stamps allow stays allowed. */
  ghost predicate AlwaysCovered(db: Db, after: Db) {
    forall visits :: Covered(db, visits) ==> Covered(after, visits)
  }

  /** A late link keeps the promise of the stamps, whatever the visits, exactly when it is safe. */
  lemma LateLinkIsSafeExactly(db: Db, item: Registration)
    requires Covered(db, []) && LateLink(db, item)
    ensures AlwaysCovered(db, Register(db, item)) <==> SafeLink(db, item)
  {
    hide FoundBy;
    var d := Register(db, item);
    var e := db.exposures[item.id];
    var pro := db.winners[item.rec.value].pro;
    if SafeLink(db, item) {
      forall visits: seq<Visit> | Covered(db, visits) ensures Covered(d, visits) { RegistrationKeepsCovered(db, visits, item); }
    } else {
      var t :| InReach(e, t) && !FoundBy(db.rows, item.id, t) && !RuledOut(db, item.id, pro, t);
      LoneVisitIsCovered(db, item.id, pro, t);
      var visits := [Visit(pro, t, t)];
      LateLinkCoversExactly(db, visits, item);
      assert visits[0].pro == pro && visits[0].time == t;
      assert Covered(db, visits) && !Covered(d, visits);
    }
  }

  lemma PolledFrame(a: Db, b: Db, row: Row)
    requires a.exposures == b.exposures && PolledRow(a, row)
    ensures PolledRow(b, row)
  {
  }

  lemma ResolveOneFrame(db: Db, i: nat, now: int, gated: bool)
    requires AllPolled(db) && i < |db.rows|
    ensures var d := db.(rows := db.rows[i := Resolved(db, db.rows[i], now, gated)]);
      RowsFrame(db.rows, d.rows) && AllPolled(d)
  {
  }

  lemma ResolveLast(db: Db, picked: seq<nat>, now: int, gated: bool)
    requires picked != []
    ensures var before := ResolveAll(db, picked[..|picked| - 1], now, gated); var i := picked[|picked| - 1];
      ResolveAll(db, picked, now, gated) ==
        if i < |before.rows| then before.(rows := before.rows[i := Resolved(before, before.rows[i], now, gated)]) else before
  {
  }

  lemma {:induction false} ResolveFrame(db: Db, picked: seq<nat>, now: int, gated: bool)
    requires AllPolled(db)
    ensures RowsFrame(db.rows, ResolveAll(db, picked, now, gated).rows) && AllPolled(ResolveAll(db, picked, now, gated))
  {
    hide Resolved, PolledRow, RowsFrame, AllPolled;
    if picked == [] {
      RowsFrameRefl(db.rows);
    } else {
      var n := |picked| - 1;
      ResolveFrame(db, picked[..n], now, gated);
      var before := ResolveAll(db, picked[..n], now, gated);
      if picked[n] < |before.rows| {
        ResolveOneFrame(before, picked[n], now, gated);
        ResolveLast(db, picked, now, gated);
        RowsFrameTwice(db.rows, before.rows, ResolveAll(db, picked, now, gated).rows);
      }
    }
  }

  lemma NotPolled(db: Db, row: Row)
    requires !row.source.Amplitude?
    ensures PolledRow(db, row)
  {
  }

  lemma SweepFrame(db: Db, now: int, gated: bool, silent: seq<Id>, picked: seq<nat>)
    requires AllPolled(db) && AllSilent(db, now, silent)
    ensures var d := Sweep(db, now, gated, silent, picked); RowsFrame(db.rows, d.rows) && d.exposures == db.exposures
  {
    hide PolledRow, ResolveAll, Synthesize, PromoteAll, Reached;
    assert forall k :: 0 <= k < |silent| ==> Silent(db, silent[k], now);
    SynthesizeRows(db, silent);
    var s := Synthesize(db, silent);
    forall i | 0 <= i < |s.rows| ensures PolledRow(s, s.rows[i]) && (i >= |db.rows| ==> !s.rows[i].source.Amplitude?) {
      if i < |db.rows| {
        PolledFrame(db, s, db.rows[i]);
      } else {
        var k := i - |db.rows|;
        assert s.rows[|db.rows| + k] == SilentRow(silent[k], db.exposures[silent[k]]);
        NotPolled(s, s.rows[i]);
      }
    }
    ResolveFrame(s, picked, now, gated);
    ResolveRows(s, picked, now, gated);
    var d := ResolveAll(s, picked, now, gated);
    RowsFrameTwice(db.rows, s.rows, d.rows);
    PromoteAllFacts(d, Reached(s, d, picked));
  }

  /** No other writer touches what the invariant is about. */
  lemma TransactionKeepsCovered(db: Db, visits: seq<Visit>, e: Event)
    requires UniqueKeys(db.rows) && Covered(db, visits) && Queried(db, e) && Outside(db, e)
    ensures Covered(Step(db, e), visits)
  {
    hide Covered, UniqueKeys, RowsFrame, ExposuresFrame;
    var after := Step(db, e);
    ExposuresFrameRefl(db.exposures);
    RowsFrameRefl(db.rows);
    match e {
      case Ingested(items) =>
        if Ingest(db, items).Some? {
          OthersItemsFrame(db, items);
          ItemsKeepKeys(db, items);
          PromoteAllFacts(ApplyItems(db, items).value, Affected(db, items));
        }
      case Registered(item) => RegistrationKeepsCovered(db, visits, item);
      case Swept(now, gated, silent, picked) =>
        CoveredHasPolled(db, visits);
        SweepFrame(db, now, gated, silent, picked);
      case WinnerAdded(_, _, _) =>
    }
    if !e.Registered? { FrameKeepsCovered(db, after, visits); }
  }

  lemma CoveredHasPolled(db: Db, visits: seq<Visit>)
    requires Covered(db, visits)
    ensures AllPolled(db)
  {
  }

  lemma ExposuresFrameRefl(exposures: map<Id, Exposure>)
    ensures ExposuresFrame(exposures, exposures)
  {
  }

  // ----- the poller's own turn -------------------------------------------------------

  /** The first return in a sorted list is no later than any other inside the window. */
  lemma {:induction false} FirstInIsFirst(times: seq<int>, sentAt: int)
    requires Sorted(Before, times)
    ensures var f := FirstIn(times, sentAt);
      && (f.Some? ==> f.value in times && sentAt <= f.value <= sentAt + WINDOW)
      && (forall t :: t in times && sentAt <= t <= sentAt + WINDOW ==> f.Some? && f.value <= t)
  {
    if times != [] {
      assert forall j :: 0 < j < |times| ==> Before(times[0], times[j]);
      FirstInIsFirst(times[1..], sentAt);
      assert forall t :: t in times ==> t == times[0] || t in times[1..];
    }
  }

  ghost predicate AllDue(db: Db, ids: seq<Id>, now: int) {
    && (forall i :: 0 <= i < |ids| ==> DueExposure(db, ids[i], now))
    && (forall i, j :: 0 <= i < j < |ids| ==> ids[i] != ids[j])
  }

  /** The row a found return is stored as. */
  lemma FoundRow(db: Db, id: Id, first: int)
    requires id in db.exposures && db.exposures[id].status.Confirmed? && db.exposures[id].sentAt.Some?
    requires db.exposures[id].sentAt.value <= first
    ensures var row := NewRow(db, ReturnItem(id, first));
      && row.source.Amplitude? && row.exposure == Some(id) && row.rec == id && row.firstReturn == Some(first)
      && PolledRow(db, row)
  {
  }

  lemma NoPolledRow(db: Db, id: Id, now: int)
    requires AllPolled(db) && DueExposure(db, id, now)
    ensures NoRowFor(db.rows, id)
  {
  }

  ghost predicate NoRowFor(rows: seq<Row>, id: Id) {
    forall i :: 0 <= i < |rows| ==> !(rows[i].rec == id && rows[i].source.Amplitude?)
  }

  /** Every return of the lookup inside the window of a send has a row at least as early. */
  ghost predicate Settled(rows: seq<Row>, id: Id, times: seq<int>, sentAt: int) {
    forall t :: t in times && sentAt <= t <= sentAt + WINDOW ==> FoundBy(rows, id, t)
  }

  ghost predicate FoundFrom(rows: seq<Row>, id: Id, first: int) {
    forall t :: first <= t ==> FoundBy(rows, id, t)
  }

  /** Storing one found return. */
  lemma AddFound(db: Db, id: Id, first: int)
    requires AllPolled(db) && UniqueKeys(db.rows) && NoRowFor(db.rows, id)
    requires id in db.exposures && db.exposures[id].status.Confirmed? && db.exposures[id].sentAt.Some?
    requires db.exposures[id].sentAt.value <= first
    ensures ApplyItem(db, ReturnItem(id, first)).Some?
    ensures var d := ApplyItem(db, ReturnItem(id, first)).value;
      && Framed(db, d) && UniqueKeys(d.rows) && AllPolled(d) && RowsKept(db.rows, d.rows)
      && FoundFrom(d.rows, id, first)
      && (forall other :: other != id && NoRowFor(db.rows, other) ==> NoRowFor(d.rows, other))
  {
    hide NewRow, PolledRow, UniqueKeys;
    var item := ReturnItem(id, first);
    assert Find(db.rows, id, Amplitude).None?;
    ApplyItemWrites(db, item);
    FoundRow(db, id, first);
    var d := ApplyItem(db, item).value;
    assert d.rows == db.rows + [NewRow(db, item)];
    forall i | 0 <= i < |d.rows| ensures PolledRow(d, d.rows[i]) { PolledFrame(db, d, d.rows[i]); }
    assert d.rows[|db.rows|] == NewRow(db, item);
  }

  lemma SettledStays(before: seq<Row>, after: seq<Row>, id: Id, times: seq<int>, sentAt: int)
    requires Settled(before, id, times, sentAt) && RowsKept(before, after)
    ensures Settled(after, id, times, sentAt)
  {
  }

  lemma RowsKeptTwice(a: seq<Row>, b: seq<Row>, c: seq<Row>)
    requires RowsKept(a, b) && RowsKept(b, c)
    ensures RowsKept(a, c)
  {
  }

  /** What the outcomes of one lookup leave in the table. */
  ghost predicate Written(db: Db, d: Db, ids: seq<Id>, times: seq<int>) {
    && Framed(db, d) && UniqueKeys(d.rows) && AllPolled(d) && RowsKept(db.rows, d.rows)
    && (forall i :: 0 <= i < |ids| ==> Settled(d.rows, ids[i], times, SentAt(db, ids[i])))
    && (forall other :: other !in ids && NoRowFor(db.rows, other) ==> NoRowFor(d.rows, other))
  }

  lemma {:induction false} FoundIsWritten(db: Db, ids: seq<Id>, times: seq<int>, now: int)
    requires AllPolled(db) && UniqueKeys(db.rows) && AllDue(db, ids, now) && Sorted(Before, times)
    ensures ApplyItems(db, Found(db, ids, times)).Some?
    ensures Written(db, ApplyItems(db, Found(db, ids, times)).value, ids, times)
  {
    hide AllPolled, UniqueKeys, ApplyItem, RowsKept, FirstIn, Settled, DueExposure, NoRowFor;
    if ids == [] {
      RowsFrameRefl(db.rows);
      FrameIsKept(db.rows, db.rows);
    } else {
      var n := |ids| - 1;
      var id := ids[n];
      FoundIsWritten(db, ids[..n], times, now);
      var before := ApplyItems(db, Found(db, ids[..n], times)).value;
      FirstInIsFirst(times, SentAt(db, id));
      DueIsConfirmed(db, id, now);
      NoPolledRow(db, id, now);
      assert id !in ids[..n];
      var first := FirstIn(times, SentAt(db, id));
      var items := Found(db, ids[..n], times);
      if first.Some? {
        assert (items + [ReturnItem(id, first.value)])[..|items|] == items;
        AddFound(before, id, first.value);
        AddIsWritten(db, before, ids, times, first.value);
      } else {
        assert Found(db, ids, times) == items + [] == items;
        NothingFound(before.rows, id, times, SentAt(db, id));
        SettledAll(db, before, ids, times);
      }
    }
  }

  lemma FrameIsKept(a: seq<Row>, b: seq<Row>)
    requires RowsFrame(a, b)
    ensures RowsKept(a, b)
  {
  }

  lemma DueIsConfirmed(db: Db, id: Id, now: int)
    requires DueExposure(db, id, now)
    ensures id in db.exposures && db.exposures[id].status.Confirmed? && db.exposures[id].sentAt.Some?
  {
  }

  lemma NothingFound(rows: seq<Row>, id: Id, times: seq<int>, sentAt: int)
    requires Sorted(Before, times) && FirstIn(times, sentAt).None?
    ensures Settled(rows, id, times, sentAt)
  {
  }

  lemma SettledAll(db: Db, d: Db, ids: seq<Id>, times: seq<int>)
    requires ids != [] && Written(db, d, ids[..|ids| - 1], times)
    requires Settled(d.rows, ids[|ids| - 1], times, SentAt(db, ids[|ids| - 1]))
    ensures Written(db, d, ids, times)
  {
  }

  lemma AddIsWritten(db: Db, before: Db, ids: seq<Id>, times: seq<int>, first: int)
    requires ids != [] && Written(db, before, ids[..|ids| - 1], times) && Sorted(Before, times)
    requires FirstIn(times, SentAt(db, ids[|ids| - 1])) == Some(first)
    requires ApplyItem(before, ReturnItem(ids[|ids| - 1], first)).Some?
    requires var d := ApplyItem(before, ReturnItem(ids[|ids| - 1], first)).value;
      && Framed(before, d) && UniqueKeys(d.rows) && AllPolled(d) && RowsKept(before.rows, d.rows)
      && FoundFrom(d.rows, ids[|ids| - 1], first)
      && (forall other :: other != ids[|ids| - 1] && NoRowFor(before.rows, other) ==> NoRowFor(d.rows, other))
    ensures Written(db, ApplyItem(before, ReturnItem(ids[|ids| - 1], first)).value, ids, times)
  {
    hide AllPolled, UniqueKeys, ApplyItem, RowsKept, FirstIn, FoundBy;
    var n := |ids| - 1;
    var d := ApplyItem(before, ReturnItem(ids[n], first)).value;
    assert ids == ids[..n] + [ids[n]];
    RowsKeptTwice(db.rows, before.rows, d.rows);
    FirstInIsFirst(times, SentAt(db, ids[n]));
    forall i | 0 <= i < |ids| ensures Settled(d.rows, ids[i], times, SentAt(db, ids[i])) {
      if i < n {
        assert ids[..n][i] == ids[i];
        SettledStays(before.rows, d.rows, ids[i], times, SentAt(db, ids[i]));
      }
    }
  }

  // ----- stamps ----------------------------------------------------------------------

  lemma {:induction false} StampAllFacts(db: Db, ids: seq<Id>, at: int)
    ensures var d := StampAll(db, ids, at);
      && d.rows == db.rows && d.winners == db.winners && d.exposures.Keys == db.exposures.Keys
      && (forall id :: id in db.exposures ==>
            d.exposures[id] == if id in ids then db.exposures[id].(checkedAt := Some(at)) else db.exposures[id])
  {
    if ids != [] {
      var n := |ids| - 1;
      StampAllFacts(db, ids[..n], at);
      assert ids == ids[..n] + [ids[n]];
    }
  }

  /** A lookup that saw everything back to the send settles the send up to its stamp. */
  lemma StampEarned(visits: seq<Visit>, rows: seq<Row>, id: Id, e: Exposure, now: int, times: seq<int>)
    requires IndexedInTime(visits) && e.status.Confirmed? && e.sentAt.Some?
    requires Saw(visits, e.pro, now, times, e.sentAt.value) && Settled(rows, id, times, e.sentAt.value)
    ensures StampOk(rows, visits, id, e.(checkedAt := Some(now - GRACE)))
  {
  }

  lemma StampAllEarned(db: Db, visits: seq<Visit>, ids: seq<Id>, pro: Id, now: int, times: seq<int>)
    requires Covered(db, visits) && IndexedInTime(visits)
    requires forall i :: 0 <= i < |ids| ==> ids[i] in db.exposures && EarnedBy(db, visits, ids[i], pro, now, times)
    ensures Covered(StampAll(db, ids, now - GRACE), visits)
  {
    hide StampOk, EarnedBy, PolledRow;
    StampAllFacts(db, ids, now - GRACE);
    var d := StampAll(db, ids, now - GRACE);
    forall i | 0 <= i < |d.rows| ensures PolledRow(d, d.rows[i]) { StampKeepsPolled(db, d, d.rows[i]); }
    forall id | id in d.exposures ensures StampOk(d.rows, visits, id, d.exposures[id]) {
      if id in ids {
        var i :| 0 <= i < |ids| && ids[i] == id;
        assert EarnedBy(db, visits, ids[i], pro, now, times);
        EarnedIsOk(db, visits, id, pro, now, times);
      } else {
        assert StampOk(db.rows, visits, id, db.exposures[id]);
      }
    }
  }

  ghost predicate EarnedBy(db: Db, visits: seq<Visit>, id: Id, pro: Id, now: int, times: seq<int>)
    requires id in db.exposures
  {
    var e := db.exposures[id];
    && e.pro == pro && e.status.Confirmed? && e.sentAt.Some?
    && Saw(visits, pro, now, times, e.sentAt.value) && Settled(db.rows, id, times, e.sentAt.value)
  }

  lemma EarnedIsOk(db: Db, visits: seq<Visit>, id: Id, pro: Id, now: int, times: seq<int>)
    requires id in db.exposures && EarnedBy(db, visits, id, pro, now, times) && IndexedInTime(visits)
    ensures StampOk(db.rows, visits, id, db.exposures[id].(checkedAt := Some(now - GRACE)))
  {
  }

  lemma StampKeepsPolled(a: Db, b: Db, row: Row)
    requires PolledRow(a, row) && a.exposures.Keys == b.exposures.Keys
    requires forall id :: id in a.exposures ==> b.exposures[id].(checkedAt := None) == a.exposures[id].(checkedAt := None)
    ensures PolledRow(b, row)
  {
  }

  // ----- every run -------------------------------------------------------------------

  lemma PollStores(db: Db, now: int, ids: seq<Id>, times: seq<int>)
    requires UniqueKeys(db.rows) && AllPolled(db) && AllDue(db, ids, now) && Sorted(Before, times)
    ensures var stored := PollStep(db, now, ids, times, false);
      && UniqueKeys(stored.rows) && stored.exposures == db.exposures && AllPolled(stored) && RowsKept(db.rows, stored.rows)
      && forall i :: 0 <= i < |ids| ==> Settled(stored.rows, ids[i], times, SentAt(db, ids[i]))
  {
    hide AllPolled, UniqueKeys, Settled, RowsKept, DueExposure, ApplyItems, Found, PromoteAll, Affected;
    FoundIsWritten(db, ids, times, now);
    var items := Found(db, ids, times);
    if items != [] {
      var d := ApplyItems(db, items).value;
      PromoteAllFacts(d, Affected(db, items));
      PromotionKeepsPolled(d, PromoteAll(d, Affected(db, items)));
    } else {
      ApplyNothing(db);
    }
  }

  lemma ApplyNothing(db: Db)
    ensures ApplyItems(db, []) == Some(db)
  {
  }

  lemma PromotionKeepsPolled(a: Db, b: Db)
    requires AllPolled(a) && a.rows == b.rows && a.exposures == b.exposures
    ensures AllPolled(b)
  {
  }

  lemma StoredKeepsCovered(before: Db, after: Db, visits: seq<Visit>)
    requires Covered(before, visits) && AllPolled(after)
    requires after.exposures == before.exposures && RowsKept(before.rows, after.rows)
    ensures Covered(after, visits)
  {
  }

  lemma PollKeepsCovered(db: Db, visits: seq<Visit>, t: Tick)
    requires UniqueKeys(db.rows) && Covered(db, visits) && IndexedInTime(visits) && t.Polled? && PollOk(db, visits, t)
    ensures UniqueKeys(Tock(db, t).rows) && Covered(Tock(db, t), visits)
  {
    hide UniqueKeys, AllPolled, Settled, RowsKept, StampAll, Found, Ingest, Saw, Serves, Collected, IndexedInTime, Sorted;
    CoveredHasPolled(db, visits);
    PollStores(db, t.now, t.ids, t.times);
    var stored := PollStep(db, t.now, t.ids, t.times, false);
    StoredKeepsCovered(db, stored, visits);
    if t.stamped {
      forall i | 0 <= i < |t.ids|
        ensures t.ids[i] in stored.exposures && EarnedBy(stored, visits, t.ids[i], t.pro, t.now, t.times)
      {
        DueIsConfirmed(db, t.ids[i], t.now);
        CoveredLookupSaw(t.history, visits, t.pro, t.now, t.times, SentAt(db, t.ids[i]));
      }
      StampAllEarned(stored, visits, t.ids, t.pro, t.now, t.times);
      StampAllFacts(stored, t.ids, t.now - GRACE);
    }
  }

  ghost predicate Ticks(db: Db, visits: seq<Visit>, ticks: seq<Tick>)
    decreases |ticks|
  {
    ticks == [] || (TickOk(db, visits, ticks[0]) && Ticks(Tock(db, ticks[0]), visits, ticks[1..]))
  }

  function Tocks(db: Db, ticks: seq<Tick>): Db
    decreases |ticks|
  {
    if ticks == [] then db else Tocks(Tock(db, ticks[0]), ticks[1..])
  }

  lemma {:induction false} EveryRunIsCovered(db: Db, visits: seq<Visit>, ticks: seq<Tick>)
    requires UniqueKeys(db.rows) && Covered(db, visits) && IndexedInTime(visits) && Ticks(db, visits, ticks)
    ensures UniqueKeys(Tocks(db, ticks).rows) && Covered(Tocks(db, ticks), visits)
    decreases |ticks|
  {
    hide UniqueKeys, Covered, PollOk, Queried, Outside, Step, PollStep;
    if ticks != [] {
      var t := ticks[0];
      if t.Polled? {
        PollKeepsCovered(db, visits, t);
      } else {
        TransactionKeepsCovered(db, visits, t.e);
        StepKeepsKeys(db, t.e);
      }
      EveryRunIsCovered(Tock(db, t), visits, ticks[1..]);
    }
  }

  /** After any run of lookups and other writers, what the gated sweep is about to stamp false
      without a stored return is no missed return, on every row whose horizon lies in the reach of
      its exposure. */
  lemma NoReturnIsMissed(visits: seq<Visit>, ticks: seq<Tick>, i: nat, now: int, h: Horizon)
    requires IndexedInTime(visits) && Ticks(Empty, visits, ticks) && i < |Tocks(Empty, ticks).rows|
    requires StampsFalse(Tocks(Empty, ticks), Tocks(Empty, ticks).rows[i], now, h)
    ensures var db := Tocks(Empty, ticks); var row := db.rows[i]; var e := db.exposures[row.exposure.value];
      && (Inside(e, row, h) ==> NoneMissed(db, visits, row, h))
      && (e.sentAt == row.sentAt ==> TrueNegative(db, visits, row.exposure.value, e, h))
  {
    hide Tocks, Ticks, Resolved, Derive, TrueNegative, NoneMissed;
    EveryRunIsCovered(Empty, visits, ticks);
    GatedNegativeIsTrue(Tocks(Empty, ticks), visits, Tocks(Empty, ticks).rows[i], now, h);
  }

  // ----- where it fails ----------------------------------------------------------------

  /** An exposure registered without a send, and a row that reports its own. */
  const Unsent := Registration(1, None, 7, None, NoClaim, Unknown, None)
  const Resent := Unsent.(status := Confirmed, sentAt := Some(100000))
  const Reporter := Item(1, Some(1), Reported("crm"), 7, NoClaim, Some(10), Confirmed, None, map[], None)

  const MovedAt := 400000 + GRACE

  const MovedClock := [
    Transaction(Registered(Unsent)), Transaction(Ingested([Reporter])), Transaction(Ingested([Reporter])),
    Transaction(Registered(Resent)), Polled(7, MovedAt, [1], [Activity(Some(50000), true)], [50000], true, true)]

  const MovedVisits := [Visit(7, 50000, 50000)]

  function ReportedRow(sentAt: Option<int>, status: SendStatus): Row {
    Row(1, Reported("crm"), Some(1), 7, None, NoClaim, sentAt, status, None, None, map[], Unmeasured, Some(NotReal(NoClaim)))
  }

  function ResentExposure(checkedAt: Option<int>): Exposure {
    Exposure(None, 7, None, NoClaim, Some(100000), Confirmed, checkedAt)
  }

  const Started := Db([], map[1 := Exposure(None, 7, None, NoClaim, None, Unknown, None)], map[])

  lemma ReportedTwice()
    ensures Queried(Empty, Registered(Unsent)) && Step(Empty, Registered(Unsent)) == Started
    ensures var once := Started.(rows := [ReportedRow(None, Unknown)]); var twice := Started.(rows := [ReportedRow(Some(10), Confirmed)]);
      && Queried(Started, Ingested([Reporter])) && Step(Started, Ingested([Reporter])) == once
      && Queried(once, Ingested([Reporter])) && Step(once, Ingested([Reporter])) == twice
  {
    var once := Started.(rows := [ReportedRow(None, Unknown)]);
    var twice := Started.(rows := [ReportedRow(Some(10), Confirmed)]);
    assert ApplyItem(Started, Reporter) == Some(once) by { assert [] + [ReportedRow(None, Unknown)] == once.rows; }
    OneItem(Started, Reporter);
    OneItem(once, Reporter);
    assert Find(once.rows, 1, Reported("crm")) == Some(0);
    assert ApplyItem(once, Reporter) == Some(twice) by { assert once.rows[0 := ReportedRow(Some(10), Confirmed)] == twice.rows; }
  }

  lemma MovedPoll()
    ensures var db := Db([ReportedRow(Some(10), Confirmed)], map[1 := ResentExposure(None)], map[]);
      && PollOk(db, MovedVisits, MovedClock[4])
      && Tock(db, MovedClock[4]) == db.(exposures := map[1 := ResentExposure(Some(400000))])
  {
    var db := Db([ReportedRow(Some(10), Confirmed)], map[1 := ResentExposure(None)], map[]);
    var none: seq<int> := [];
    var nobody: seq<Id> := [];
    assert Unchecked(db.exposures[1], MovedAt, Day1);
    assert [1][..0] == nobody && [50000][1..] == none;
    assert FirstIn([50000], 100000) == FirstIn(none, 100000) == None;
    assert Found(db, [1], [50000]) == Found(db, nobody, [50000]) + [] == [];
    assert StampAll(db, nobody, 400000) == db;
    var h := MovedClock[4].history;
    assert IsReturn(h[0]) && h[0].time.value == 50000;
  }

  const MovedState := Db([ReportedRow(Some(10), Confirmed)], map[1 := ResentExposure(Some(400000))], map[])

  lemma MovedRun()
    ensures Ticks(Empty, MovedVisits, MovedClock) && Tocks(Empty, MovedClock) == MovedState
  {
    hide Step, Queried, PollOk, PollStep;
    ReportedTwice();
    MovedPoll();
    MovedRegistration();
    var s3 := Started.(rows := [ReportedRow(Some(10), Confirmed)]);
    var s4 := s3.(exposures := map[1 := ResentExposure(None)]);
    RunsOn(s4, 4, MovedState);
    RunsOn(s3, 3, s4);
    RunsOn(Started.(rows := [ReportedRow(None, Unknown)]), 2, s3);
    RunsOn(Started, 1, Started.(rows := [ReportedRow(None, Unknown)]));
    RunsOn(Empty, 0, Started);
    assert MovedClock[0..] == MovedClock && MovedClock[5..] == [];
  }

  lemma MovedRegistration()
    ensures var s3 := Started.(rows := [ReportedRow(Some(10), Confirmed)]);
      && Queried(s3, Registered(Resent)) && Step(s3, Registered(Resent)) == s3.(exposures := map[1 := ResentExposure(None)])
  {
  }

  /** Without the reach the negative can be wrong: a row kept the clock it was reported with while
      its exposure was confirmed later, the stamp covers the later clock only, and the sweep stamps
      the row's first day false although the Pro returned in it. */
  lemma MovedClockHidesReturn()
    ensures IndexedInTime(MovedVisits) && Ticks(Empty, MovedVisits, MovedClock)
    ensures var db := Tocks(Empty, MovedClock);
      && |db.rows| == 1 && Sweepable(db, db.rows[0], MovedAt, true) && StampsFalse(db, db.rows[0], MovedAt, Day1)
      && !NoneMissed(db, MovedVisits, db.rows[0], Day1)
  {
    hide Ticks, Tocks;
    MovedRun();
    assert !FoundBy(MovedState.rows, 1, 50000) && MovedVisits[0].time == 50000;
  }

  /** One tick of the run, with what follows it. */
  lemma RunsOn(db: Db, n: nat, next: Db)
    requires n < |MovedClock| && TickOk(db, MovedVisits, MovedClock[n]) && Tock(db, MovedClock[n]) == next
    ensures Ticks(db, MovedVisits, MovedClock[n..]) == Ticks(next, MovedVisits, MovedClock[n + 1..])
    ensures Tocks(db, MovedClock[n..]) == Tocks(next, MovedClock[n + 1..])
  {
    hide TickOk, Tock;
    assert MovedClock[n..][1..] == MovedClock[n + 1..];
  }

  /** A stamped exposure without a winner can still be linked to one of another Pro. The stamp is
      kept although nobody fetched that Pro's returns, so a later negative may be false. */
  lemma LateLinkUncovers(e: Id, w: Id, pro: Id, other: Id, now: int)
    requires pro != other && now >= DAY + GRACE && e != w
    ensures var visits := [Visit(other, DAY, DAY)];
      var before := Db([], map[e := Exposure(None, pro, None, RouteToPro, Some(0), Confirmed, Some(now - GRACE))],
                       map[w := Winner(true, other, false, None, None)]);
      var after := Register(before, Registration(e, Some(w), 0, None, NoClaim, Unknown, None));
      IndexedInTime(visits) && Covered(before, visits) && !Covered(after, visits)
  {
    var visits := [Visit(other, DAY, DAY)];
    var before := Db([], map[e := Exposure(None, pro, None, RouteToPro, Some(0), Confirmed, Some(now - GRACE))],
                     map[w := Winner(true, other, false, None, None)]);
    var after := Register(before, Registration(e, Some(w), 0, None, NoClaim, Unknown, None));
    assert visits[0].pro == after.exposures[e].pro && InReach(after.exposures[e], visits[0].time);
    assert !FoundBy(after.rows, e, visits[0].time);
    assert !StampOk(after.rows, visits, e, after.exposures[e]);
  }
}
