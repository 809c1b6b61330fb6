/** What the ledger keeps when workers follow the pipeline: no payment goes unrecorded, the day
    ledger respects its limit and balances within a day, and a recorded response is final. */
module LedgerCover {
  import opened Common
  import opened Ledger
  import opened LedgerProofs

  // ----- recorded responses ----------------------------------------------------------

  predicate Recorded(c: Call) {
    c.status.Committed? || c.status.Reconciled?
  }

  /** A committed or reconciled row never changes its response, its price or its being recorded. */
  lemma RecordIsFinal(w: World, e: Event, i: nat)
    requires i < |w.calls| && Recorded(w.calls[i]) && Conserved(w)
    ensures var later := Step(w, e).calls;
      && i < |later| && Recorded(later[i])
      && later[i].key == w.calls[i].key && later[i].text == w.calls[i].text && later[i].actual == w.calls[i].actual
  {
    if e.Convert? && e.owner in w.workers {
      ConvertBooks(w, e.owner, w.workers[e.owner].batch);
    }
  }

  lemma {:induction false} RecordIsFinalForever(w: World, es: seq<Event>, i: nat)
    requires i < |w.calls| && Recorded(w.calls[i]) && Conserved(w)
    ensures var later := Exec(w, es).calls;
      && i < |later| && Recorded(later[i])
      && later[i].key == w.calls[i].key && later[i].text == w.calls[i].text && later[i].actual == w.calls[i].actual
    decreases |es|
  {
    if es != [] {
      RecordIsFinal(w, es[0], i);
      StepConserves(w, es[0]);
      RecordIsFinalForever(Step(w, es[0]), es[1..], i);
    }
  }

  /** Asking a recorded key sends nothing to the provider and reserves nothing. */
  lemma RecordedAskIsFree(w: World, key: Key, worst: nat)
    requires Conserved(w) && Find(w.calls, key).Some? && Recorded(w.calls[Find(w.calls, key).value])
    ensures var v := Step(w, Ask(key, worst));
      && v.workers == w.workers
      && forall r :: 0 <= r < |w.runs| ==> v.runs[r].reserved <= w.runs[r].reserved
  {
  }

  // ----- payments --------------------------------------------------------------------

  /** What the pipeline guarantees about an event: a worker asks only after it resolved the
      abandoned calls of its owner and never asks a key twice in one stage entry; a provider
      reply, seen or lost, costs at most its reservation. */
  predicate Fair(w: World, e: Event) {
    Affordable(w, e)
    && (e.Ask? && e.key.owner in w.workers ==> w.workers[e.key.owner].resolved && e.key !in w.workers[e.key.owner].asked)
  }

  /** The provider's half. */
  predicate Affordable(w: World, e: Event) {
    match e
    case Answer(key, reply) => Priced(w, key, reply.cost)
    case Lost(key, cost) => Priced(w, key, cost)
    case _ => true
  }

  predicate Priced(w: World, key: Key, cost: nat) {
    var f := Find(w.calls, key);
    f.Some? ==> cost <= w.calls[f.value].reserved
  }

  predicate FairRun(w: World, es: seq<Event>)
    decreases |es|
  {
    es == [] || (Fair(w, es[0]) && FairRun(Step(w, es[0]), es[1..]))
  }

  /** What the current attempt of a row has cost so far. */
  function Current(c: Call): nat {
    match c.status
    case Pending => c.billed
    case Abandoned => 0
    case _ => c.actual
  }

  predicate RowCovered(c: Call) {
    && (!c.status.Abandoned? ==> Current(c) <= c.reserved)
    && c.past.paid <= Current(c) + c.past.owed + c.past.converted
  }

  /** Worker memory against the table, row by row. */
  predicate RowKnown(c: Call, m: Worker) {
    && (c.key in m.inFlight ==> c.status.Pending? && c.billed == 0)
    && (c.key in m.replies ==> c.status.Pending? && c.billed == m.replies[c.key].cost)
    && (m.resolved && c.status.Pending? ==> c.key in m.asked)
  }

  ghost predicate WorkerOk(calls: seq<Call>, o: Owner, m: Worker) {
    && m.inFlight <= m.asked && m.replies.Keys <= m.asked && m.inFlight !! m.replies.Keys
    && (!m.resolved ==> m.asked == {})
    && (forall k :: k in m.asked ==> k.owner == o)
    && forall i :: 0 <= i < |calls| && calls[i].key.owner == o ==> RowKnown(calls[i], m)
  }

  ghost predicate Covered(w: World) {
    && UniqueKeys(w.calls)
    && (forall i :: 0 <= i < |w.calls| ==> RowCovered(w.calls[i]))
    && forall o :: o in w.workers ==> WorkerOk(w.calls, o, w.workers[o])
  }

  /** In a fair run the pending branch of MeteredLLM.complete is never taken: no attempt is
      sent to the provider a second time under its first reservation. */
  lemma NoSecondSend(w: World, key: Key, worst: nat)
    requires Covered(w) && key.owner in w.workers && Fair(w, Ask(key, worst))
    ensures Find(w.calls, key).Some? ==> !w.calls[Find(w.calls, key).value].status.Pending?
  {
  }

  /** The provider is only ever charged for a key with no recorded response. */
  lemma ChargedOnlyUnrecorded(w: World, i: nat)
    requires Covered(w) && i < |w.calls| && w.calls[i].key.owner in w.workers
    requires w.calls[i].key in w.workers[w.calls[i].key.owner].inFlight
    ensures !Recorded(w.calls[i])
  {
  }

  /** Rows of other owners do not concern a worker. */
  lemma WorkersFrame(calls: seq<Call>, later: seq<Call>, workers: map<Owner, Worker>, o: Owner)
    requires forall p :: p in workers ==> WorkerOk(calls, p, workers[p])
    requires |calls| <= |later|
    requires forall i :: 0 <= i < |calls| ==> later[i].key == calls[i].key && (later[i] == calls[i] || calls[i].key.owner == o)
    requires forall i :: |calls| <= i < |later| ==> later[i].key.owner == o
    ensures forall p :: p in workers && p != o ==> WorkerOk(later, p, workers[p])
  {
  }

  /** Settling and converting do not concern any worker's pending rows. */
  lemma WorkersUntouched(calls: seq<Call>, later: seq<Call>, o: Owner, m: Worker)
    requires WorkerOk(calls, o, m) && |later| == |calls|
    requires forall i :: 0 <= i < |calls| ==>
               && later[i].key == calls[i].key && later[i].status.Pending? == calls[i].status.Pending?
               && later[i].billed == calls[i].billed
    ensures WorkerOk(later, o, m) && WorkerOk(later, o, m.(batch := []))
  {
  }

  lemma SettleCovers(w: World, i: nat)
    requires Covered(w) && i < |w.calls| && w.calls[i].status.Committed?
    ensures Covered(SettleRow(w, i))
  {
  }

  /** A row newly begun or re-primed at `key` leaves for the provider. */
  lemma SendCovers(w: World, calls: seq<Call>, key: Key)
    requires Covered(w) && key.owner in w.workers && key !in w.workers[key.owner].asked
    requires UniqueKeys(calls) && |w.calls| <= |calls|
    requires forall i :: 0 <= i < |calls| ==> RowCovered(calls[i])
    requires forall i :: 0 <= i < |w.calls| ==> calls[i].key == w.calls[i].key
    requires forall i :: 0 <= i < |calls| ==>
               if calls[i].key == key then calls[i].status.Pending? && calls[i].billed == 0
               else i < |w.calls| && calls[i] == w.calls[i]
    requires w.workers[key.owner].resolved
    ensures Covered(Send(w.(calls := calls), key))
  {
  }

  lemma AskCovers(w: World, key: Key, worst: nat)
    requires Conserved(w) && Covered(w) && Fair(w, Ask(key, worst)) && key.owner in w.workers
    ensures Covered(AskStep(w, key, worst))
  {
    var f := Find(w.calls, key);
    if f.None? {
      if Admits(w, key.owner.run, worst) {
        var v := Hold(w, key.owner.run, worst);
        SendCovers(v, w.calls + [Fresh(key, worst)], key);
      }
    } else if w.calls[f.value].status.Committed? {
      SettleCovers(w, f.value);
    } else {
      NoSecondSend(w, key, worst);
      if w.calls[f.value].status.Abandoned? && Admits(w, key.owner.run, worst) {
        var v := Hold(w, key.owner.run, worst);
        SendCovers(v, w.calls[f.value := Reprimed(w.calls[f.value], worst)], key);
      }
    }
  }

  lemma ChargeCovers(w: World, key: Key, cost: nat, m: Worker)
    requires Covered(w) && Priced(w, key, cost)
    requires key.owner in w.workers && key in w.workers[key.owner].inFlight
    requires var n := w.workers[key.owner].(inFlight := w.workers[key.owner].inFlight - {key});
      m == n || exists text :: m == n.(replies := n.replies[key := Reply(text, cost)])
    ensures Covered(Remember(Charge(w, key, cost), key.owner, m))
  {
    var v := Charge(w, key, cost);
    WorkersFrame(w.calls, v.calls, w.workers, key.owner);
    assert WorkerOk(w.calls, key.owner, w.workers[key.owner]);
    assert WorkerOk(v.calls, key.owner, m);
  }

  lemma CommitCovers(w: World, key: Key)
    requires Covered(w) && key.owner in w.workers && key in w.workers[key.owner].replies
    ensures Covered(CommitStep(w, key))
  {
  }

  lemma AbandonCovers(w: World, o: Owner)
    requires Covered(w)
    ensures Covered(Step(w, Abandon(o)))
  {
  }

  lemma ConvertedRow(w: World, o: Owner, i: nat)
    requires Conserved(w) && Covered(w) && o in w.workers && i < |w.calls|
    ensures var c := ConvertRows(w, w.workers[o].batch).calls[i];
      RowCovered(c) && c.key == w.calls[i].key && c.status == w.calls[i].status && c.billed == w.calls[i].billed
  {
    ConvertBooks(w, o, w.workers[o].batch);
    assert RowCovered(w.calls[i]);
  }

  lemma ConvertCovers(w: World, o: Owner)
    requires Conserved(w) && Covered(w) && o in w.workers
    ensures Covered(Step(w, Convert(o)))
  {
    var v := ConvertRows(w, w.workers[o].batch);
    forall i | 0 <= i < |v.calls|
      ensures RowCovered(v.calls[i]) && v.calls[i].key == w.calls[i].key
      ensures v.calls[i].status == w.calls[i].status && v.calls[i].billed == w.calls[i].billed
    {
      ConvertedRow(w, o, i);
    }
    forall p | p in w.workers
      ensures WorkerOk(v.calls, p, w.workers[p]) && WorkerOk(v.calls, p, w.workers[p].(batch := []))
    {
      WorkersUntouched(w.calls, v.calls, p, w.workers[p]);
    }
  }

  lemma StepCovers(w: World, e: Event)
    requires Conserved(w) && Covered(w) && Fair(w, e)
    ensures Covered(Step(w, e))
  {
    match e
    case Abandon(o) => AbandonCovers(w, o);
    case Convert(o) => if o in w.workers { ConvertCovers(w, o); }
    case Ask(key, worst) =>
      if key.owner in w.workers && w.workers[key.owner].batch == [] { AskCovers(w, key, worst); }
    case Answer(key, reply) =>
      if key.owner in w.workers && key in w.workers[key.owner].inFlight {
        var n := w.workers[key.owner].(inFlight := w.workers[key.owner].inFlight - {key});
        var m := n.(replies := n.replies[key := reply]);
        assert m == n.(replies := n.replies[key := Reply(reply.text, reply.cost)]);
        ChargeCovers(w, key, reply.cost, m);
      }
    case Lost(key, cost) =>
      if key.owner in w.workers && key in w.workers[key.owner].inFlight {
        ChargeCovers(w, key, cost, w.workers[key.owner].(inFlight := w.workers[key.owner].inFlight - {key}));
      }
    case Commit(key) =>
      if key.owner in w.workers && key in w.workers[key.owner].replies { CommitCovers(w, key); }
    case Settle(key) =>
      var f := Find(w.calls, key);
      if f.Some? && w.calls[f.value].status.Committed? { SettleCovers(w, f.value); }
    case _ =>
  }

  lemma {:induction false} FairRunCovers(w: World, es: seq<Event>)
    requires Conserved(w) && Covered(w) && FairRun(w, es)
    ensures Conserved(Exec(w, es)) && Covered(Exec(w, es))
    decreases |es|
  {
    if es != [] {
      StepConserves(w, es[0]);
      StepCovers(w, es[0]);
      FairRunCovers(Step(w, es[0]), es[1..]);
    }
  }

  /** The records cover reality: whatever the provider really charged a run, through crashes,
      provider failures, lost responses and re-attempts, is at most the run's recorded spend
      plus what it still holds reserved. */
  lemma RecordsCoverPayments(w: World, es: seq<Event>, run: nat)
    requires Conserved(w) && Covered(w) && FairRun(w, es) && run < |Exec(w, es).runs|
    ensures var v := Exec(w, es); Total(v.calls, PaidOf(run)) <= v.runs[run].spent + v.runs[run].reserved
  {
    FairRunCovers(w, es);
    TotalBound(Exec(w, es).calls, PaidOf(run), SpentOf(run), HeldOf(run));
  }

  lemma ExecOne(w: World, a: Event)
    ensures Exec(w, [a]) == Step(w, a) && FairRun(w, [a]) == Fair(w, a)
  {
  }

  lemma ExecTwo(w: World, a: Event, b: Event)
    ensures Exec(w, [a, b]) == Step(Step(w, a), b)
    ensures FairRun(w, [a, b]) == (Fair(w, a) && Fair(Step(w, a), b))
  {
    assert [a, b][1..] == [b];
    ExecOne(Step(w, a), b);
  }

  /** A key left pending by a crashed attempt the provider already charged for. */
  function CrashedAsk(k: Key): World {
    World([Run(false, 100, 10, 0)], [Fresh(k, 10).(billed := 10, past := Past(10, 0, 0, 10))],
          Fleet(false, Some(0), 100, 10), 0, map[k.owner := Worker(false, {}, {}, map[], [])], 100)
  }

  lemma CrashedAskIsOrdinary(k: Key)
    requires k.owner.run == 0
    ensures Conserved(CrashedAsk(k)) && Covered(CrashedAsk(k))
  {
    var calls := CrashedAsk(k).calls;
    assert [] + [calls[0]] == calls;
    TotalAppend([], calls[0], HeldOf(0));
    TotalAppend([], calls[0], SpentOf(0));
  }

  lemma ReaskSends(k: Key)
    requires k.owner.run == 0
    ensures var w := CrashedAsk(k);
      && Step(w, Ask(k, 10)) == Send(w, k) && !Fair(w, Ask(k, 10))
      && var v := Step(Send(w, k), Lost(k, 10)); v.runs == w.runs && v.calls == [Charged(w.calls[0], 10)]
  {
  }

  /** Without resolving abandoned calls first, a crashed attempt's pending row is sent again
      under its one reservation, and two charges of 10 stand against records of 10. The world
      it starts from is an ordinary one (CrashedAskIsOrdinary). */
  lemma PendingReaskBreaksCover(k: Key)
    requires k.owner.run == 0
    ensures var w := CrashedAsk(k);
      var v := Exec(w, [Ask(k, 10), Lost(k, 10)]);
      && !FairRun(w, [Ask(k, 10), Lost(k, 10)])
      && v.runs == w.runs && Total(v.calls, PaidOf(0)) == 20 > v.runs[0].spent + v.runs[0].reserved
  {
    var w := CrashedAsk(k);
    ReaskSends(k);
    ExecTwo(w, Ask(k, 10), Lost(k, 10));
    assert [Charged(w.calls[0], 10)][..0] == [];
  }

  // ----- the books of one day --------------------------------------------------------

  /** How far the day ledger is from the sum of every run's reserved and spent columns. */
  function Drift(w: World): int {
    w.fleet.reserved - TotalBudget(w.runs)
  }

  lemma {:induction false} BudgetAtLeast(runs: seq<Run>, i: nat)
    requires i < |runs|
    ensures runs[i].reserved + runs[i].spent <= TotalBudget(runs)
  {
    var n := |runs| - 1;
    if i < n { BudgetAtLeast(runs[..n], i); }
  }

  /** Reconciling a row keeps the day balance exactly when today's ledger still holds what is
      released; after a rollover, exactly when nothing is released. */
  lemma SettleKeepsDrift(w: World, i: nat)
    requires Conserved(w) && i < |w.calls| && w.calls[i].status.Committed?
    ensures var c := w.calls[i];
      Drift(SettleRow(w, i)) == Drift(w) <==>
      if w.fleet.day == Some(w.today) then c.reserved - c.actual <= w.fleet.reserved else c.actual == c.reserved
  {
    ClampNeverBites(w, i);
    var c := w.calls[i];
    var run := c.key.owner.run;
    BudgetUpdate(w.runs, run, SettleRun(w.runs[run], c.reserved, c.actual));
  }

  lemma {:induction false} ConvertKeepsBudget(w: World, o: Owner, batch: seq<nat>)
    requires Books(w.runs, w.calls) && BatchOk(w.calls, o, batch) && Within(batch, w.calls)
    ensures TotalBudget(ConvertRows(w, batch).runs) == TotalBudget(w.runs)
    decreases |batch|
  {
    if batch != [] {
      var i := batch[0];
      var c := w.calls[i];
      ClampNeverBites(w, i);
      BudgetUpdate(w.runs, c.key.owner.run, SettleRun(w.runs[c.key.owner.run], c.reserved, c.reserved));
      ConvertBooks(w, o, [i]);
      assert [i][1..] == [] && ConvertRows(w, [i]) == ConvertRow(w, i);
      ConvertKeepsBudget(ConvertRow(w, i), o, batch[1..]);
    }
  }

  lemma HoldKeepsDrift(w: World, run: nat, amount: nat)
    requires run < |w.runs| && w.fleet.day == Some(w.today)
    ensures Drift(Hold(w, run, amount)) == Drift(w)
  {
    var r := w.runs[run];
    BudgetUpdate(w.runs, run, r.(reserved := r.reserved + amount));
  }

  lemma AskKeepsDrift(w: World, key: Key, worst: nat)
    requires Conserved(w) && w.fleet.day == Some(w.today) && Drift(w) >= 0 && key.owner in w.workers
    ensures Drift(AskStep(w, key, worst)) == Drift(w) && AskStep(w, key, worst).fleet.day == w.fleet.day
  {
    var f := Find(w.calls, key);
    if key.owner.run < |w.runs| { HoldKeepsDrift(w, key.owner.run, worst); }
    if f.Some? && w.calls[f.value].status.Committed? { ReleaseFits(w, f.value); }
  }

  lemma ReleaseFits(w: World, i: nat)
    requires Conserved(w) && i < |w.calls| && w.calls[i].status.Committed?
    requires w.fleet.day == Some(w.today) && Drift(w) >= 0
    ensures Drift(SettleRow(w, i)) == Drift(w)
  {
    ClampNeverBites(w, i);
    BudgetAtLeast(w.runs, w.calls[i].key.owner.run);
    SettleKeepsDrift(w, i);
  }

  lemma PreflightKeepsDrift(w: World, run: nat, worst: nat)
    requires w.fleet.day == Some(w.today)
    ensures Drift(Step(w, Preflight(run, worst))) == Drift(w)
  {
    if Admits(w, run, worst) {
      var v := ReconcileCost(Hold(w, run, worst), run, worst, 0);
      assert v.runs == w.runs && v.fleet.reserved == w.fleet.reserved;
    }
  }

  lemma SettleStepKeepsDrift(w: World, key: Key)
    requires Conserved(w) && w.fleet.day == Some(w.today) && Drift(w) >= 0
    ensures Drift(Step(w, Settle(key))) == Drift(w) && Step(w, Settle(key)).fleet.day == w.fleet.day
    ensures Step(w, Settle(key)).today == w.today
  {
    var f := Find(w.calls, key);
    if f.Some? && w.calls[f.value].status.Committed? { ReleaseFits(w, f.value); }
  }

  /** Every other event leaves both ledgers alone. */
  lemma QuietKeepsDrift(w: World, e: Event)
    requires w.fleet.day == Some(w.today)
    requires !e.NewDay? && !e.Ask? && !e.Settle? && !e.Convert? && !e.Preflight?
    ensures Drift(Step(w, e)) == Drift(w) && Step(w, e).fleet.day == Some(Step(w, e).today)
  {
    if e.SetHalted? && e.run < |w.runs| {
      BudgetUpdate(w.runs, e.run, w.runs[e.run].(halted := e.halted));
    }
  }

  lemma ConvertKeepsDrift(w: World, o: Owner)
    requires Conserved(w)
    ensures Drift(Step(w, Convert(o))) == Drift(w) && Step(w, Convert(o)).fleet == w.fleet
  {
    if o in w.workers {
      ConvertKeepsBudget(w, o, w.workers[o].batch);
      ConvertBooks(w, o, w.workers[o].batch);
    }
  }

  lemma StepKeepsDrift(w: World, e: Event)
    requires Conserved(w) && w.fleet.day == Some(w.today) && Drift(w) >= 0 && !e.NewDay?
    ensures Drift(Step(w, e)) == Drift(w) && Step(w, e).fleet.day == Some(Step(w, e).today)
  {
    match e
    case Ask(key, worst) => if key.owner in w.workers { AskKeepsDrift(w, key, worst); }
    case Settle(key) => SettleStepKeepsDrift(w, key);
    case Convert(o) => ConvertKeepsDrift(w, o);
    case Preflight(run, worst) => PreflightKeepsDrift(w, run, worst);
    case _ => QuietKeepsDrift(w, e);
  }

  /** Within a day the two ledgers balance to the unit: from a moment when the day ledger holds
      at least what all runs hold and spent, they move together through any interleaving. */
  lemma {:induction false} SameDayBalance(w: World, es: seq<Event>)
    requires Conserved(w) && w.fleet.day == Some(w.today) && Drift(w) >= 0
    requires forall j :: 0 <= j < |es| ==> !es[j].NewDay?
    ensures Drift(Exec(w, es)) == Drift(w)
    decreases |es|
  {
    if es != [] {
      StepConserves(w, es[0]);
      StepKeepsDrift(w, es[0]);
      SameDayBalance(Step(w, es[0]), es[1..]);
    }
  }

  /** Across a rollover they do not: a call reserved yesterday and reconciled today releases
      today's ledger, which then holds nothing although a call reserved today is in flight. */
  lemma RolloverReleasesTheWrongDay()
    ensures exists w: World, i: nat ::
              (&& Conserved(w) && i < |w.calls| && w.calls[i].status.Committed?
               && w.fleet.day == Some(w.today) && Drift(SettleRow(w, i)) != Drift(w)
               && SettleRow(w, i).fleet.reserved < SettleRow(w, i).runs[0].reserved)
  {
    var stale := Call(Key(Owner(0, "pro"), "r1:generate"), Committed, 50, 10, "{}", 10, Past(50, 0, 0, 10));
    var newer := Fresh(Key(Owner(0, "pro"), "r1:critic"), 30);
    var w := World([Run(false, 100, 80, 0)], [stale, newer], Fleet(false, Some(1), 100, 30), 1, map[], 100);
    assert w.calls == [] + [stale] + [newer];
    TotalAppend([], stale, HeldOf(0));
    TotalAppend([] + [stale], newer, HeldOf(0));
    TotalAppend([], stale, SpentOf(0));
    TotalAppend([] + [stale], newer, SpentOf(0));
    assert Conserved(w);
    SettleKeepsDrift(w, 0);
    assert SettleRow(w, 0).fleet.reserved == 0;
  }
}
