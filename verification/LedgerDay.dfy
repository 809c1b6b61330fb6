/** The day ledger stays under its limit, whatever workers ask, as long as the provider stays within
    its reservations. */
module LedgerDay {
  import opened Common
  import opened Ledger
  import opened LedgerProofs
  import opened LedgerCover

  predicate WithinDayLimit(w: World) {
    w.fleet.reserved <= w.limitHigh && w.fleet.limit <= w.limitHigh
  }

  predicate AffordableRun(w: World, es: seq<Event>)
    decreases |es|
  {
    es == [] || (Affordable(w, es[0]) && AffordableRun(Step(w, es[0]), es[1..]))
  }

  ghost predicate HasRow(calls: seq<Call>, key: Key) {
    exists i :: 0 <= i < |calls| && calls[i].key == key
  }

  predicate RowServes(c: Call, m: Worker) {
    && (c.key in m.inFlight || c.key in m.replies ==> !c.status.Abandoned?)
    && (c.key in m.replies ==> m.replies[c.key].cost <= c.reserved)
  }

  /** What a worker has sent or holds is for rows of its own that are not abandoned and cover it. */
  ghost predicate WorkerFits(calls: seq<Call>, o: Owner, m: Worker) {
    && (forall k :: k in m.inFlight || k in m.replies ==> k.owner == o && HasRow(calls, k))
    && (forall i :: 0 <= i < |calls| ==> RowServes(calls[i], m))
  }

  ghost predicate RowsFit(calls: seq<Call>) {
    forall i :: 0 <= i < |calls| && Recorded(calls[i]) ==> calls[i].actual <= calls[i].reserved
  }

  /** No recorded price, and no reply a worker holds, exceeds its reservation. */
  ghost predicate PricesFit(w: World) {
    RowsFit(w.calls) && forall o :: o in w.workers ==> WorkerFits(w.calls, o, w.workers[o])
  }

  lemma IdleFits(w: World)
    requires w.workers == map[] && RowsFit(w.calls)
    ensures PricesFit(w)
  {
  }

  lemma RowsStay(calls: seq<Call>, later: seq<Call>, key: Key)
    requires HasRow(calls, key) && |calls| <= |later| && forall i :: 0 <= i < |calls| ==> later[i].key == calls[i].key
    ensures HasRow(later, key)
  {
    var i :| 0 <= i < |calls| && calls[i].key == key;
    assert later[i].key == key;
  }

  /** A worker whose rows keep their keys, holds and status keeps fitting. */
  lemma WorkerKeepsFitting(calls: seq<Call>, later: seq<Call>, o: Owner, m: Worker, n: Worker)
    requires WorkerFits(calls, o, m) && |calls| <= |later|
    requires n.inFlight <= m.inFlight && forall k :: k in n.replies ==> k in m.replies && n.replies[k] == m.replies[k]
    requires forall i :: 0 <= i < |calls| ==> later[i].key == calls[i].key
    requires forall i :: 0 <= i < |calls| && calls[i].key.owner == o ==>
      RowServes(calls[i], n) ==> RowServes(later[i], n)
    requires forall i :: |calls| <= i < |later| ==> !HasRow(calls, later[i].key)
    ensures WorkerFits(later, o, n)
  {
    forall k | k in n.inFlight || k in n.replies ensures k.owner == o && HasRow(later, k) { RowsStay(calls, later, k); }
    forall i | 0 <= i < |later| ensures RowServes(later[i], n) {
      if i < |calls| { assert RowServes(calls[i], m); }
    }
  }

  /** Every worker but o's, when only rows of o change. */
  lemma OthersKeepFitting(w: World, later: seq<Call>, o: Owner)
    requires PricesFit(w) && |w.calls| <= |later|
    requires forall i :: 0 <= i < |w.calls| ==> later[i].key == w.calls[i].key && (w.calls[i].key.owner == o || later[i] == w.calls[i])
    requires forall i :: |w.calls| <= i < |later| ==> !HasRow(w.calls, later[i].key)
    ensures forall p :: p in w.workers && p != o ==> WorkerFits(later, p, w.workers[p])
  {
    forall p | p in w.workers && p != o ensures WorkerFits(later, p, w.workers[p]) {
      WorkerKeepsFitting(w.calls, later, p, w.workers[p], w.workers[p]);
    }
  }

  /** A row of the owner is begun, re-primed or left pending, and its request goes out. */
  lemma SendFits(w: World, calls: seq<Call>, key: Key)
    requires PricesFit(w) && key.owner in w.workers && RowsFit(calls) && |w.calls| <= |calls| && HasRow(calls, key)
    requires forall i :: 0 <= i < |w.calls| ==> calls[i].key == w.calls[i].key
    requires forall i :: 0 <= i < |w.calls| ==> calls[i] == w.calls[i] || (calls[i].key == key && w.calls[i].status.Abandoned?)
    requires forall i :: 0 <= i < |calls| && calls[i].key == key ==> calls[i].status.Pending?
    requires forall i :: |w.calls| <= i < |calls| ==> calls[i].key == key && !HasRow(w.calls, key)
    ensures PricesFit(Send(w.(calls := calls), key))
  {
    var o := key.owner;
    var m := w.workers[o];
    OthersKeepFitting(w, calls, o);
    assert WorkerFits(w.calls, o, m);
    WorkerKeepsFitting(w.calls, calls, o, m, m);
    var n := m.(asked := m.asked + {key}, inFlight := m.inFlight + {key});
    assert WorkerFits(calls, o, n) by {
      forall i | 0 <= i < |calls| ensures RowServes(calls[i], n) { assert RowServes(calls[i], m); }
    }
  }

  lemma AskFits(w: World, key: Key, worst: nat)
    requires Conserved(w) && PricesFit(w) && key.owner in w.workers
    ensures PricesFit(AskStep(w, key, worst))
  {
    hide Hold, ReconcileCost, WorkerFits;
    var f := Find(w.calls, key);
    if f.None? {
      var calls := w.calls + [Fresh(key, worst)];
      assert calls[|w.calls|].key == key;
      if Admits(w, key.owner.run, worst) { SendFits(w, calls, key); HoldFits(w, calls, key, worst); }
    } else {
      var i := f.value;
      assert HasRow(w.calls, key);
      match w.calls[i].status
      case Committed => SettleFits(w, i);
      case Reconciled =>
      case Abandoned =>
        var calls := w.calls[i := Reprimed(w.calls[i], worst)];
        RowsStay(w.calls, calls, key);
        if Admits(w, key.owner.run, worst) { SendFits(w, calls, key); HoldFits(w, calls, key, worst); }
      case Pending => SendFits(w, w.calls, key); assert w.(calls := w.calls) == w;
    }
  }

  lemma HoldFits(w: World, calls: seq<Call>, key: Key, worst: nat)
    requires key.owner in w.workers && key.owner.run < |w.runs| && PricesFit(Send(w.(calls := calls), key))
    ensures PricesFit(Send(Hold(w, key.owner.run, worst).(calls := calls), key))
  {
  }

  lemma SettleFits(w: World, i: nat)
    requires PricesFit(w) && i < |w.calls| && w.calls[i].status.Committed?
    ensures PricesFit(SettleRow(w, i))
  {
    var later := w.calls[i := w.calls[i].(status := Reconciled)];
    forall p | p in w.workers ensures WorkerFits(later, p, w.workers[p]) {
      WorkerKeepsFitting(w.calls, later, p, w.workers[p], w.workers[p]);
    }
  }

  /** A charge changes no key, status or hold. */
  lemma ChargeKeepsRows(w: World, key: Key, cost: nat)
    ensures var later := Charge(w, key, cost).calls;
      && |later| == |w.calls|
      && forall i :: 0 <= i < |later| ==>
           && later[i].key == w.calls[i].key && later[i].status == w.calls[i].status
           && later[i].reserved == w.calls[i].reserved && later[i].actual == w.calls[i].actual
           && (later[i] == w.calls[i] || later[i].key == key)
  {
  }

  lemma AnswerFits(w: World, key: Key, cost: nat, m: Worker)
    requires Conserved(w) && PricesFit(w) && Priced(w, key, cost)
    requires key.owner in w.workers && key in w.workers[key.owner].inFlight
    requires var n := w.workers[key.owner].(inFlight := w.workers[key.owner].inFlight - {key});
      m == n || exists text :: m == n.(replies := n.replies[key := Reply(text, cost)])
    ensures PricesFit(Remember(Charge(w, key, cost), key.owner, m))
  {
    hide Charge, Books, AllAccounted, BatchesOk, HasRow;
    var o := key.owner;
    var later := Charge(w, key, cost).calls;
    ChargeKeepsRows(w, key, cost);
    ChargeKeepsRest(w, key, cost);
    assert WorkerFits(w.calls, o, w.workers[o]);
    OthersKeepFitting(w, later, o);
    forall k | k in m.inFlight || k in m.replies ensures k.owner == o && HasRow(later, k) { RowsStay(w.calls, later, k); }
    forall i | 0 <= i < |later| ensures RowServes(later[i], m) {
      assert RowServes(w.calls[i], w.workers[o]);
      if later[i].key == key { OnlyRow(w.calls, i); }
    }
  }

  lemma ChargeKeepsRest(w: World, key: Key, cost: nat)
    ensures Charge(w, key, cost).workers == w.workers
  {
  }

  lemma OnlyRow(calls: seq<Call>, i: nat)
    requires UniqueKeys(calls) && i < |calls|
    ensures Find(calls, calls[i].key) == Some(i)
  {
  }

  lemma CommitFits(w: World, key: Key)
    requires PricesFit(w) && key.owner in w.workers && key in w.workers[key.owner].replies
    ensures PricesFit(CommitStep(w, key))
  {
    var o := key.owner;
    var m := w.workers[o];
    var later := CommitStep(w, key).calls;
    assert WorkerFits(w.calls, o, m);
    OthersKeepFitting(w, later, o);
    WorkerKeepsFitting(w.calls, later, o, m, m.(replies := m.replies - {key}));
    var f := Find(w.calls, key);
    if f.Some? { assert RowServes(w.calls[f.value], m); }
  }

  lemma AbandonFits(w: World, o: Owner)
    requires PricesFit(w)
    ensures PricesFit(Step(w, Abandon(o)))
  {
    OthersKeepFitting(w, DropStale(w.calls, o), o);
  }

  lemma ConvertKeepsRows(w: World, o: Owner)
    requires Conserved(w) && o in w.workers
    ensures var later := ConvertRows(w, w.workers[o].batch).calls;
      && |later| == |w.calls|
      && forall i :: 0 <= i < |later| ==>
           && later[i].key == w.calls[i].key && later[i].status == w.calls[i].status
           && later[i].reserved == w.calls[i].reserved && later[i].actual == w.calls[i].actual
  {
    hide Books, AllAccounted;
    ConvertBooks(w, o, w.workers[o].batch);
  }

  lemma ConvertFits(w: World, o: Owner)
    requires Conserved(w) && PricesFit(w) && o in w.workers
    ensures PricesFit(Step(w, Convert(o)))
  {
    hide ConvertRows, Books, AllAccounted, HasRow;
    ConvertKeepsRows(w, o);
    assert BatchOk(w.calls, o, w.workers[o].batch);
    var later := ConvertRows(w, w.workers[o].batch).calls;
    forall p | p in w.workers ensures WorkerFits(later, p, w.workers[p]) && WorkerFits(later, p, w.workers[p].(batch := [])) {
      WorkerKeepsFitting(w.calls, later, p, w.workers[p], w.workers[p]);
    }
  }

  /** Whatever workers ask, replies within their reservations keep every price within its own. */
  lemma StepFits(w: World, e: Event)
    requires Conserved(w) && PricesFit(w) && Affordable(w, e)
    ensures PricesFit(Step(w, e))
  {
    hide PricesFit, Conserved, AskStep, CommitStep, Charge, DropStale, ConvertRows, SettleRow;
    match e
    case Abandon(o) => AbandonFits(w, o);
    case Convert(o) => if o in w.workers { ConvertFits(w, o); }
    case Ask(key, worst) => if key.owner in w.workers { AskFits(w, key, worst); }
    case Answer(key, reply) =>
      if key.owner in w.workers && key in w.workers[key.owner].inFlight {
        var n := w.workers[key.owner].(inFlight := w.workers[key.owner].inFlight - {key});
        var m := n.(replies := n.replies[key := reply]);
        assert m == n.(replies := n.replies[key := Reply(reply.text, reply.cost)]);
        AnswerFits(w, key, reply.cost, m);
      }
    case Lost(key, cost) =>
      if key.owner in w.workers && key in w.workers[key.owner].inFlight {
        AnswerFits(w, key, cost, w.workers[key.owner].(inFlight := w.workers[key.owner].inFlight - {key}));
      }
    case Commit(key) => if key.owner in w.workers && key in w.workers[key.owner].replies { CommitFits(w, key); }
    case Settle(key) =>
      var f := Find(w.calls, key);
      if f.Some? && w.calls[f.value].status.Committed? { SettleFits(w, f.value); }
    case _ => RestFits(w, e);
  }

  lemma RestFits(w: World, e: Event)
    requires PricesFit(w) && (e.NewDay? || e.SetKill? || e.SetDayLimit? || e.SetHalted? || e.Preflight? || e.Start? || e.Crash?)
    ensures PricesFit(Step(w, e))
  {
  }

  lemma StepWithinDayLimit(w: World, e: Event)
    requires Conserved(w) && PricesFit(w) && WithinDayLimit(w)
    ensures WithinDayLimit(Step(w, e))
  {
    if e.Convert? && e.owner in w.workers {
      ConvertBooks(w, e.owner, w.workers[e.owner].batch);
    }
  }

  /** Across any number of days, whatever workers ask and re-ask, the day ledger never exceeds the
      day limit (the highest one configured, when operators change it), as long as replies cost at
      most their reservation. */
  lemma {:induction false} DayLimitHolds(w: World, es: seq<Event>)
    requires Conserved(w) && PricesFit(w) && WithinDayLimit(w) && AffordableRun(w, es)
    ensures WithinDayLimit(Exec(w, es))
    decreases |es|
  {
    hide Conserved, PricesFit, Step, Affordable;
    if es != [] {
      StepConserves(w, es[0]);
      StepFits(w, es[0]);
      StepWithinDayLimit(w, es[0]);
      DayLimitHolds(Step(w, es[0]), es[1..]);
    }
  }
}
