/** What every run of the paid-call ledger keeps: each run's budget columns are the sums of what
    its rows hold and settled, and every reservation is settled at most once. */
module LedgerProofs {
  import opened Common
  import opened Ledger

  // ----- conservation ----------------------------------------------------------------

  ghost predicate UniqueKeys(calls: seq<Call>) {
    forall i, j :: 0 <= i < j < |calls| ==> calls[i].key != calls[j].key
  }

  /** Every unit ever reserved for a row is on exactly one side: still held or reconciled with
      the current attempt, abandoned and still owed, or converted. An attempt settled twice,
      or never, would break this. */
  predicate Accounted(c: Call) {
    c.past.primed == (if c.status.Abandoned? then 0 else c.reserved) + c.past.owed + c.past.converted
  }

  ghost predicate Books(runs: seq<Run>, calls: seq<Call>) {
    && (forall i :: 0 <= i < |calls| ==> calls[i].key.owner.run < |runs|)
    && forall r :: 0 <= r < |runs| ==>
         && runs[r].reserved == Total(calls, HeldOf(r)) <= runs[r].limit
         && runs[r].spent == Total(calls, SpentOf(r))
  }

  /** The rows a worker still has to convert: distinct abandoned rows of its owner, owed in full. */
  ghost predicate BatchOk(calls: seq<Call>, o: Owner, batch: seq<nat>) {
    && Increasing(batch)
    && forall j :: 0 <= j < |batch| ==>
         && batch[j] < |calls|
         && calls[batch[j]].key.owner == o
         && calls[batch[j]].status.Abandoned?
         && calls[batch[j]].past.owed >= calls[batch[j]].reserved
  }

  ghost predicate AllAccounted(calls: seq<Call>) {
    forall i :: 0 <= i < |calls| ==> Accounted(calls[i])
  }

  ghost predicate BatchesOk(calls: seq<Call>, workers: map<Owner, Worker>) {
    forall o :: o in workers ==> BatchOk(calls, o, workers[o].batch)
  }

  ghost predicate Conserved(w: World) {
    && UniqueKeys(w.calls)
    && Books(w.runs, w.calls)
    && AllAccounted(w.calls)
    && BatchesOk(w.calls, w.workers)
  }

  /** One row and its run's budget move together. */
  lemma BooksUpdate(runs: seq<Run>, calls: seq<Call>, i: nat, c: Call, r: Run)
    requires Books(runs, calls) && i < |calls| && c.key == calls[i].key
    requires var run := c.key.owner.run;
      && r.limit == runs[run].limit && r.reserved <= r.limit
      && r.reserved + HeldOf(run)(calls[i]) == runs[run].reserved + HeldOf(run)(c)
      && r.spent + SpentOf(run)(calls[i]) == runs[run].spent + SpentOf(run)(c)
    ensures Books(runs[c.key.owner.run := r], calls[i := c])
  {
    forall k | 0 <= k < |runs|
      ensures Total(calls[i := c], HeldOf(k)) + HeldOf(k)(calls[i]) == Total(calls, HeldOf(k)) + HeldOf(k)(c)
      ensures Total(calls[i := c], SpentOf(k)) + SpentOf(k)(calls[i]) == Total(calls, SpentOf(k)) + SpentOf(k)(c)
    {
      TotalUpdate(calls, i, c, HeldOf(k));
      TotalUpdate(calls, i, c, SpentOf(k));
    }
  }

  /** `GREATEST(cost_reserved - x, 0)` never clamps: the run holds at least what any of its
      rows can release. */
  lemma ClampNeverBites(w: World, i: nat)
    requires Books(w.runs, w.calls) && i < |w.calls|
    ensures w.calls[i].status.Pending? || w.calls[i].status.Committed? ==>
      w.calls[i].reserved <= w.runs[w.calls[i].key.owner.run].reserved
    ensures w.calls[i].past.owed <= w.runs[w.calls[i].key.owner.run].reserved
  {
    TotalUpdate(w.calls, i, w.calls[i], HeldOf(w.calls[i].key.owner.run));
  }

  lemma SettleBooks(w: World, i: nat)
    requires Books(w.runs, w.calls) && i < |w.calls| && w.calls[i].status.Committed?
    ensures Books(SettleRow(w, i).runs, SettleRow(w, i).calls)
  {
    ClampNeverBites(w, i);
    var c := w.calls[i];
    BooksUpdate(w.runs, w.calls, i, c.(status := Reconciled), SettleRun(w.runs[c.key.owner.run], c.reserved, c.actual));
  }

  lemma ConvertRowBooks(w: World, o: Owner, batch: seq<nat>)
    requires Books(w.runs, w.calls) && BatchOk(w.calls, o, batch) && batch != []
    ensures var r := ConvertRow(w, batch[0]);
      && Books(r.runs, r.calls) && |r.runs| == |w.runs| && r.fleet == w.fleet
      && r.calls == w.calls[batch[0] := Converted(w.calls[batch[0]])] && BatchOk(r.calls, o, batch[1..])
  {
    var c := w.calls[batch[0]];
    ClampNeverBites(w, batch[0]);
    BooksUpdate(w.runs, w.calls, batch[0], Converted(c), SettleRun(w.runs[c.key.owner.run], c.reserved, c.reserved));
  }

  lemma {:induction false} ConvertBooks(w: World, o: Owner, batch: seq<nat>)
    requires Books(w.runs, w.calls) && BatchOk(w.calls, o, batch) && Within(batch, w.calls)
    ensures var r := ConvertRows(w, batch);
      && Books(r.runs, r.calls) && |r.runs| == |w.runs|
      && r.fleet == w.fleet
      && forall i: nat :: i < |w.calls| ==> r.calls[i] == if i in batch then Converted(w.calls[i]) else w.calls[i]
    decreases |batch|
  {
    hide Books, ConvertRow, Converted;
    if batch != [] {
      ConvertRowBooks(w, o, batch);
      ConvertBooks(ConvertRow(w, batch[0]), o, batch[1..]);
      assert batch == [batch[0]] + batch[1..];
      assert batch[0] !in batch[1..];
    }
  }

  lemma DropBooks(runs: seq<Run>, calls: seq<Call>, o: Owner)
    requires Books(runs, calls)
    ensures Books(runs, DropStale(calls, o))
  {
    forall r | 0 <= r < |runs|
      ensures Total(DropStale(calls, o), HeldOf(r)) == Total(calls, HeldOf(r))
      ensures Total(DropStale(calls, o), SpentOf(r)) == Total(calls, SpentOf(r))
    {
      TotalEqual(DropStale(calls, o), calls, HeldOf(r));
      TotalEqual(DropStale(calls, o), calls, SpentOf(r));
    }
  }

  lemma BeginTotals(calls: seq<Call>, key: Key, worst: nat, k: nat)
    ensures var held := if key.owner.run == k then worst else 0;
      && Total(calls + [Fresh(key, worst)], HeldOf(k)) == Total(calls, HeldOf(k)) + held
      && Total(calls + [Fresh(key, worst)], SpentOf(k)) == Total(calls, SpentOf(k))
  {
    TotalAppend(calls, Fresh(key, worst), HeldOf(k));
    TotalAppend(calls, Fresh(key, worst), SpentOf(k));
  }

  lemma BeginBooks(runs: seq<Run>, calls: seq<Call>, key: Key, worst: nat)
    requires Books(runs, calls) && key.owner.run < |runs|
    requires runs[key.owner.run].reserved + worst <= runs[key.owner.run].limit
    ensures var r := runs[key.owner.run];
      Books(runs[key.owner.run := r.(reserved := r.reserved + worst)], calls + [Fresh(key, worst)])
  {
    hide Total, HeldOf, SpentOf;
    var r := runs[key.owner.run];
    var after := runs[key.owner.run := r.(reserved := r.reserved + worst)];
    forall k | 0 <= k < |after|
      ensures after[k].reserved == Total(calls + [Fresh(key, worst)], HeldOf(k)) <= after[k].limit
      ensures after[k].spent == Total(calls + [Fresh(key, worst)], SpentOf(k))
    {
      BeginTotals(calls, key, worst, k);
    }
  }

  lemma BeginConserves(w: World, key: Key, worst: nat)
    requires Conserved(w) && Find(w.calls, key).None? && Admits(w, key.owner.run, worst)
    ensures Conserved(Hold(w, key.owner.run, worst).(calls := w.calls + [Fresh(key, worst)]))
  {
    hide Books, BatchesOk;
    BeginBooks(w.runs, w.calls, key, worst);
    BatchesFrame(w.calls, w.calls + [Fresh(key, worst)], w.workers);
  }

  /** Batches only look at abandoned rows of their own owner. */
  lemma BatchesFrame(calls: seq<Call>, later: seq<Call>, workers: map<Owner, Worker>)
    requires BatchesOk(calls, workers) && |calls| <= |later|
    requires forall i :: 0 <= i < |calls| && later[i] != calls[i] ==>
               && later[i].key == calls[i].key
               && (calls[i].status.Abandoned? ==>
                     calls[i].key.owner in workers ==> workers[calls[i].key.owner].batch == [])
    ensures BatchesOk(later, workers)
  {
  }

  lemma ReprimeConserves(w: World, i: nat, worst: nat)
    requires Conserved(w) && i < |w.calls| && w.calls[i].status.Abandoned?
    requires var o := w.calls[i].key.owner;
      Admits(w, o.run, worst) && o in w.workers && w.workers[o].batch == []
    ensures Conserved(Hold(w, w.calls[i].key.owner.run, worst).(calls := w.calls[i := Reprimed(w.calls[i], worst)]))
  {
    var r := w.runs[w.calls[i].key.owner.run];
    BooksUpdate(w.runs, w.calls, i, Reprimed(w.calls[i], worst), r.(reserved := r.reserved + worst));
    BatchesFrame(w.calls, w.calls[i := Reprimed(w.calls[i], worst)], w.workers);
  }

  lemma SettleConserves(w: World, i: nat)
    requires Conserved(w) && i < |w.calls| && w.calls[i].status.Committed?
    ensures Conserved(SettleRow(w, i))
  {
    SettleBooks(w, i);
  }

  lemma AskConserves(w: World, key: Key, worst: nat)
    requires Conserved(w) && key.owner in w.workers && w.workers[key.owner].batch == []
    ensures Conserved(AskStep(w, key, worst))
  {
    var f := Find(w.calls, key);
    if f.None? {
      if Admits(w, key.owner.run, worst) { BeginConserves(w, key, worst); }
    } else if w.calls[f.value].status.Committed? {
      SettleConserves(w, f.value);
    } else if w.calls[f.value].status.Abandoned? && Admits(w, key.owner.run, worst) {
      ReprimeConserves(w, f.value, worst);
    }
  }

  /** A change that touches neither reservations nor settlement keeps the books. */
  lemma QuietUpdate(w: World, i: nat, c: Call)
    requires Books(w.runs, w.calls) && i < |w.calls| && c.key == w.calls[i].key
    requires forall r: nat :: HeldOf(r)(c) == HeldOf(r)(w.calls[i]) && SpentOf(r)(c) == SpentOf(r)(w.calls[i])
    ensures Books(w.runs, w.calls[i := c])
  {
    BooksUpdate(w.runs, w.calls, i, c, w.runs[c.key.owner.run]);
  }

  lemma AbandonConserves(w: World, o: Owner)
    requires Conserved(w)
    ensures Conserved(Step(w, Abandon(o)))
  {
    DropBooks(w.runs, w.calls, o);
    var batch := StaleRows(w.calls, o);
    StaleRowsAre(w.calls, o);
    assert forall j :: 0 <= j < |batch| ==> batch[j] in batch;
  }

  lemma ConvertConserves(w: World, o: Owner)
    requires Conserved(w) && o in w.workers
    ensures Conserved(Step(w, Convert(o)))
  {
    hide Books, ConvertRows;
    ConvertBooks(w, o, w.workers[o].batch);
    BatchesFrame(w.calls, ConvertRows(w, w.workers[o].batch).calls, w.workers - {o});
  }

  lemma ChargeConserves(w: World, key: Key, cost: nat)
    requires Conserved(w)
    ensures Conserved(Charge(w, key, cost))
  {
    var f := Find(w.calls, key);
    if f.Some? { QuietUpdate(w, f.value, Charged(w.calls[f.value], cost)); }
  }

  lemma CommitConserves(w: World, key: Key)
    requires Conserved(w) && key.owner in w.workers && key in w.workers[key.owner].replies
    ensures Conserved(CommitStep(w, key))
  {
    var f := Find(w.calls, key);
    if f.Some? && w.calls[f.value].status.Pending? {
      var reply := w.workers[key.owner].replies[key];
      QuietUpdate(w, f.value, w.calls[f.value].(status := Committed, actual := reply.cost, text := reply.text));
    }
  }

  /** Fleet switches, operator stops, the clock and the preflight never touch a row. */
  lemma OutsideConserves(w: World, e: Event)
    requires Conserved(w)
    requires e.NewDay? || e.SetKill? || e.SetDayLimit? || e.SetHalted? || e.Preflight? || e.Start? || e.Crash?
    ensures Conserved(Step(w, e))
  {
  }

  /** One transaction of any kind keeps conservation. */
  lemma StepConserves(w: World, e: Event)
    requires Conserved(w)
    ensures Conserved(Step(w, e))
  {
    match e
    case Abandon(o) => AbandonConserves(w, o);
    case Convert(o) => if o in w.workers { ConvertConserves(w, o); }
    case Ask(key, worst) =>
      if key.owner in w.workers && w.workers[key.owner].batch == [] { AskConserves(w, key, worst); }
    case Answer(key, reply) => ChargeConserves(w, key, reply.cost);
    case Lost(key, cost) => ChargeConserves(w, key, cost);
    case Commit(key) =>
      if key.owner in w.workers && key in w.workers[key.owner].replies { CommitConserves(w, key); }
    case Settle(key) =>
      var f := Find(w.calls, key);
      if f.Some? && w.calls[f.value].status.Committed? { SettleConserves(w, f.value); }
    case _ => OutsideConserves(w, e);
  }

  /** Over every interleaving of reserve, begin, re-prime, commit, reconcile, abandon, convert,
      preflight, crash, day change and operator action: each run's reserved column is exactly
      the sum its rows hold, its spent column exactly what they settled, the run limit caps the
      reserved column, and every reservation is settled at most once. */
  lemma {:induction false} EveryRunConserves(w: World, es: seq<Event>)
    requires Conserved(w)
    ensures Conserved(Exec(w, es))
    decreases |es|
  {
    if es != [] {
      StepConserves(w, es[0]);
      EveryRunConserves(Step(w, es[0]), es[1..]);
    }
  }
}
