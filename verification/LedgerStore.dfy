/** The paid-call path as the program performs it: statements that update table rows in place,
    one commit at a time. Each method's effect is a sequence of events of the ledger. */
module LedgerStore {
  import opened Common
  import opened Ledger
  import LedgerGuards

  /** What the provider does with one request: a reply, or an error after charging `cost`. */
  datatype Outcome = Replied(reply: Reply) | Failed(cost: nat)

  datatype Result = Response(text: string, cost: nat) | BudgetExhausted | ProviderError

  /** The row a completed key already has, if its response was recorded. */
  function RecordedRow(w: World, key: Key): Option<nat> {
    var f := Find(w.calls, key);
    if f.Some? && (w.calls[f.value].status.Committed? || w.calls[f.value].status.Reconciled?) then f else None
  }

  /** A request goes out unless the key is recorded or a new reservation is refused. */
  predicate Sends(w: World, key: Key, worst: nat) {
    match Find(w.calls, key)
    case None => Admits(w, key.owner.run, worst)
    case Some(i) => w.calls[i].status.Pending? || (w.calls[i].status.Abandoned? && Admits(w, key.owner.run, worst))
  }

  /** The commits one call of MeteredLLM.complete makes, in order. */
  function CompleteEvents(w: World, key: Key, worst: nat, outcome: Outcome): seq<Event> {
    if !Sends(w, key, worst) then [Ask(key, worst)]
    else match outcome
      case Replied(reply) => [Ask(key, worst), Answer(key, reply), Commit(key), Settle(key)]
      case Failed(cost) => [Ask(key, worst), Lost(key, cost)]
  }

  class PaidCalls {
    var runs: seq<Run>
    var calls: seq<Call>
    var fleet: Fleet
    var today: nat
    ghost var workers: map<Owner, Worker>
    ghost var limitHigh: nat

    ghost function World(): World
      reads this
    {
      Ledger.World(runs, calls, fleet, today, workers, limitHigh)
    }

    /** The newest row under a key: SELECT ... WHERE call_key = key. */
    method Lookup(key: Key) returns (r: Option<nat>)
      ensures r == Find(calls, key)
    {
      r := None;
      for i := 0 to |calls|
        invariant r == Find(calls[..i], key)
      {
        assert calls[..i + 1][..i] == calls[..i];
        if calls[i].key == key { r := Some(i); }
      }
      assert calls[..|calls|] == calls;
    }

    /** reserve_cost: both budgets or neither. */
    method ReserveCost(run: nat, amount: nat) returns (ok: bool)
      modifies this
      ensures ok <==> LedgerGuards.RoomFor(old(World()), run, amount)
      ensures ok == Admits(old(World()), run, amount)
      ensures World() == if ok then Hold(old(World()), run, amount) else old(World())
    {
      var savepoint := runs;
      if !(run < |runs| && !runs[run].halted && runs[run].reserved + amount <= runs[run].limit && !fleet.killed) {
        return false;
      }
      runs := runs[run := runs[run].(reserved := runs[run].reserved + amount)];
      var used := if fleet.day == Some(today) then fleet.reserved else 0;
      if fleet.killed || used + amount > fleet.limit {
        runs := savepoint;
        return false;
      }
      fleet := fleet.(day := Some(today), reserved := used + amount);
      return true;
    }

    /** reconcile_cost and mark_reconciled, one commit. */
    method Reconcile(i: nat)
      requires i < |calls|
      modifies this
      ensures World() == SettleRow(old(World()), i)
    {
      var c := calls[i];
      var run := c.key.owner.run;
      if run < |runs| {
        var r := runs[run];
        runs := runs[run := r.(reserved := Clamp(r.reserved - c.reserved), spent := r.spent + c.actual)];
      }
      if fleet.day == Some(today) {
        fleet := fleet.(reserved := Clamp(fleet.reserved - (c.reserved - c.actual)));
      }
      calls := calls[i := c.(status := Reconciled)];
    }

    /** commit_result: never resurrects a row someone abandoned. */
    method CommitResult(key: Key, i: nat, reply: Reply) returns (ok: bool)
      requires Find(calls, key) == Some(i)
      requires key.owner in workers && key in workers[key.owner].replies && workers[key.owner].replies[key] == reply
      modifies this
      ensures World() == CommitStep(old(World()), key)
      ensures ok == old(calls[i].status.Pending?)
    {
      workers := workers[key.owner := workers[key.owner].(replies := workers[key.owner].replies - {key})];
      if !calls[i].status.Pending? {
        return false;
      }
      calls := calls[i := calls[i].(status := Committed, actual := reply.cost, text := reply.text)];
      return true;
    }

    /** abandon_stale, run on entry to a paid stage. */
    method AbandonStale(o: Owner) returns (rows: seq<nat>)
      modifies this
      ensures World() == Step(old(World()), Abandon(o))
      ensures rows == StaleRows(old(calls), o) == workers[o].batch && Within(rows, calls)
    {
      RowsWithin(calls, o);
      rows := DropPending(o);
      workers := workers[o := Worker(true, {}, {}, map[], rows)];
    }

    method DropPending(o: Owner) returns (rows: seq<nat>)
      modifies `calls
      ensures calls == DropStale(old(calls), o) && rows == StaleRows(old(calls), o)
    {
      ghost var before := calls;
      rows := [];
      for i := 0 to |calls|
        modifies `calls
        invariant |calls| == |before| && rows == StaleRows(before[..i], o)
        invariant forall k :: 0 <= k < |calls| ==>
                    calls[k] == if k < i && Stale(before[k], o) then Dropped(before[k]) else before[k]
      {
        assert before[..i + 1][..i] == before[..i];
        if Stale(calls[i], o) {
          rows := rows + [i];
          calls := calls[i := Dropped(calls[i])];
        }
      }
      assert before[..|calls|] == before;
    }

    /** The conversions of the rows just abandoned, in one commit. */
    method ConvertBatch(o: Owner, rows: seq<nat>)
      requires o in workers && workers[o].batch == rows && Within(rows, calls)
      modifies this
      ensures World() == Step(old(World()), Convert(o))
    {
      ghost var w1 := World();
      for j := 0 to |rows|
        invariant |calls| == |w1.calls| && workers == w1.workers
        invariant Within(rows[j..], calls)
        invariant ConvertRows(w1, rows) == ConvertRows(World(), rows[j..])
      {
        assert rows[j..][0] == rows[j] && rows[j..][1..] == rows[j + 1..];
        ConvertOne(rows[j]);
      }
      workers := workers[o := workers[o].(batch := [])];
    }

    method ConvertOne(i: nat)
      requires i < |calls|
      modifies this
      ensures World() == ConvertRow(old(World()), i)
    {
      var c := calls[i];
      var run := c.key.owner.run;
      if run < |runs| {
        var r := runs[run];
        runs := runs[run := r.(reserved := Clamp(r.reserved - c.reserved), spent := r.spent + c.reserved)];
      }
      calls := calls[i := Converted(c)];
    }

    /** _resolve_abandoned_calls: two commits, abandon then convert. */
    method ResolveAbandoned(o: Owner)
      modifies this
      ensures World() == Exec(old(World()), [Abandon(o), Convert(o)])
    {
      ghost var w0 := World();
      var rows := AbandonStale(o);
      ghost var w1 := World();
      if rows != [] {
        ConvertBatch(o, rows);
      }
      assert World() == Step(w1, Convert(o));
      ExecStep(w0, Abandon(o), [Convert(o)]);
      ExecStep(w1, Convert(o), []);
    }

    /** MeteredLLM.complete. A recorded key is answered from its row with no provider call;
        otherwise the worst case is reserved with the row, and the provider's reply is
        committed and then reconciled. A provider error leaves the row pending. */
    method Complete(key: Key, worst: nat, outcome: Outcome) returns (r: Result)
      requires key.owner in workers && workers[key.owner].batch == []
      modifies this
      ensures World() == Exec(old(World()), CompleteEvents(old(World()), key, worst, outcome))
      ensures var row := RecordedRow(old(World()), key);
        if row.Some? then r == Response(old(calls)[row.value].text, old(calls)[row.value].actual)
        else if !Sends(old(World()), key, worst) then r == BudgetExhausted
        else r == if outcome.Replied? then Response(outcome.reply.text, outcome.reply.cost) else ProviderError
    {
      ghost var w0 := World();
      var row := Lookup(key);
      if row.Some? && (calls[row.value].status.Committed? || calls[row.value].status.Reconciled?) {
        var c := calls[row.value];
        if c.status.Committed? {
          Reconcile(row.value);
        }
        ExecStep(w0, Ask(key, worst), []);
        return Response(c.text, c.actual);
      }
      if row.None? || calls[row.value].status.Abandoned? {
        var ok := ReserveCost(key.owner.run, worst);
        if !ok {
          ExecStep(w0, Ask(key, worst), []);
          return BudgetExhausted;
        }
        if row.None? {
          calls := calls + [Fresh(key, worst)];
          row := Some(|calls| - 1);
        } else {
          calls := calls[row.value := Reprimed(calls[row.value], worst)];
        }
      }
      var m := workers[key.owner];
      workers := workers[key.owner := m.(asked := m.asked + {key}, inFlight := m.inFlight + {key})];
      ghost var w1 := World();
      assert w1 == Step(w0, Ask(key, worst));
      AskFinds(w0, key, worst);
      r := Dispatch(key, row.value, outcome);
      match outcome
      case Replied(reply) => ExecStep(w0, Ask(key, worst), [Answer(key, reply), Commit(key), Settle(key)]);
      case Failed(cost) => ExecStep(w0, Ask(key, worst), [Lost(key, cost)]);
    }

    /** The provider call and what follows it. */
    method Dispatch(key: Key, i: nat, outcome: Outcome) returns (r: Result)
      requires Find(calls, key) == Some(i) && calls[i].status.Pending?
      requires key.owner in workers && key in workers[key.owner].inFlight
      modifies this
      ensures World() == Exec(old(World()), match outcome
        case Replied(reply) => [Answer(key, reply), Commit(key), Settle(key)]
        case Failed(cost) => [Lost(key, cost)])
      ensures r == if outcome.Replied? then Response(outcome.reply.text, outcome.reply.cost) else ProviderError
    {
      ghost var w1 := World();
      var m := workers[key.owner];
      match outcome
      case Failed(cost) =>
        workers := workers[key.owner := m.(inFlight := m.inFlight - {key})];
        calls := calls[i := Charged(calls[i], cost)];
        ExecStep(w1, Lost(key, cost), []);
        r := ProviderError;
      case Replied(reply) =>
        workers := workers[key.owner := m.(inFlight := m.inFlight - {key}, replies := m.replies[key := reply])];
        calls := calls[i := Charged(calls[i], reply.cost)];
        FindSame(w1.calls, calls, key);
        ExecStep(w1, Answer(key, reply), [Commit(key), Settle(key)]);
        Record(key, i, reply);
        r := Response(reply.text, reply.cost);
    }

    /** Commit the reply, then reconcile the row it committed. */
    method Record(key: Key, i: nat, reply: Reply)
      requires Find(calls, key) == Some(i) && calls[i].status.Pending?
      requires key.owner in workers && key in workers[key.owner].replies && workers[key.owner].replies[key] == reply
      modifies this
      ensures World() == Exec(old(World()), [Commit(key), Settle(key)])
    {
      ghost var w2 := World();
      var ok := CommitResult(key, i, reply);
      ghost var w3 := World();
      FindSame(w2.calls, calls, key);
      if ok {
        Reconcile(i);
      }
      ExecStep(w2, Commit(key), [Settle(key)]);
      ExecStep(w3, Settle(key), []);
    }
  }

  lemma RowsWithin(calls: seq<Call>, o: Owner)
    ensures Within(StaleRows(calls, o), calls)
  {
  }

  lemma ExecStep(w: World, e: Event, es: seq<Event>)
    ensures Exec(w, [e] + es) == Exec(Step(w, e), es)
    ensures Exec(w, []) == w && [e] + [] == [e]
  {
  }

  lemma {:induction false} FindSame(a: seq<Call>, b: seq<Call>, key: Key)
    requires |a| == |b| && forall i :: 0 <= i < |a| ==> a[i].key == b[i].key
    ensures Find(a, key) == Find(b, key)
  {
    if a != [] { FindSame(a[..|a| - 1], b[..|b| - 1], key); }
  }

  lemma AskFinds(w: World, key: Key, worst: nat)
    requires key.owner in w.workers && Sends(w, key, worst)
    ensures var v := AskStep(w, key, worst);
      && Find(v.calls, key) == (if Find(w.calls, key).Some? then Find(w.calls, key) else Some(|w.calls|))
      && v.calls[Find(v.calls, key).value].status.Pending?
  {
    var f := Find(w.calls, key);
    if f.Some? {
      FindSame(w.calls, AskStep(w, key, worst).calls, key);
    }
  }
}
