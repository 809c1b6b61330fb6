/** The paid-call ledger: rows of llm_calls, the per-run and the fleet-day budget
    columns, and the worker memory a crash wipes out. Every event is one committed
    transaction (or one provider reply); a disabled event changes nothing, as an
    UPDATE that matches no row does. Money is in exact units of 1e-4 USD. */
module Ledger {
  import opened Common

  /** The job that owns a call: one Pro of one run. */
  datatype Owner = Owner(run: nat, pro: string)

  /** call_key: run, Pro and the place in the pipeline that asks. */
  datatype Key = Key(owner: Owner, place: string)

  datatype Status = Pending | Committed | Reconciled | Abandoned

  /** History of one row that no column stores: everything ever reserved for it, what was
      abandoned but not yet converted, what was converted, and what the provider charged. */
  datatype Past = Past(primed: nat, owed: nat, converted: nat, paid: nat)

  /** One llm_calls row. `billed` is what the provider charged for the current attempt. */
  datatype Call = Call(key: Key, status: Status, reserved: nat, actual: nat, text: string, billed: nat, past: Past)

  /** The budget columns of a run; `halted` is status in ('stopped', 'failed'). */
  datatype Run = Run(halted: bool, limit: nat, reserved: nat, spent: nat)

  datatype Fleet = Fleet(killed: bool, day: Option<nat>, limit: nat, reserved: nat)

  datatype Reply = Reply(text: string, cost: nat)

  /** One process working for an owner. `resolved`: it ran _resolve_abandoned_calls on entry;
      `asked`: the keys it has asked since; `batch`: abandoned rows it still has to convert. */
  datatype Worker = Worker(resolved: bool, asked: set<Key>, inFlight: set<Key>, replies: map<Key, Reply>, batch: seq<nat>)

  /** `limitHigh` is the highest day limit ever configured (the limit is env-owned). */
  datatype World = World(runs: seq<Run>, calls: seq<Call>, fleet: Fleet, today: nat,
                         workers: map<Owner, Worker>, limitHigh: nat)

  datatype Event =
    | NewDay
    | SetKill(killed: bool)
    | SetDayLimit(limit: nat)
    | SetHalted(run: nat, halted: bool)
    | Preflight(run: nat, worst: nat)
    | Start(owner: Owner)
    | Abandon(owner: Owner)
    | Convert(owner: Owner)
    | Crash(owner: Owner)
    | Ask(key: Key, worst: nat)
    | Answer(key: Key, reply: Reply)
    | Lost(key: Key, cost: nat)
    | Commit(key: Key)
    | Settle(key: Key)

  // ----- lookups ---------------------------------------------------------------------

  /** SELECT ... WHERE call_key = key. */
  function Find(calls: seq<Call>, key: Key): (r: Option<nat>)
    ensures r.Some? ==> r.value < |calls| && calls[r.value].key == key
    ensures r.None? ==> forall i :: 0 <= i < |calls| ==> calls[i].key != key
  {
    if calls == [] then None
    else if calls[|calls| - 1].key == key then Some(|calls| - 1)
    else Find(calls[..|calls| - 1], key)
  }

  // ----- the two budgets -------------------------------------------------------------

  /** What today's day ledger holds, a stale day counting as zero. */
  function DayUsed(f: Fleet, today: nat): nat {
    if f.day == Some(today) then f.reserved else 0
  }

  predicate RunAdmits(w: World, run: nat, amount: nat) {
    run < |w.runs| && !w.runs[run].halted && w.runs[run].reserved + amount <= w.runs[run].limit && !w.fleet.killed
  }

  predicate DayAdmits(w: World, amount: nat) {
    !w.fleet.killed && DayUsed(w.fleet, w.today) + amount <= w.fleet.limit
  }

  predicate Admits(w: World, run: nat, amount: nat) {
    RunAdmits(w, run, amount) && DayAdmits(w, amount)
  }

  function Hold(w: World, run: nat, amount: nat): World
    requires run < |w.runs|
  {
    var r := w.runs[run];
    w.(runs := w.runs[run := r.(reserved := r.reserved + amount)],
       fleet := w.fleet.(day := Some(w.today), reserved := DayUsed(w.fleet, w.today) + amount))
  }

  function SettleDay(f: Fleet, today: nat, reserved: nat, actual: nat): Fleet {
    if f.day == Some(today) then f.(reserved := Clamp(f.reserved - (reserved - actual))) else f
  }

  function SettleRun(r: Run, reserved: nat, actual: nat): Run {
    r.(reserved := Clamp(r.reserved - reserved), spent := r.spent + actual)
  }

  /** reconcile_cost. */
  function ReconcileCost(w: World, run: nat, reserved: nat, actual: nat): World {
    if run < |w.runs| then
      w.(runs := w.runs[run := SettleRun(w.runs[run], reserved, actual)],
         fleet := SettleDay(w.fleet, w.today, reserved, actual))
    else w.(fleet := SettleDay(w.fleet, w.today, reserved, actual))
  }

  /** convert_reservation_to_spend. */
  function ConvertCost(w: World, run: nat, reserved: nat): World {
    if run < |w.runs| then w.(runs := w.runs[run := SettleRun(w.runs[run], reserved, reserved)]) else w
  }

  // ----- row transitions -------------------------------------------------------------

  function Fresh(key: Key, worst: nat): Call {
    Call(key, Pending, worst, 0, "", 0, Past(worst, 0, 0, 0))
  }

  /** A new attempt at an abandoned key, under a new reservation. */
  function Reprimed(c: Call, worst: nat): Call {
    c.(status := Pending, reserved := worst, billed := 0, past := c.past.(primed := c.past.primed + worst))
  }

  function Charged(c: Call, cost: nat): Call {
    c.(billed := c.billed + cost, past := c.past.(paid := c.past.paid + cost))
  }

  function Dropped(c: Call): Call {
    c.(status := Abandoned, past := c.past.(owed := c.past.owed + c.reserved))
  }

  function Converted(c: Call): Call {
    c.(past := c.past.(owed := Clamp(c.past.owed - c.reserved), converted := c.past.converted + c.reserved))
  }

  predicate Stale(c: Call, o: Owner) {
    c.status.Pending? && c.key.owner == o
  }

  function DropStale(calls: seq<Call>, o: Owner): (r: seq<Call>)
    ensures |r| == |calls|
    ensures forall i :: 0 <= i < |calls| ==> r[i] == if Stale(calls[i], o) then Dropped(calls[i]) else calls[i]
  {
    if calls == [] then []
    else
      var c := calls[|calls| - 1];
      DropStale(calls[..|calls| - 1], o) + [if Stale(c, o) then Dropped(c) else c]
  }

  function StaleRows(calls: seq<Call>, o: Owner): seq<nat> {
    if calls == [] then []
    else
      var n := |calls| - 1;
      StaleRows(calls[..n], o) + if Stale(calls[n], o) then [n] else []
  }

  ghost predicate Increasing(r: seq<nat>) {
    forall i, j :: 0 <= i < j < |r| ==> r[i] < r[j]
  }

  /** The batch names exactly the stale rows, each once. */
  lemma {:induction false} StaleRowsAre(calls: seq<Call>, o: Owner)
    ensures forall i: nat :: i in StaleRows(calls, o) <==> i < |calls| && Stale(calls[i], o)
    ensures Increasing(StaleRows(calls, o))
  {
    if calls != [] {
      var n := |calls| - 1;
      StaleRowsAre(calls[..n], o);
      var rest := StaleRows(calls[..n], o);
      assert forall j :: 0 <= j < |rest| ==> rest[j] in rest;
      assert Increasing(rest + [n]) && rest + [] == rest;
    }
  }

  /** The conversion of one abandoned row, and of a batch of them. */
  function ConvertRow(w: World, i: nat): World
    requires i < |w.calls|
  {
    ConvertCost(w, w.calls[i].key.owner.run, w.calls[i].reserved).(calls := w.calls[i := Converted(w.calls[i])])
  }

  predicate Within(batch: seq<nat>, calls: seq<Call>) {
    forall j :: 0 <= j < |batch| ==> batch[j] < |calls|
  }

  function ConvertRows(w: World, batch: seq<nat>): (r: World)
    requires Within(batch, w.calls)
    ensures |r.calls| == |w.calls| && r.workers == w.workers && r.today == w.today && r.limitHigh == w.limitHigh
    decreases |batch|
  {
    if batch == [] then w else ConvertRows(ConvertRow(w, batch[0]), batch[1..])
  }

  // ----- the step function -----------------------------------------------------------

  function Remember(w: World, o: Owner, m: Worker): World {
    w.(workers := w.workers[o := m])
  }

  /** The request leaves for the provider. */
  function Send(w: World, key: Key): World
    requires key.owner in w.workers
  {
    var m := w.workers[key.owner];
    Remember(w, key.owner, m.(asked := m.asked + {key}, inFlight := m.inFlight + {key}))
  }

  function SettleRow(w: World, i: nat): World
    requires i < |w.calls|
  {
    var c := w.calls[i];
    ReconcileCost(w, c.key.owner.run, c.reserved, c.actual).(calls := w.calls[i := c.(status := Reconciled)])
  }

  /** MeteredLLM.complete up to the provider call. */
  function AskStep(w: World, key: Key, worst: nat): World
    requires key.owner in w.workers
  {
    match Find(w.calls, key)
    case None =>
      if Admits(w, key.owner.run, worst) then
        Send(Hold(w, key.owner.run, worst).(calls := w.calls + [Fresh(key, worst)]), key)
      else w
    case Some(i) =>
      match w.calls[i].status
      case Committed => SettleRow(w, i)
      case Reconciled => w
      case Abandoned =>
        if Admits(w, key.owner.run, worst) then
          Send(Hold(w, key.owner.run, worst).(calls := w.calls[i := Reprimed(w.calls[i], worst)]), key)
        else w
      case Pending => Send(w, key)
  }

  function Charge(w: World, key: Key, cost: nat): World {
    match Find(w.calls, key)
    case None => w
    case Some(i) => w.(calls := w.calls[i := Charged(w.calls[i], cost)])
  }

  function CommitStep(w: World, key: Key): World
    requires key.owner in w.workers && key in w.workers[key.owner].replies
  {
    var m := w.workers[key.owner];
    var reply := m.replies[key];
    var w1 := Remember(w, key.owner, m.(replies := m.replies - {key}));
    match Find(w.calls, key)
    case None => w1
    case Some(i) =>
      if w.calls[i].status.Pending? then
        w1.(calls := w.calls[i := w.calls[i].(status := Committed, actual := reply.cost, text := reply.text)])
      else w1
  }

  function Step(w: World, e: Event): World {
    match e
    case NewDay => w.(today := w.today + 1)
    case SetKill(k) => w.(fleet := w.fleet.(killed := k))
    case SetDayLimit(l) => w.(fleet := w.fleet.(limit := l), limitHigh := if l > w.limitHigh then l else w.limitHigh)
    case SetHalted(run, h) => if run < |w.runs| then w.(runs := w.runs[run := w.runs[run].(halted := h)]) else w
    case Preflight(run, worst) =>
      if Admits(w, run, worst) then ReconcileCost(Hold(w, run, worst), run, worst, 0) else w
    case Start(o) => Remember(w, o, Worker(false, {}, {}, map[], []))
    case Abandon(o) =>
      Remember(w, o, Worker(true, {}, {}, map[], StaleRows(w.calls, o))).(calls := DropStale(w.calls, o))
    case Convert(o) =>
      if o in w.workers && Within(w.workers[o].batch, w.calls) then
        Remember(ConvertRows(w, w.workers[o].batch), o, w.workers[o].(batch := []))
      else w
    case Crash(o) => w.(workers := w.workers - {o})
    case Ask(key, worst) =>
      if key.owner in w.workers && w.workers[key.owner].batch == [] then AskStep(w, key, worst) else w
    case Answer(key, reply) =>
      if key.owner in w.workers && key in w.workers[key.owner].inFlight then
        var m := w.workers[key.owner];
        Remember(Charge(w, key, reply.cost), key.owner,
                 m.(inFlight := m.inFlight - {key}, replies := m.replies[key := reply]))
      else w
    case Lost(key, cost) =>
      if key.owner in w.workers && key in w.workers[key.owner].inFlight then
        var m := w.workers[key.owner];
        Remember(Charge(w, key, cost), key.owner, m.(inFlight := m.inFlight - {key}))
      else w
    case Commit(key) =>
      if key.owner in w.workers && key in w.workers[key.owner].replies then CommitStep(w, key) else w
    case Settle(key) =>
      var f := Find(w.calls, key);
      if f.Some? && w.calls[f.value].status.Committed? then SettleRow(w, f.value) else w
  }

  /** A whole run: any number of committed transactions in any interleaving. Every prefix of
      a run is a run, so a crash between two transactions needs no rule of its own. */
  function Exec(w: World, es: seq<Event>): World
    decreases |es|
  {
    if es == [] then w else Exec(Step(w, es[0]), es[1..])
  }

  // ----- sums over the table ---------------------------------------------------------

  function Total(calls: seq<Call>, f: Call -> nat): nat {
    if calls == [] then 0 else Total(calls[..|calls| - 1], f) + f(calls[|calls| - 1])
  }

  /** A run's claim on its reserved column through one row, and on its spent column. */
  function HeldOf(run: nat): Call -> nat {
    (c: Call) => if c.key.owner.run == run
      then c.past.owed + (if c.status.Pending? || c.status.Committed? then c.reserved else 0) else 0
  }

  function SpentOf(run: nat): Call -> nat {
    (c: Call) => if c.key.owner.run == run
      then c.past.converted + (if c.status.Reconciled? then c.actual else 0) else 0
  }

  function PaidOf(run: nat): Call -> nat {
    (c: Call) => if c.key.owner.run == run then c.past.paid else 0
  }

  function TotalBudget(runs: seq<Run>): nat {
    if runs == [] then 0
    else TotalBudget(runs[..|runs| - 1]) + runs[|runs| - 1].reserved + runs[|runs| - 1].spent
  }

  lemma {:induction false} TotalUpdate(calls: seq<Call>, i: nat, c: Call, f: Call -> nat)
    requires i < |calls|
    ensures Total(calls[i := c], f) + f(calls[i]) == Total(calls, f) + f(c)
    ensures f(calls[i]) <= Total(calls, f)
  {
    var n := |calls| - 1;
    if i == n {
      assert calls[i := c][..n] == calls[..n];
    } else {
      assert calls[i := c][..n] == calls[..n][i := c];
      TotalUpdate(calls[..n], i, c, f);
    }
  }

  lemma TotalAppend(calls: seq<Call>, c: Call, f: Call -> nat)
    ensures Total(calls + [c], f) == Total(calls, f) + f(c)
  {
    assert (calls + [c])[..|calls|] == calls;
  }

  lemma {:induction false} TotalEqual(a: seq<Call>, b: seq<Call>, f: Call -> nat)
    requires |a| == |b| && forall i :: 0 <= i < |a| ==> f(a[i]) == f(b[i])
    ensures Total(a, f) == Total(b, f)
  {
    if a != [] {
      var n := |a| - 1;
      TotalEqual(a[..n], b[..n], f);
    }
  }

  lemma {:induction false} TotalBound(calls: seq<Call>, f: Call -> nat, g: Call -> nat, h: Call -> nat)
    requires forall i :: 0 <= i < |calls| ==> f(calls[i]) <= g(calls[i]) + h(calls[i])
    ensures Total(calls, f) <= Total(calls, g) + Total(calls, h)
  {
    if calls != [] {
      TotalBound(calls[..|calls| - 1], f, g, h);
    }
  }

  lemma {:induction false} BudgetUpdate(runs: seq<Run>, i: nat, r: Run)
    requires i < |runs|
    ensures TotalBudget(runs[i := r]) + runs[i].reserved + runs[i].spent == TotalBudget(runs) + r.reserved + r.spent
  {
    var n := |runs| - 1;
    if i == n {
      assert runs[i := r][..n] == runs[..n];
    } else {
      assert runs[i := r][..n] == runs[..n][i := r];
      BudgetUpdate(runs[..n], i, r);
    }
  }
}
