/** The two budget guards: a stopped run or a killed fleet takes nothing new, and a live run with
    room, on a day with room, is never refused. */
module LedgerGuards {
  import opened Common
  import opened Ledger

  // ----- what a closed run keeps -----------------------------------------------------

  /** The operator stopped the run, or killed the fleet. */
  predicate Closed(w: World, run: nat) {
    w.fleet.killed || (run < |w.runs| && w.runs[run].halted)
  }

  /** Every event of the run of the system finds it closed. */
  predicate StaysClosed(w: World, run: nat, es: seq<Event>)
    decreases |es|
  {
    es == [] || (Closed(w, run) && StaysClosed(Step(w, es[0]), run, es[1..]))
  }

  predicate SameClaim(before: Call, after: Call, run: nat) {
    after.key == before.key && (before.key.owner.run == run ==> after.past.primed == before.past.primed)
  }

  /** The run holds no more than before, none of its rows was reserved for again, and it has no new row. */
  ghost predicate NothingTaken(before: World, after: World, run: nat) {
    && |after.runs| == |before.runs| && (run < |before.runs| ==> after.runs[run].reserved <= before.runs[run].reserved)
    && |after.calls| >= |before.calls|
    && (forall i :: 0 <= i < |before.calls| ==> SameClaim(before.calls[i], after.calls[i], run))
    && (forall i :: |before.calls| <= i < |after.calls| ==> after.calls[i].key.owner.run != run)
  }

  lemma NothingTakenTwice(a: World, b: World, c: World, run: nat)
    requires NothingTaken(a, b, run) && NothingTaken(b, c, run)
    ensures NothingTaken(a, c, run)
  {
    forall i | 0 <= i < |a.calls| ensures SameClaim(a.calls[i], c.calls[i], run) {
      assert SameClaim(a.calls[i], b.calls[i], run) && SameClaim(b.calls[i], c.calls[i], run);
    }
    forall i | |a.calls| <= i < |c.calls| ensures c.calls[i].key.owner.run != run {
      if i < |b.calls| { assert SameClaim(b.calls[i], c.calls[i], run); }
    }
  }

  lemma {:induction false} ConversionTakesNothing(w: World, batch: seq<nat>, run: nat)
    requires Within(batch, w.calls)
    ensures NothingTaken(w, ConvertRows(w, batch), run)
    decreases |batch|
  {
    hide ConvertRow;
    if batch == [] {
      assert NothingTaken(w, w, run);
    } else {
      var next := ConvertRow(w, batch[0]);
      OneConversionTakesNothing(w, batch[0], run);
      ConversionTakesNothing(next, batch[1..], run);
      NothingTakenTwice(w, next, ConvertRows(next, batch[1..]), run);
    }
  }

  lemma OneConversionTakesNothing(w: World, i: nat, run: nat)
    requires i < |w.calls|
    ensures NothingTaken(w, ConvertRow(w, i), run) && |ConvertRow(w, i).calls| == |w.calls|
  {
  }

  lemma StepTakesNothing(w: World, run: nat, e: Event)
    requires Closed(w, run)
    ensures NothingTaken(w, Step(w, e), run)
  {
    hide ConvertRows, StaleRows;
    if e.Convert? && e.owner in w.workers && Within(w.workers[e.owner].batch, w.calls) {
      ConversionTakesNothing(w, w.workers[e.owner].batch, run);
    }
  }

  /** However long a run is stopped or the fleet is killed, and whatever its workers do meanwhile,
      nothing new is reserved for it. */
  lemma {:induction false} ClosedRunTakesNothing(w: World, run: nat, es: seq<Event>)
    requires StaysClosed(w, run, es)
    ensures NothingTaken(w, Exec(w, es), run)
    decreases |es|
  {
    hide Step, Closed;
    if es != [] {
      var next := Step(w, es[0]);
      StepTakesNothing(w, run, es[0]);
      ClosedRunTakesNothing(next, run, es[1..]);
      NothingTakenTwice(w, next, Exec(next, es[1..]), run);
    }
  }

  /** Only the operator who stopped a run opens it again. */
  lemma {:induction false} StoppedStaysClosed(w: World, run: nat, es: seq<Event>)
    requires run < |w.runs| && w.runs[run].halted && SetHalted(run, false) !in es
    ensures StaysClosed(w, run, es)
    decreases |es|
  {
    hide AskStep, CommitStep, Charge, DropStale, StaleRows, ConvertRows, SettleRow;
    if es != [] {
      assert es[0] in es && forall e :: e in es[1..] ==> e in es;
      StepKeepsHalted(w, run, es[0]);
      StoppedStaysClosed(Step(w, es[0]), run, es[1..]);
    }
  }

  lemma {:induction false} ConversionKeepsHalted(w: World, batch: seq<nat>)
    requires Within(batch, w.calls)
    ensures var v := ConvertRows(w, batch);
      && |v.runs| == |w.runs| && v.fleet.killed == w.fleet.killed
      && forall r :: 0 <= r < |w.runs| ==> v.runs[r].halted == w.runs[r].halted
    decreases |batch|
  {
    if batch != [] { ConversionKeepsHalted(ConvertRow(w, batch[0]), batch[1..]); }
  }

  lemma StepKeepsHalted(w: World, run: nat, e: Event)
    ensures run < |w.runs| && w.runs[run].halted && e != SetHalted(run, false) ==>
      run < |Step(w, e).runs| && Step(w, e).runs[run].halted
    ensures w.fleet.killed && e != SetKill(false) ==> Step(w, e).fleet.killed
  {
    hide ConvertRows, StaleRows;
    if e.Convert? && e.owner in w.workers && Within(w.workers[e.owner].batch, w.calls) {
      ConversionKeepsHalted(w, w.workers[e.owner].batch);
    }
  }

  lemma {:induction false} KilledStaysClosed(w: World, run: nat, es: seq<Event>)
    requires w.fleet.killed && SetKill(false) !in es
    ensures StaysClosed(w, run, es)
    decreases |es|
  {
    hide Step;
    if es != [] {
      assert es[0] in es && forall e :: e in es[1..] ==> e in es;
      StepKeepsHalted(w, run, es[0]);
      KilledStaysClosed(Step(w, es[0]), run, es[1..]);
    }
  }

  /** From the commit that stops a run until the one that resumes it, or from the commit that kills the
      fleet until the one that revives it, nothing new is reserved: for that run, or for any. */
  lemma StopTakesEffect(w: World, run: nat, es: seq<Event>)
    ensures run < |w.runs| && SetHalted(run, false) !in es ==>
      var v := Step(w, SetHalted(run, true)); NothingTaken(v, Exec(v, es), run)
    ensures SetKill(false) !in es ==> var v := Step(w, SetKill(true)); NothingTaken(v, Exec(v, es), run)
  {
    hide NothingTaken, Exec;
    var stopped, killed := Step(w, SetHalted(run, true)), Step(w, SetKill(true));
    if run < |w.runs| && SetHalted(run, false) !in es {
      StoppedStaysClosed(stopped, run, es);
      ClosedRunTakesNothing(stopped, run, es);
    }
    if SetKill(false) !in es {
      KilledStaysClosed(killed, run, es);
      ClosedRunTakesNothing(killed, run, es);
    }
  }

  // ----- what an open run is granted -------------------------------------------------

  /** A day that is over holds nothing against today's limit. */
  function HeldToday(w: World): nat {
    match w.fleet.day
    case None => 0
    case Some(day) => if day == w.today then w.fleet.reserved else 0
  }

  predicate RoomFor(w: World, run: nat, amount: nat) {
    && !Closed(w, run) && run < |w.runs|
    && amount <= w.runs[run].limit - w.runs[run].reserved && amount <= w.fleet.limit - HeldToday(w)
  }

  predicate IsAttempt(c: Call, key: Key, worst: nat, primed: nat) {
    c.key == key && c.status.Pending? && c.reserved == worst && c.billed == 0 && c.past.primed == primed
  }

  /** Both ledgers hold the amount, its row is pending under it, and the request is out; no other
      row, run or worker changed. */
  ghost predicate Granted(w: World, v: World, key: Key, worst: nat) {
    var run := key.owner.run;
    var at := Find(w.calls, key);
    && run < |w.runs| && v.runs == w.runs[run := w.runs[run].(reserved := w.runs[run].reserved + worst)]
    && v.fleet == w.fleet.(day := Some(w.today), reserved := HeldToday(w) + worst)
    && key.owner in w.workers && key.owner in v.workers && key in v.workers[key.owner].inFlight
    && (forall o :: o in v.workers ==> o in w.workers && (o != key.owner ==> v.workers[o] == w.workers[o]))
    && match at
       case None =>
         |v.calls| == |w.calls| + 1 && v.calls[..|w.calls|] == w.calls && IsAttempt(v.calls[|w.calls|], key, worst, worst)
       case Some(i) =>
         i < |v.calls| && v.calls == w.calls[i := v.calls[i]] && IsAttempt(v.calls[i], key, worst, w.calls[i].past.primed + worst)
  }

  /** An ask under a new or an abandoned key is granted exactly when the run is live, the fleet is
      not killed and both ledgers have room; refused, it changes nothing. */
  lemma AskIsGrantedExactly(w: World, key: Key, worst: nat)
    requires key.owner in w.workers && w.workers[key.owner].batch == []
    requires var at := Find(w.calls, key); at.Some? ==> w.calls[at.value].status.Abandoned?
    ensures var v := Step(w, Ask(key, worst)); if RoomFor(w, key.owner.run, worst) then Granted(w, v, key, worst) else v == w
  {
    var v := Step(w, Ask(key, worst));
    var at := Find(w.calls, key);
    if at.Some? && RoomFor(w, key.owner.run, worst) {
      assert v.calls == w.calls[at.value := v.calls[at.value]];
    }
  }

  /** A preflight gives back what it took: it only rolls the day ledger over, and only with room. */
  lemma PreflightTakesNothing(w: World, run: nat, worst: nat)
    ensures Step(w, Preflight(run, worst)) ==
      if RoomFor(w, run, worst) then w.(fleet := w.fleet.(day := Some(w.today), reserved := HeldToday(w))) else w
  {
    if RoomFor(w, run, worst) {
      assert w.runs[run := w.runs[run]] == w.runs;
    }
  }

  // ----- days and crashes ------------------------------------------------------------

  predicate DayIsPast(w: World) {
    w.fleet.day.Some? ==> w.fleet.day.value <= w.today
  }

  lemma {:induction false} ConversionKeepsDay(w: World, batch: seq<nat>)
    requires Within(batch, w.calls)
    ensures ConvertRows(w, batch).fleet == w.fleet
    decreases |batch|
  {
    if batch != [] { ConversionKeepsDay(ConvertRow(w, batch[0]), batch[1..]); }
  }

  lemma StepKeepsDayPast(w: World, e: Event)
    requires DayIsPast(w)
    ensures DayIsPast(Step(w, e))
  {
    hide ConvertRows, StaleRows;
    if e.Convert? && e.owner in w.workers && Within(w.workers[e.owner].batch, w.calls) {
      ConversionKeepsDay(w, w.workers[e.owner].batch);
    }
  }

  /** After any run, a new day holds nothing, and from then on the limit set last is the one that counts. */
  lemma {:induction false} NewDayHoldsNothing(w: World, es: seq<Event>, limit: nat)
    requires DayIsPast(w)
    ensures DayIsPast(Exec(w, es)) && HeldToday(Step(Exec(w, es), NewDay)) == 0
    ensures var v := Step(Step(Exec(w, es), NewDay), SetDayLimit(limit)); HeldToday(v) == 0 && v.fleet.limit == limit
    decreases |es|
  {
    hide AskStep, CommitStep, Charge, DropStale, StaleRows, ConvertRows, SettleRow;
    if es != [] {
      StepKeepsDayPast(w, es[0]);
      NewDayHoldsNothing(Step(w, es[0]), es[1..], limit);
    }
  }

  /** A crash loses the worker's replies: none of its keys is committed before it starts again. */
  lemma CrashLosesReplies(w: World, o: Owner, key: Key, reply: Reply)
    requires key.owner == o
    ensures var v := Step(w, Crash(o));
      && v.calls == w.calls && v.runs == w.runs && v.fleet == w.fleet
      && Step(v, Answer(key, reply)) == v && Step(v, Commit(key)) == v
  {
  }
}
