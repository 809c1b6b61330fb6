/** What one paid call comes to in the books: an answered call is settled and holds nothing, a failed
    one keeps its hold, and a recorded one is settled before it is read. */
module LedgerCalls {
  import opened Common
  import opened Ledger
  import opened LedgerProofs
  import opened LedgerCover
  import opened LedgerStore
  import opened LedgerReplay
  import opened LedgerGuards

  predicate IsPending(calls: seq<Call>, key: Key) {
    var at := Find(calls, key);
    at.Some? && calls[at.value].status.Pending?
  }

  /** What the key's row holds of its run's budget by an attempt that is still open. */
  function OpenHold(w: World, key: Key): nat {
    if IsPending(w.calls, key) then w.calls[Find(w.calls, key).value].reserved else 0
  }

  // ----- the request -----------------------------------------------------------------

  /** A request that goes out is for a pending row; it holds the worst case, or what a crashed
      attempt still held. */
  lemma SentIsHeld(w: World, key: Key, worst: nat)
    requires Ready(w, key.owner) && Sends(w, key, worst)
    ensures var v := Step(w, Ask(key, worst)); var run := key.owner.run; var again := IsPending(w.calls, key);
      && Ready(v, key.owner) && key in v.workers[key.owner].inFlight && IsPending(v.calls, key) && v.today == w.today
      && OpenHold(v, key) == (if again then OpenHold(w, key) else worst)
      && (again ==> v.runs == w.runs && v.fleet == w.fleet)
      && (!again ==>
            && run < |w.runs| && v.runs == w.runs[run := w.runs[run].(reserved := w.runs[run].reserved + worst)]
            && v.fleet == w.fleet.(day := Some(w.today), reserved := HeldToday(w) + worst))
  {
    var at := Find(w.calls, key);
    AskSends(w, key, worst);
    if !IsPending(w.calls, key) {
      AskIsGrantedExactly(w, key, worst);
      if at.Some? { FindUpdate(w.calls, at.value, Reprimed(w.calls[at.value], worst), key); }
      else { FindAppend(w.calls, Fresh(key, worst), key); }
    }
  }

  // ----- the reply -------------------------------------------------------------------

  /** The row after its reply was committed and reconciled. */
  function Answered(c: Call, reply: Reply): Call {
    Charged(c, reply.cost).(status := Reconciled, actual := reply.cost, text := reply.text)
  }

  lemma ReplyIsRecorded(w: World, key: Key, reply: Reply)
    requires Ready(w, key.owner) && key in w.workers[key.owner].inFlight && IsPending(w.calls, key)
    ensures var i := Find(w.calls, key).value; var v := Exec(w, [Answer(key, reply), Commit(key)]);
      && v.calls == w.calls[i := Answered(w.calls[i], reply).(status := Committed)]
      && Find(v.calls, key) == Some(i) && v.runs == w.runs && v.fleet == w.fleet && v.today == w.today
  {
    var i := Find(w.calls, key).value;
    var w1 := Step(w, Answer(key, reply));
    ExecTwo(w, Answer(key, reply), Commit(key));
    FindUpdate(w.calls, i, Charged(w.calls[i], reply.cost), key);
    var w2 := Step(w1, Commit(key));
    FindUpdate(w.calls, i, Answered(w.calls[i], reply).(status := Committed), key);
    assert w2.calls == w.calls[i := Answered(w.calls[i], reply).(status := Committed)];
  }

  /** Settling a committed row releases its hold and spends its price; the day keeps the price. */
  lemma SettleSpends(w: World, key: Key)
    requires Books(w.runs, w.calls) && Find(w.calls, key).Some? && w.calls[Find(w.calls, key).value].status.Committed?
    ensures var i := Find(w.calls, key).value; var c := w.calls[i]; var v := Step(w, Settle(key)); var run := c.key.owner.run;
      && v.calls == w.calls[i := c.(status := Reconciled)]
      && run < |w.runs| && c.reserved <= w.runs[run].reserved
      && v.runs == w.runs[run := w.runs[run].(reserved := w.runs[run].reserved - c.reserved,
                                              spent := w.runs[run].spent + c.actual)]
      && (w.fleet.day == Some(w.today) && w.fleet.reserved >= c.reserved - c.actual ==>
            v.fleet == w.fleet.(reserved := w.fleet.reserved - (c.reserved - c.actual)))
      && (w.fleet.day != Some(w.today) ==> v.fleet == w.fleet)
  {
    hide Total, HeldOf, SpentOf;
    ClampNeverBites(w, Find(w.calls, key).value);
  }

  ghost predicate SettledAs(calls: seq<Call>, key: Key, reply: Reply) {
    var at := Find(calls, key);
    at.Some? && calls[at.value].status.Reconciled? && calls[at.value].text == reply.text && calls[at.value].actual == reply.cost
  }

  /** An answered call leaves its row reconciled with the reply, its run holding nothing more for it
      than before the call, less what a crashed attempt had held, and the price spent; today's ledger
      keeps the price of a new attempt and nothing of its worst case. */
  lemma AnsweredCallIsSettled(w: World, key: Key, worst: nat, reply: Reply)
    requires Conserved(w) && Ready(w, key.owner) && Sends(w, key, worst)
    ensures var v := Exec(w, CompleteEvents(w, key, worst, Replied(reply))); var run := key.owner.run;
      && SettledAs(v.calls, key, reply)
      && run < |w.runs| == |v.runs|
      && v.runs[run].reserved + OpenHold(w, key) == w.runs[run].reserved
      && v.runs[run].spent == w.runs[run].spent + reply.cost
      && (forall r :: 0 <= r < |w.runs| && r != run ==> v.runs[r] == w.runs[r])
      && (!IsPending(w.calls, key) ==> v.fleet == w.fleet.(day := Some(w.today), reserved := HeldToday(w) + reply.cost))
  {
    hide Conserved, IsPending, Books;
    var w1 := Step(w, Ask(key, worst));
    SentIsHeld(w, key, worst);
    StepConserves(w, Ask(key, worst));
    ReplyIsRecorded(w1, key, reply);
    var w2 := Exec(w1, [Answer(key, reply), Commit(key)]);
    ExecConserves(w1, [Answer(key, reply), Commit(key)]);
    SettleSpends(w2, key);
    ExecStep(w, Ask(key, worst), [Answer(key, reply), Commit(key), Settle(key)]);
    ExecJoin(w1, [Answer(key, reply), Commit(key)], [Settle(key)]);
    ExecStep(w2, Settle(key), []);
    var i := Find(w1.calls, key).value;
    FindUpdate(w2.calls, i, w2.calls[i].(status := Reconciled), key);
    OpenIs(w1, key);
  }

  lemma OpenIs(w: World, key: Key)
    requires IsPending(w.calls, key)
    ensures Find(w.calls, key).Some? && OpenHold(w, key) == w.calls[Find(w.calls, key).value].reserved
    ensures w.calls[Find(w.calls, key).value].key == key
  {
  }

  lemma ExecConserves(w: World, es: seq<Event>)
    requires Conserved(w)
    ensures Conserved(Exec(w, es)) && Books(Exec(w, es).runs, Exec(w, es).calls)
  {
    EveryRunConserves(w, es);
  }

  // ----- a call that is recorded already ----------------------------------------------

  /** Reading a recorded call settles it first, if a crash came between its commit and its
      reconciliation, and changes nothing otherwise. */
  lemma RecordedAskSettles(w: World, key: Key, worst: nat)
    requires Conserved(w) && Ready(w, key.owner) && Find(w.calls, key).Some? && Recorded(w.calls[Find(w.calls, key).value])
    ensures var i := Find(w.calls, key).value; var c := w.calls[i]; var v := Step(w, Ask(key, worst)); var run := key.owner.run;
      && v.calls == w.calls[i := c.(status := Reconciled)] && v.workers == w.workers
      && if c.status.Committed? then
           && run < |w.runs| == |v.runs|
           && v.runs[run].reserved + c.reserved == w.runs[run].reserved && v.runs[run].spent == w.runs[run].spent + c.actual
         else v == w
  {
    hide Total, HeldOf, SpentOf;
    var i := Find(w.calls, key).value;
    if w.calls[i].status.Committed? { SettleSpends(w, key); } else { assert w.calls[i := w.calls[i]] == w.calls; }
  }
}
