/** The ledger under a stage: the recorded rows are the memo that replay reads, so a stage on the
    ledger, however often its process dies and whatever other owners commit in between, records,
    sends and returns what one abstract process does, in steps that conserve the budgets. */
module LedgerReplay {
  import opened Common
  import opened Ledger
  import opened LedgerProofs
  import opened LedgerCover
  import opened LedgerStore
  import Replay

  /** What MeteredLLM.complete answers from the table. */
  function RecordOf(calls: seq<Call>, key: Key): Option<string> {
    var f := Find(calls, key);
    if f.Some? && Recorded(calls[f.value]) then Some(calls[f.value].text) else None
  }

  /** The owner's rows record exactly the memo. */
  ghost predicate Mirrors(calls: seq<Call>, memo: map<Key, string>, o: Owner) {
    forall key: Key :: key.owner == o ==> RecordOf(calls, key) == if key in memo then Some(memo[key]) else None
  }

  function AnswerOf(o: Outcome): Replay.Answer<string> {
    if o.Replied? then Replay.Text(o.reply.text) else Replay.Failure
  }

  function Answers(tape: seq<Outcome>): seq<Replay.Answer<string>> {
    if tape == [] then [] else [AnswerOf(tape[0])] + Answers(tape[1..])
  }

  /** The owner's worker is at work and has converted what it abandoned. */
  predicate Ready(w: World, o: Owner) {
    o in w.workers && w.workers[o].batch == []
  }

  // ----- one call ----------------------------------------------------------------------

  lemma {:induction false} FindUpdate(calls: seq<Call>, i: nat, c: Call, key: Key)
    requires i < |calls| && c.key == calls[i].key
    ensures Find(calls[i := c], key) == Find(calls, key)
  {
    FindSame(calls, calls[i := c], key);
  }

  lemma FindAppend(calls: seq<Call>, c: Call, key: Key)
    ensures Find(calls + [c], key) == if c.key == key then Some(|calls|) else Find(calls, key)
  {
    assert (calls + [c])[..|calls|] == calls;
  }

  /** One row changes: only its own key may read differently. */
  lemma RecordUpdate(calls: seq<Call>, i: nat, c: Call, key: Key)
    requires i < |calls| && c.key == calls[i].key
    ensures RecordOf(calls[i := c], key) ==
      if Find(calls, key) == Some(i) then (if Recorded(c) then Some(c.text) else None) else RecordOf(calls, key)
  {
    FindUpdate(calls, i, c, key);
  }

  /** The first commit of a call may settle or begin a row, and reads the same everywhere. */
  lemma AskReads(w: World, key: Key, worst: nat, other: Key)
    requires Ready(w, key.owner)
    ensures RecordOf(Step(w, Ask(key, worst)).calls, other) == RecordOf(w.calls, other)
  {
    hide ReconcileCost, Hold, Admits;
    var f := Find(w.calls, key);
    if f.None? {
      FindAppend(w.calls, Fresh(key, worst), other);
    } else {
      var i := f.value;
      RecordUpdate(w.calls, i, w.calls[i].(status := Reconciled), other);
      RecordUpdate(w.calls, i, Reprimed(w.calls[i], worst), other);
    }
  }

  /** When it sends, the key's row is pending and the request in flight. */
  lemma AskSends(w: World, key: Key, worst: nat)
    requires Ready(w, key.owner)
    ensures var v := Step(w, Ask(key, worst));
      && Ready(v, key.owner)
      && (Sends(w, key, worst) ==>
            && Find(v.calls, key).Some? && v.calls[Find(v.calls, key).value].status.Pending?
            && key in v.workers[key.owner].inFlight)
  {
    hide Admits;
    if Sends(w, key, worst) { AskFinds(w, key, worst); }
  }

  lemma ChargeReads(w: World, key: Key, cost: nat, other: Key)
    ensures RecordOf(Charge(w, key, cost).calls, other) == RecordOf(w.calls, other)
    ensures Find(Charge(w, key, cost).calls, other) == Find(w.calls, other)
    ensures var f := Find(w.calls, key);
      f.Some? ==> |Charge(w, key, cost).calls| == |w.calls| && Charge(w, key, cost).calls[f.value] == Charged(w.calls[f.value], cost)
  {
    var f := Find(w.calls, key);
    if f.Some? { FindUpdate(w.calls, f.value, Charged(w.calls[f.value], cost), other); }
  }

  lemma AnswerReads(w: World, key: Key, reply: Reply, other: Key)
    requires Ready(w, key.owner) && key in w.workers[key.owner].inFlight
    requires var f := Find(w.calls, key); f.Some? && w.calls[f.value].status.Pending?
    ensures var v := Step(w, Answer(key, reply)); var f := Find(v.calls, key);
      && Ready(v, key.owner) && f.Some? && v.calls[f.value].status.Pending?
      && key in v.workers[key.owner].replies && v.workers[key.owner].replies[key] == reply
      && RecordOf(v.calls, other) == RecordOf(w.calls, other)
  {
    ChargeReads(w, key, reply.cost, other);
    ChargeReads(w, key, reply.cost, key);
  }

  lemma CommitReads(w: World, key: Key, other: Key)
    requires Ready(w, key.owner) && key in w.workers[key.owner].replies
    requires var f := Find(w.calls, key); f.Some? && w.calls[f.value].status.Pending?
    ensures var v := Step(w, Commit(key)); var f := Find(v.calls, key);
      && Ready(v, key.owner) && f.Some? && v.calls[f.value].status.Committed?
      && RecordOf(v.calls, other) == if other == key then Some(w.workers[key.owner].replies[key].text) else RecordOf(w.calls, other)
  {
    var i := Find(w.calls, key).value;
    var reply := w.workers[key.owner].replies[key];
    var committed := w.calls[i].(status := Committed, actual := reply.cost, text := reply.text);
    FindUpdate(w.calls, i, committed, key);
    RecordUpdate(w.calls, i, committed, other);
  }

  lemma SettleReads(w: World, key: Key, other: Key)
    requires Find(w.calls, key).Some? && w.calls[Find(w.calls, key).value].status.Committed?
    ensures var v := Step(w, Settle(key)); v.workers == w.workers && RecordOf(v.calls, other) == RecordOf(w.calls, other)
  {
    var i := Find(w.calls, key).value;
    RecordUpdate(w.calls, i, w.calls[i].(status := Reconciled), other);
  }

  /** The reply is committed and settled: its key reads as it, every other key as before. */
  lemma ReplyReads(w: World, key: Key, reply: Reply, other: Key)
    requires Ready(w, key.owner) && key in w.workers[key.owner].inFlight
    requires var f := Find(w.calls, key); f.Some? && w.calls[f.value].status.Pending?
    ensures var v := Step(Step(Step(w, Answer(key, reply)), Commit(key)), Settle(key));
      Ready(v, key.owner) && RecordOf(v.calls, other) == if other == key then Some(reply.text) else RecordOf(w.calls, other)
  {
    hide Step;
    var w1 := Step(w, Answer(key, reply));
    AnswerReads(w, key, reply, other);
    CommitReads(w1, key, other);
    SettleReads(Step(w1, Commit(key)), key, other);
  }

  /** One call of MeteredLLM.complete does to the table what one step of the abstract process does
      to its memo: a recorded key is answered from its row, a reply is recorded, a provider error
      or a refused reservation records nothing. */
  lemma CompleteReads(w: World, key: Key, worst: nat, outcome: Outcome, other: Key)
    requires Ready(w, key.owner)
    ensures var v := Exec(w, CompleteEvents(w, key, worst, outcome));
      && Ready(v, key.owner)
      && RecordOf(v.calls, other) ==
           if other == key && Sends(w, key, worst) && outcome.Replied? then Some(outcome.reply.text)
           else RecordOf(w.calls, other)
  {
    hide Step;
    var w1 := Step(w, Ask(key, worst));
    AskReads(w, key, worst, other);
    AskSends(w, key, worst);
    if !Sends(w, key, worst) {
      ExecStep(w, Ask(key, worst), []);
      ExecStep(w1, Ask(key, worst), []);
    } else {
      match outcome
      case Replied(reply) =>
        ReplyReads(w1, key, reply, other);
        var w2 := Step(w1, Answer(key, reply));
        var w3 := Step(w2, Commit(key));
        ExecStep(w, Ask(key, worst), [Answer(key, reply), Commit(key), Settle(key)]);
        ExecStep(w1, Answer(key, reply), [Commit(key), Settle(key)]);
        ExecStep(w2, Commit(key), [Settle(key)]);
        ExecStep(w3, Settle(key), []);
        ExecStep(Step(w3, Settle(key)), Settle(key), []);
      case Failed(cost) =>
        LostReads(w1, key, cost, other);
        ExecStep(w, Ask(key, worst), [Lost(key, cost)]);
        ExecStep(w1, Lost(key, cost), []);
        ExecStep(Step(w1, Lost(key, cost)), Lost(key, cost), []);
    }
  }

  lemma LostReads(w: World, key: Key, cost: nat, other: Key)
    requires Ready(w, key.owner)
    ensures var v := Step(w, Lost(key, cost)); Ready(v, key.owner) && RecordOf(v.calls, other) == RecordOf(w.calls, other)
  {
    ChargeReads(w, key, cost, other);
  }

  lemma {:induction false} ConvertRowsRead(w: World, batch: seq<nat>, key: Key)
    requires Within(batch, w.calls)
    ensures RecordOf(ConvertRows(w, batch).calls, key) == RecordOf(w.calls, key)
    decreases |batch|
  {
    if batch != [] {
      var next := ConvertRow(w, batch[0]);
      RecordUpdate(w.calls, batch[0], Converted(w.calls[batch[0]]), key);
      ConvertRowsRead(next, batch[1..], key);
    }
  }

  /** Events that change at most what a row owes. */
  lemma QuietReads(w: World, e: Event, key: Key)
    requires !e.Commit? && !e.Ask? && !e.Answer? && !e.Lost? && !e.Settle?
    ensures RecordOf(Step(w, e).calls, key) == RecordOf(w.calls, key)
  {
    match e
    case Abandon(o) => FindSame(w.calls, DropStale(w.calls, o), key);
    case Convert(o) =>
      if o in w.workers && Within(w.workers[o].batch, w.calls) { ConvertRowsRead(w, w.workers[o].batch, key); }
    case _ =>
  }

  /** Nothing but a commit records: a crash, a lost reply, the resolution of abandoned calls and
      whatever other owners do leave every key reading as it did. */
  lemma OnlyCommitsRecord(w: World, e: Event, key: Key)
    requires !e.Commit?
    ensures RecordOf(Step(w, e).calls, key) == RecordOf(w.calls, key)
  {
    hide ReconcileCost, Hold, Admits, Charge, AskStep, RecordOf, SettleRow, ConvertRows, DropStale;
    match e
    case Ask(k, worst) => if Ready(w, k.owner) { AskReads(w, k, worst, key); }
    case Answer(k, reply) => ChargeReads(w, k, reply.cost, key);
    case Lost(k, cost) => ChargeReads(w, k, cost, key);
    case Settle(k) =>
      var f := Find(w.calls, k);
      if f.Some? && w.calls[f.value].status.Committed? { SettleReads(w, k, key); }
    case _ => QuietReads(w, e, key);
  }

  /** And a commit records under its own key alone. */
  lemma CommitReadsOther(w: World, k: Key, key: Key)
    requires k != key
    ensures RecordOf(Step(w, Commit(k)).calls, key) == RecordOf(w.calls, key)
  {
    if k.owner in w.workers && k in w.workers[k.owner].replies && Find(w.calls, k).Some? {
      var i := Find(w.calls, k).value;
      var reply := w.workers[k.owner].replies[k];
      RecordUpdate(w.calls, i, w.calls[i].(status := Committed, actual := reply.cost, text := reply.text), key);
    }
  }

  /** No reply of the owner is committed in these events. */
  predicate CommitsNone(es: seq<Event>, o: Owner) {
    forall i :: 0 <= i < |es| && es[i].Commit? ==> es[i].key.owner != o
  }

  lemma {:induction false} QuietRunReads(w: World, es: seq<Event>, key: Key)
    requires CommitsNone(es, key.owner)
    ensures RecordOf(Exec(w, es).calls, key) == RecordOf(w.calls, key)
    decreases |es|
  {
    hide Step, RecordOf;
    if es != [] {
      if es[0].Commit? { CommitReadsOther(w, es[0].key, key); } else { OnlyCommitsRecord(w, es[0], key); }
      QuietRunReads(Step(w, es[0]), es[1..], key);
    }
  }

  /** Not a step of the owner's worker. */
  predicate ByOthers(e: Event, o: Owner) {
    match e
    case Start(p) => p != o
    case Abandon(p) => p != o
    case Convert(p) => p != o
    case Crash(p) => p != o
    case Ask(k, _) => k.owner != o
    case Answer(k, _) => k.owner != o
    case Lost(k, _) => k.owner != o
    case Commit(k) => k.owner != o
    case _ => true
  }

  predicate AllByOthers(es: seq<Event>, o: Owner) {
    forall i :: 0 <= i < |es| ==> ByOthers(es[i], o)
  }

  lemma OthersKeepReady(w: World, e: Event, o: Owner)
    requires ByOthers(e, o) && Ready(w, o)
    ensures Ready(Step(w, e), o)
  {
  }

  lemma {:induction false} OthersKeepMirror(w: World, es: seq<Event>, memo: map<Key, string>, o: Owner)
    requires AllByOthers(es, o) && Mirrors(w.calls, memo, o)
    ensures Mirrors(Exec(w, es).calls, memo, o) && (Ready(w, o) ==> Ready(Exec(w, es), o))
    decreases |es|
  {
    hide Step, RecordOf, Ready;
    forall key: Key | key.owner == o ensures RecordOf(Exec(w, es).calls, key) == RecordOf(w.calls, key) {
      assert CommitsNone(es, o);
      QuietRunReads(w, es, key);
    }
    if es != [] && Ready(w, o) {
      OthersKeepReady(w, es[0], o);
      assert Mirrors(Step(w, es[0]).calls, memo, o) by {
        forall key: Key | key.owner == o ensures RecordOf(Step(w, es[0]).calls, key) == RecordOf(w.calls, key) {
          if es[0].Commit? { CommitReadsOther(w, es[0].key, key); } else { OnlyCommitsRecord(w, es[0], key); }
        }
      }
      OthersKeepMirror(Step(w, es[0]), es[1..], memo, o);
    }
  }

  // ----- a whole stage entry -----------------------------------------------------------

  /** The stage asks only in its owner's name. */
  ghost predicate AsksAs<R>(s: Replay.Strategy<Key, string, R>, o: Owner) {
    forall seen :: s(seen).Ask? ==> s(seen).key.owner == o
  }

  /** What other owners commit before the n-th answer of an entry. */
  type Noise = nat -> seq<Event>

  ghost predicate Around(noise: Noise, o: Owner) {
    forall n :: AllByOthers(noise(n), o)
  }

  /** What one entry leaves: its outcome, the table, the keys it sent and the commits that were
      made. A refused reservation ends the entry like a crash. */
  datatype Entry<R> = Entry(outcome: Replay.Outcome<R>, world: World, sent: seq<Key>, events: seq<Event>)

  /** The stage asks key by key through MeteredLLM.complete. */
  ghost function Enter<R>(w: World, s: Replay.Strategy<Key, string, R>, worst: Key -> nat, noise: Noise, tape: seq<Outcome>,
                          seen: seq<Replay.Answer<string>>, fuel: nat): Entry<R>
    decreases fuel
  {
    if fuel == 0 then Entry(Replay.OutOfFuel, w, [], [])
    else match s(seen)
      case Done(r) => Entry(Replay.Finished(r), w, [], [])
      case Ask(key) =>
        var before := noise(|seen|);
        var now := Exec(w, before);
        var recorded := RecordOf(now.calls, key);
        if recorded.None? && (tape == [] || !Sends(now, key, worst(key))) then Entry(Replay.Crashed, now, [], before)
        else
          var events := CompleteEvents(now, key, worst(key), if recorded.Some? then Failed(0) else tape[0]);
          var answer := if recorded.Some? then Replay.Text(recorded.value) else AnswerOf(tape[0]);
          var rest := Enter(Exec(now, events), s, worst, noise, if recorded.Some? then tape else tape[1..], seen + [answer], fuel - 1);
          Entry(rest.outcome, rest.world, (if recorded.Some? then [] else [key]) + rest.sent, before + events + rest.events)
  }

  /** No reservation of the entry is refused. */
  ghost predicate Funded<R>(w: World, s: Replay.Strategy<Key, string, R>, worst: Key -> nat, noise: Noise, tape: seq<Outcome>,
                            seen: seq<Replay.Answer<string>>, fuel: nat)
    decreases fuel
  {
    fuel > 0 && s(seen).Ask? ==>
      var key := s(seen).key;
      var now := Exec(w, noise(|seen|));
      var recorded := RecordOf(now.calls, key);
      if recorded.Some? then
        Funded(Exec(now, CompleteEvents(now, key, worst(key), Failed(0))), s, worst, noise, tape,
               seen + [Replay.Text(recorded.value)], fuel - 1)
      else
        tape != [] ==>
          && Sends(now, key, worst(key))
          && Funded(Exec(now, CompleteEvents(now, key, worst(key), tape[0])), s, worst, noise, tape[1..],
                    seen + [AnswerOf(tape[0])], fuel - 1)
  }

  lemma RecordedSendsNothing(w: World, key: Key, worst: nat)
    requires RecordOf(w.calls, key).Some?
    ensures !Sends(w, key, worst)
  {
  }

  lemma CompleteMirrors(w: World, key: Key, worst: nat, outcome: Outcome, memo: map<Key, string>)
    requires Ready(w, key.owner) && Mirrors(w.calls, memo, key.owner)
    ensures var v := Exec(w, CompleteEvents(w, key, worst, outcome));
      && Ready(v, key.owner)
      && Mirrors(v.calls, if Sends(w, key, worst) then Replay.Record(memo, key, AnswerOf(outcome)) else memo, key.owner)
  {
    hide Exec, CompleteEvents, Sends, RecordOf;
    var v := Exec(w, CompleteEvents(w, key, worst, outcome));
    CompleteReads(w, key, worst, outcome, key);
    forall other ensures RecordOf(v.calls, other) ==
      if other == key && Sends(w, key, worst) && outcome.Replied? then Some(outcome.reply.text) else RecordOf(w.calls, other)
    {
      CompleteReads(w, key, worst, outcome, other);
    }
  }

  /** A funded stage entry on the ledger, with other owners at work between its calls, is the
      abstract process on its memo: same outcome, same recorded responses, same keys sent to the
      provider. */
  lemma {:induction false} EntryIsDrive<R>(w: World, o: Owner, s: Replay.Strategy<Key, string, R>, worst: Key -> nat, noise: Noise,
                                           tape: seq<Outcome>, seen: seq<Replay.Answer<string>>, fuel: nat, memo: map<Key, string>)
    requires AsksAs(s, o) && Around(noise, o) && Ready(w, o) && Mirrors(w.calls, memo, o)
    requires Funded(w, s, worst, noise, tape, seen, fuel)
    ensures var e := Enter(w, s, worst, noise, tape, seen, fuel); var t := Replay.Drive(s, memo, Answers(tape), seen, fuel);
      e.outcome == t.outcome && Mirrors(e.world.calls, t.memo, o) && e.sent == t.provider && Ready(e.world, o)
    decreases fuel
  {
    hide Exec, CompleteEvents, Sends, RecordOf, AllByOthers;
    if fuel > 0 && s(seen).Ask? {
      var key := s(seen).key;
      OthersKeepMirror(w, noise(|seen|), memo, o);
      var now := Exec(w, noise(|seen|));
      var recorded := RecordOf(now.calls, key);
      if recorded.Some? {
        RecordedSendsNothing(now, key, worst(key));
        CompleteMirrors(now, key, worst(key), Failed(0), memo);
        var next := Exec(now, CompleteEvents(now, key, worst(key), Failed(0)));
        EntryIsDrive(next, o, s, worst, noise, tape, seen + [Replay.Text(recorded.value)], fuel - 1, memo);
      } else if tape != [] {
        CompleteMirrors(now, key, worst(key), tape[0], memo);
        var next := Exec(now, CompleteEvents(now, key, worst(key), tape[0]));
        var told := Replay.Record(memo, key, AnswerOf(tape[0]));
        EntryIsDrive(next, o, s, worst, noise, tape[1..], seen + [AnswerOf(tape[0])], fuel - 1, told);
        assert Answers(tape)[1..] == Answers(tape[1..]);
      }
    }
  }

  lemma {:induction false} ExecJoin(w: World, a: seq<Event>, b: seq<Event>)
    ensures Exec(Exec(w, a), b) == Exec(w, a + b)
    decreases |a|
  {
    if a == [] {
      assert a + b == b;
    } else {
      ExecJoin(Step(w, a[0]), a[1..], b);
      assert (a + b)[1..] == a[1..] + b;
    }
  }

  /** And every one of its commits is a step of the ledger, so the books stay balanced. */
  lemma {:induction false} EntryConserves<R>(w: World, s: Replay.Strategy<Key, string, R>, worst: Key -> nat, noise: Noise,
                                             tape: seq<Outcome>, seen: seq<Replay.Answer<string>>, fuel: nat)
    requires Conserved(w)
    ensures var e := Enter(w, s, worst, noise, tape, seen, fuel); e.world == Exec(w, e.events) && Conserved(e.world)
    decreases fuel
  {
    hide CompleteEvents, Sends, RecordOf, Conserved, Step;
    var e := Enter(w, s, worst, noise, tape, seen, fuel);
    if fuel > 0 && s(seen).Ask? {
      var key := s(seen).key;
      var now := Exec(w, noise(|seen|));
      EveryRunConserves(w, noise(|seen|));
      var recorded := RecordOf(now.calls, key);
      if recorded.Some? || (tape != [] && Sends(now, key, worst(key))) {
        var events := CompleteEvents(now, key, worst(key), if recorded.Some? then Failed(0) else tape[0]);
        var next := Exec(now, events);
        var left := if recorded.Some? then tape else tape[1..];
        var answer := if recorded.Some? then Replay.Text(recorded.value) else AnswerOf(tape[0]);
        EveryRunConserves(now, events);
        EntryConserves(next, s, worst, noise, left, seen + [answer], fuel - 1);
        var rest := Enter(next, s, worst, noise, left, seen + [answer], fuel - 1).events;
        ExecJoin(w, noise(|seen|), events);
        ExecJoin(w, noise(|seen|) + events, rest);
      }
    }
  }

  // ----- processes that die ------------------------------------------------------------

  /** One process and what follows it: the answers it got, what others committed meanwhile, how many
      of its commits happened before it died, and everything up to the next process, a request still
      in flight included. */
  datatype Attempt = Attempt(tape: seq<Outcome>, noise: Noise, done: nat, after: seq<Event>)

  /** A process begins by resolving what its predecessor left pending. */
  function Begun(w: World, o: Owner): World {
    Exec(w, [Start(o), Abandon(o), Convert(o)])
  }

  function AllAnswers(attempts: seq<Attempt>): seq<Replay.Answer<string>> {
    if attempts == [] then [] else Answers(attempts[0].tape) + AllAnswers(attempts[1..])
  }

  ghost function EntryOf<R>(w: World, o: Owner, s: Replay.Strategy<Key, string, R>, worst: Key -> nat, a: Attempt, fuel: nat): Entry<R> {
    Enter(Begun(w, o), s, worst, a.noise, a.tape, [], fuel)
  }

  /** The table the next process finds. */
  ghost function Left<R>(w: World, o: Owner, s: Replay.Strategy<Key, string, R>, worst: Key -> nat, a: Attempt, fuel: nat): World {
    var events := EntryOf(w, o, s, worst, a, fuel).events;
    Exec(Exec(Begun(w, o), events[..if a.done < |events| then a.done else |events|]), a.after)
  }

  /** Every process but the last dies somewhere; the last one is let run. */
  ghost function Interrupted<R>(w: World, o: Owner, s: Replay.Strategy<Key, string, R>, worst: Key -> nat,
                                attempts: seq<Attempt>, fuel: nat): Entry<R>
    requires attempts != []
    decreases |attempts|
  {
    var e := EntryOf(w, o, s, worst, attempts[0], fuel);
    if |attempts| == 1 then e
    else
      var rest := Interrupted(Left(w, o, s, worst, attempts[0], fuel), o, s, worst, attempts[1..], fuel);
      rest.(sent := e.sent + rest.sent)
  }

  /** The process's reservations are granted, and if another one follows, none of its provider calls
      failed and nothing of its owner is committed after the point where it died. */
  ghost predicate AttemptOk<R>(w: World, o: Owner, s: Replay.Strategy<Key, string, R>, worst: Key -> nat, a: Attempt, last: bool, fuel: nat) {
    && Around(a.noise, o) && Funded(Begun(w, o), s, worst, a.noise, a.tape, [], fuel)
    && (!last ==>
          && Replay.NoFailure(Answers(a.tape)) && CommitsNone(a.after, o)
          && var events := EntryOf(w, o, s, worst, a, fuel).events;
             a.done < |events| ==> CommitsNone(events[a.done..], o))
  }

  ghost predicate AttemptsOk<R>(w: World, o: Owner, s: Replay.Strategy<Key, string, R>, worst: Key -> nat, attempts: seq<Attempt>, fuel: nat)
    requires attempts != []
    decreases |attempts|
  {
    && AttemptOk(w, o, s, worst, attempts[0], |attempts| == 1, fuel)
    && (|attempts| > 1 ==> AttemptsOk(Left(w, o, s, worst, attempts[0], fuel), o, s, worst, attempts[1..], fuel))
  }

  lemma BegunReady(w: World, o: Owner)
    ensures Ready(Begun(w, o), o)
  {
    hide ConvertRows, StaleRows, DropStale;
    var w1 := Step(w, Start(o));
    var w2 := Step(w1, Abandon(o));
    RowsWithin(w1.calls, o);
    ExecStep(w, Start(o), [Abandon(o), Convert(o)]);
    ExecStep(w1, Abandon(o), [Convert(o)]);
    ExecStep(w2, Convert(o), []);
    ExecStep(Step(w2, Convert(o)), Convert(o), []);
  }

  /** Abandoning and converting leaves every record, and a worker ready to ask. */
  lemma BegunReads(w: World, o: Owner, memo: map<Key, string>)
    requires Mirrors(w.calls, memo, o)
    ensures Mirrors(Begun(w, o).calls, memo, o) && Ready(Begun(w, o), o)
  {
    hide RecordOf, Exec, Ready;
    BegunReady(w, o);
    forall key: Key | key.owner == o ensures RecordOf(Begun(w, o).calls, key) == RecordOf(w.calls, key) {
      QuietRunReads(w, [Start(o), Abandon(o), Convert(o)], key);
    }
  }

  /** The next process reads what this one recorded. */
  lemma LeftMirrors<R>(w: World, o: Owner, s: Replay.Strategy<Key, string, R>, worst: Key -> nat, a: Attempt, fuel: nat, memo: map<Key, string>)
    requires Conserved(w) && AsksAs(s, o) && Mirrors(w.calls, memo, o) && AttemptOk(w, o, s, worst, a, false, fuel)
    ensures var left := Left(w, o, s, worst, a, fuel);
      Conserved(left) && Mirrors(left.calls, Replay.Drive(s, memo, Answers(a.tape), [], fuel).memo, o)
  {
    hide Exec, RecordOf, Conserved, Enter, Funded, Around;
    var begun := Begun(w, o);
    EveryRunConserves(w, [Start(o), Abandon(o), Convert(o)]);
    BegunReads(w, o, memo);
    EntryIsDrive(begun, o, s, worst, a.noise, a.tape, [], fuel, memo);
    EntryConserves(begun, s, worst, a.noise, a.tape, [], fuel);
    var e := EntryOf(w, o, s, worst, a, fuel);
    var n := if a.done < |e.events| then a.done else |e.events|;
    var cut := Exec(begun, e.events[..n]);
    ExecJoin(begun, e.events[..n], e.events[n..]);
    assert e.events[..n] + e.events[n..] == e.events;
    EveryRunConserves(begun, e.events[..n]);
    EveryRunConserves(cut, a.after);
    var left := Left(w, o, s, worst, a, fuel);
    forall key: Key | key.owner == o ensures RecordOf(left.calls, key) == RecordOf(e.world.calls, key) {
      QuietRunReads(cut, e.events[n..], key);
      QuietRunReads(cut, a.after, key);
    }
  }

  /** Crash and resume on the ledger: however often the processes of a stage die, between whatever
      commits, and whatever other owners commit in between, the last one ends as one abstract
      process that was given all their answers; the owner's rows record exactly its responses, the
      keys sent to the provider are its keys, and the books are balanced. */
  lemma {:induction false} InterruptedStageIsDrive<R>(w: World, o: Owner, s: Replay.Strategy<Key, string, R>, worst: Key -> nat,
                                                      attempts: seq<Attempt>, fuel: nat, memo: map<Key, string>)
    requires attempts != [] && Conserved(w) && AsksAs(s, o) && Mirrors(w.calls, memo, o)
    requires AttemptsOk(w, o, s, worst, attempts, fuel)
    ensures var e := Interrupted(w, o, s, worst, attempts, fuel); var t := Replay.Drive(s, memo, AllAnswers(attempts), [], fuel);
      e.outcome == t.outcome && e.sent == t.provider && Mirrors(e.world.calls, t.memo, o) && Conserved(e.world)
    decreases |attempts|
  {
    hide Exec, RecordOf, Conserved, Enter, Funded, Around, Left, Mirrors, Replay.Drive;
    var a := attempts[0];
    BegunReads(w, o, memo);
    EveryRunConserves(w, [Start(o), Abandon(o), Convert(o)]);
    EntryIsDrive(Begun(w, o), o, s, worst, a.noise, a.tape, [], fuel, memo);
    EntryConserves(Begun(w, o), s, worst, a.noise, a.tape, [], fuel);
    if |attempts| == 1 {
      assert Answers(a.tape) + [] == Answers(a.tape) && attempts[1..] == [];
    } else {
      LeftMirrors(w, o, s, worst, a, fuel, memo);
      var told := Replay.Drive(s, memo, Answers(a.tape), [], fuel).memo;
      InterruptedStageIsDrive(Left(w, o, s, worst, a, fuel), o, s, worst, attempts[1..], fuel, told);
      Replay.NextProcessMatches(s, memo, Answers(a.tape), AllAnswers(attempts[1..]), fuel);
    }
  }
}
