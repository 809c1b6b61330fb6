/** What a round may ask and cost, and what is left of it when its processes crash. */
module RoundRuns {
  import opened Common
  import opened Sorting
  import opened Replay
  import opened Round
  import opened RoundPrefix
  import opened RoundTrace
  import opened RoundProofs

  /** The most calls one round can make. */
  const MOST_CALLS := SCREEN_FROM + 2

  // ----- one reply on ----------------------------------------------------------------

  /** What a round may ask after it asked `key`. */
  predicate Later(key: Call, next: Call) {
    Order(key) < Order(next) || (key.Screen? && next.Screen? && key != next)
  }

  /** A stage on some replies, with x after them, and with one more: it stays where it ended, asks
      in order, screens at most two finalists, and from the critic on ends on a failure. */
  ghost predicate Steps(x: Reply, low: nat, m: Move<Call, Round>, m1: Move<Call, Round>, m2: Move<Call, Round>) {
    && (m.Done? ==> m1 == m)
    && (m.Ask? ==> Order(m.key) >= low && Placed(m.key) && (x.Failure? && low >= CRITIC_FROM ==> m1.Done?))
    && (m.Ask? && m1.Ask? ==> Later(m.key, m1.key) && (m.key.Screen? ==> m2.Done?))
  }

  lemma ScreeningSteps(c: Context, ideas: seq<Idea>, verdicts: seq<Kind>, decision: Option<seq<Ranked>>,
                       finalists: seq<int>, replies: seq<Reply>, x: Reply, y: Reply)
    requires |finalists| <= 2 && Distinct(finalists)
    ensures Steps(x, SCREEN_FROM, Screening(c, ideas, verdicts, decision, finalists, replies),
                  Screening(c, ideas, verdicts, decision, finalists, replies + [x]),
                  Screening(c, ideas, verdicts, decision, finalists, replies + [x] + [y]))
  {
    hide Screens, Decide;
    var s := Screens(finalists, replies);
    if s.Want? {
      ScreensWant(finalists, replies, x);
      if Screens(finalists, replies + [x]).Want? { ScreensWant(finalists, replies + [x], y); }
    } else {
      ScreensSplits(finalists, replies, s.rest + [x]);
      UsedOneMore(s, replies, x);
    }
  }

  lemma ShortlistIsShort(c: Context, n: nat, decision: Option<seq<Ranked>>)
    requires DecisionOk(decision, n)
    requires decision.Some? ==> |decision.value| >= 2
    ensures |Shortlist(c, n, decision)| <= 2 && Distinct(Shortlist(c, n, decision))
  {
    hide ValidRanking;
    if n >= 2 { ShortlistOk(c, n, decision); }
  }

  lemma UnrankedSteps(c: Context, ideas: seq<Idea>, verdicts: seq<Kind>, replies: seq<Reply>, x: Reply, y: Reply)
    requires |Rankable(verdicts)| < 2
    ensures Steps(x, SCREEN_FROM, RankingStage(c, ideas, verdicts, replies), RankingStage(c, ideas, verdicts, replies + [x]),
                  RankingStage(c, ideas, verdicts, replies + [x] + [y]))
  {
    hide Screening, Rankable, RankingStage, Steps;
    var n := |Rankable(verdicts)|;
    ShortlistIsShort(c, n, None);
    ScreeningSteps(c, ideas, verdicts, None, Shortlist(c, n, None), replies, x, y);
    UnrankedGoesOn(c, ideas, verdicts, replies);
    UnrankedGoesOn(c, ideas, verdicts, replies + [x]);
    UnrankedGoesOn(c, ideas, verdicts, replies + [x] + [y]);
  }

  /** Once the ranking is in, the stage is the screening of its shortlist. */
  lemma RankedSteps(c: Context, ideas: seq<Idea>, verdicts: seq<Kind>, replies: seq<Reply>, x: Reply, y: Reply)
    requires var n := |Rankable(verdicts)|; n >= 2 && RankBatch(n, replies).Got?
    ensures Steps(x, SCREEN_FROM, RankingStage(c, ideas, verdicts, replies), RankingStage(c, ideas, verdicts, replies + [x]),
                  RankingStage(c, ideas, verdicts, replies + [x] + [y]))
  {
    hide Screening, Rankable, RankingStage, Steps, RankBatch, ValidRanking;
    var n := |Rankable(verdicts)|;
    var d := RankBatch(n, replies);
    ShortlistIsShort(c, n, d.value);
    ScreeningSteps(c, ideas, verdicts, d.value, Shortlist(c, n, d.value), d.rest, x, y);
    RankBatchSplits(n, replies, []);
    TwoMore(d, replies, x, y);
    RankingGoesOn(c, ideas, verdicts, replies, d.rest);
    RankingGoesOn(c, ideas, verdicts, replies, d.rest + [x]);
    RankingGoesOn(c, ideas, verdicts, replies, d.rest + [x] + [y]);
  }

  lemma TwoMore<V>(r: Stage<V>, replies: seq<Reply>, x: Reply, y: Reply)
    requires r.Got? && |r.rest| <= |replies| && r.rest == replies[|replies| - |r.rest|..]
    ensures UsedBy(r, replies) + r.rest == replies && UsedBy(r, replies) + (r.rest + [x]) == replies + [x]
    ensures UsedBy(r, replies) + (r.rest + [x] + [y]) == replies + [x] + [y]
  {
  }

  lemma RankingSteps(c: Context, ideas: seq<Idea>, verdicts: seq<Kind>, replies: seq<Reply>, x: Reply, y: Reply)
    ensures Steps(x, RANK_FROM, RankingStage(c, ideas, verdicts, replies), RankingStage(c, ideas, verdicts, replies + [x]),
                  RankingStage(c, ideas, verdicts, replies + [x] + [y]))
  {
    hide Screening, Rankable, RankBatch;
    var n := |Rankable(verdicts)|;
    if n < 2 {
      UnrankedSteps(c, ideas, verdicts, replies, x, y);
    } else if RankBatch(n, replies).Got? {
      RankedSteps(c, ideas, verdicts, replies, x, y);
    } else {
      RankBatchWants(n, replies, x);
      var d := RankBatch(n, replies + [x]);
      if d.Got? {
        RankedSteps(c, ideas, verdicts, replies + [x], x, y);
        if x.Failure? { FailedRankingEnds(c, ideas, verdicts, replies + [x]); }
      }
    }
  }

  /** A round whose ranker failed screens nobody and ends. */
  lemma FailedRankingEnds(c: Context, ideas: seq<Idea>, verdicts: seq<Kind>, replies: seq<Reply>)
    requires |Rankable(verdicts)| >= 2 && RankBatch(|Rankable(verdicts)|, replies) == Got(None, [])
    ensures RankingStage(c, ideas, verdicts, replies).Done?
  {
    hide Rankable, RankBatch;
  }

  /** Once the verdicts are in, the stage is the ranking of what they leave. */
  lemma ReviewedSteps(c: Context, ideas: seq<Idea>, replies: seq<Reply>, x: Reply, y: Reply)
    requires Critique(c, ideas, replies).Got?
    ensures Steps(x, RANK_FROM, ReviewStage(c, ideas, replies), ReviewStage(c, ideas, replies + [x]),
                  ReviewStage(c, ideas, replies + [x] + [y]))
  {
    hide Critique, RankingStage;
    var v := Critique(c, ideas, replies);
    CritiqueSplits(c, ideas, replies, v.rest + [x]);
    TwoMore(v, replies, x, y);
    if v.value.Some? {
      RankingSteps(c, ideas, v.value.value, v.rest, x, y);
      ReviewGoesOn(c, ideas, replies, v.rest);
      ReviewGoesOn(c, ideas, replies, v.rest + [x]);
      ReviewGoesOn(c, ideas, replies, v.rest + [x] + [y]);
    }
  }

  lemma ReviewSteps(c: Context, ideas: seq<Idea>, replies: seq<Reply>, x: Reply, y: Reply)
    ensures Steps(x, CRITIC_FROM, ReviewStage(c, ideas, replies), ReviewStage(c, ideas, replies + [x]),
                  ReviewStage(c, ideas, replies + [x] + [y]))
  {
    hide Critique, RankingStage;
    if Critique(c, ideas, replies).Got? {
      ReviewedSteps(c, ideas, replies, x, y);
    } else {
      CritiqueWants(c, ideas, replies, x);
      if Critique(c, ideas, replies + [x]).Got? { ReviewedSteps(c, ideas, replies + [x], x, y); }
    }
  }

  lemma BatchedSteps(c: Context, replies: seq<Reply>, x: Reply, y: Reply)
    requires Batch(c, replies).Got?
    ensures Steps(x, CRITIC_FROM, Next(c, replies), Next(c, replies + [x]), Next(c, replies + [x] + [y]))
  {
    hide Batch, ReviewStage;
    var b := Batch(c, replies);
    BatchSplits(c, replies, b.rest + [x]);
    TwoMore(b, replies, x, y);
    if b.value.Some? {
      ReviewSteps(c, b.value.value, b.rest, x, y);
      NextGoesOn(c, replies, b.rest);
      NextGoesOn(c, replies, b.rest + [x]);
      NextGoesOn(c, replies, b.rest + [x] + [y]);
    }
  }

  /** A round asks in a fixed order, never the same key twice, and stays where it ended. */
  lemma NextSteps(c: Context, replies: seq<Reply>, x: Reply, y: Reply)
    ensures Steps(x, 0, Next(c, replies), Next(c, replies + [x]), Next(c, replies + [x] + [y]))
  {
    hide Batch, ReviewStage;
    if Batch(c, replies).Got? {
      BatchedSteps(c, replies, x, y);
    } else {
      BatchWants(c, replies, x);
      if Batch(c, replies + [x]).Got? { BatchedSteps(c, replies + [x], x, y); }
    }
  }

  /** What a provider failure leaves of a round: while it generates there was none, and later
      there is no second one. */
  lemma SecondFailureEndsRound(c: Context, replies: seq<Reply>)
    requires !NoFailure(replies) && Next(c, replies).Ask?
    ensures Next(c, replies + [Failure]).Done?
  {
    hide Batch, ReviewStage, Next;
    if Batch(c, replies).Got? {
      BatchedSteps(c, replies, Failure, Failure);
    } else {
      BatchWants(c, replies, Failure);
    }
  }

  // ----- every prefix ----------------------------------------------------------------

  lemma {:induction false} AskedBefore(c: Context, replies: seq<Reply>, i: nat)
    requires i <= |replies| && Next(c, replies).Ask?
    ensures Next(c, replies[..i]).Ask?
    decreases |replies| - i
  {
    hide Next;
    if i == |replies| {
      assert replies[..i] == replies;
    } else {
      AskedBefore(c, replies, i + 1);
      assert replies[..i + 1] == replies[..i] + [replies[i]];
      NextSteps(c, replies[..i], replies[i], Failure);
    }
  }

  /** Two asks of one round: the later one is later in the order, or the second screen. */
  lemma {:induction false} AsksInOrder(c: Context, replies: seq<Reply>, i: nat, j: nat)
    requires i < j <= |replies| && Next(c, replies[..j]).Ask?
    ensures Next(c, replies[..i]).Ask?
    ensures var key := Next(c, replies[..i]).key; var next := Next(c, replies[..j]).key;
      Later(key, next) && (key.Screen? ==> j == i + 1)
    decreases j
  {
    hide Next, Order;
    var before := replies[..j - 1];
    assert replies[..j] == before + [replies[j - 1]] && replies[..j][..i] == replies[..i] && replies[..j][..j - 1] == before;
    AskedBefore(c, replies[..j], i);
    AskedBefore(c, replies[..j], j - 1);
    NextSteps(c, before, replies[j - 1], Failure);
    if i < j - 1 {
      AsksInOrder(c, replies, i, j - 1);
      AskedBefore(c, replies[..j], i + 2);
      assert replies[..j][..i + 2] == replies[..i + 2];
      TwoScreensAtMost(c, replies, i);
      LaterTwice(Next(c, replies[..i]).key, Next(c, before).key, Next(c, replies[..j]).key);
    }
  }

  /** Only the next ask can follow a screen. */
  lemma TwoScreensAtMost(c: Context, replies: seq<Reply>, i: nat)
    requires i + 2 <= |replies| && Next(c, replies[..i + 2]).Ask?
    ensures Next(c, replies[..i]).Ask? && !Next(c, replies[..i]).key.Screen?
  {
    hide Next;
    var all := replies[..i + 2];
    AskedBefore(c, all, i);
    AskedBefore(c, all, i + 1);
    assert all[..i] == replies[..i] && all[..i + 1] == replies[..i] + [replies[i]];
    assert all == replies[..i] + [replies[i]] + [replies[i + 1]];
    NextSteps(c, replies[..i], replies[i], replies[i + 1]);
  }

  lemma LaterTwice(a: Call, b: Call, d: Call)
    requires Later(a, b) && Later(b, d) && !a.Screen?
    ensures Later(a, d)
  {
  }

  // ----- what a round may cost -------------------------------------------------------

  /** How many calls of each kind were asked for. */
  datatype Calls = Calls(generate: nat, critic: nat, rank: nat, screen: nat)

  function Charged(calls: Calls, key: Call): Calls {
    match key
    case Generate(_) => calls.(generate := calls.generate + 1)
    case Refill(_, _) => calls.(generate := calls.generate + 1)
    case Critic(_) => calls.(critic := calls.critic + 1)
    case Rank(_) => calls.(rank := calls.rank + 1)
    case Screen(_) => calls.(screen := calls.screen + 1)
  }

  function Counted(keys: seq<Call>): Calls {
    if keys == [] then Calls(0, 0, 0, 0) else Charged(Counted(keys[..|keys| - 1]), keys[|keys| - 1])
  }

  /** The keys a round asked for on the way through `replies`. */
  function AskedFor(c: Context, replies: seq<Reply>): seq<Call> {
    if replies == [] then []
    else
      var before := replies[..|replies| - 1];
      var m := Next(c, before);
      AskedFor(c, before) + if m.Ask? then [m.key] else []
  }

  /** At most this many calls lie before a key in the order. */
  function Within(from: nat, most: nat, order: nat): nat {
    if order < from then 0 else if order < from + most then order - from else most
  }

  ghost predicate CountsBelow(calls: Calls, order: nat) {
    && calls.generate <= Within(0, CRITIC_FROM, order) && calls.critic <= Within(CRITIC_FROM, JSON_CALL_ATTEMPTS, order)
    && calls.rank <= Within(RANK_FROM, JSON_CALL_ATTEMPTS, order)
  }

  /** While a round asks, every earlier call of a kind has its own place before the asked key. */
  lemma {:induction false} CountsFollowOrder(c: Context, replies: seq<Reply>)
    requires Next(c, replies).Ask?
    ensures CountsBelow(Counted(AskedFor(c, replies)), Order(Next(c, replies).key))
    ensures var n := Counted(AskedFor(c, replies)).screen;
      n <= 1 && (n == 1 ==> replies != [] && Next(c, replies[..|replies| - 1]).Ask? && Next(c, replies[..|replies| - 1]).key.Screen?)
    decreases |replies|
  {
    hide Next;
    if replies != [] {
      var n := |replies| - 1;
      var before := replies[..n];
      AskedBefore(c, replies, n);
      CountsFollowOrder(c, before);
      assert replies[..|replies|] == replies;
      AsksInOrder(c, replies, n, n + 1);
      CountedMore(AskedFor(c, before), Next(c, before).key);
      NextSteps(c, before, Failure, Failure);
      ChargedBelow(Counted(AskedFor(c, before)), Next(c, before).key, Next(c, replies).key);
      if n > 0 {
        AskedBefore(c, replies, n - 1);
        AsksInOrder(c, replies, n - 1, n + 1);
        assert before[..n - 1] == replies[..n - 1];
      }
    }
  }

  lemma ChargedBelow(calls: Calls, key: Call, next: Call)
    requires CountsBelow(calls, Order(key)) && Placed(key) && Later(key, next)
    ensures CountsBelow(Charged(calls, key), Order(next))
  {
  }

  lemma CountedMore(keys: seq<Call>, key: Call)
    ensures Counted(keys + [key]) == Charged(Counted(keys), key)
  {
    assert (keys + [key])[..|keys|] == keys;
  }

  ghost predicate WithinWorstCase(calls: Calls) {
    && calls.generate <= JSON_CALL_ATTEMPTS * (1 + MAX_BATCH_REFILLS)
    && calls.critic <= JSON_CALL_ATTEMPTS && calls.rank <= JSON_CALL_ATTEMPTS && calls.screen <= 2
  }

  /** Whatever was answered, and wherever the round stands, it asked at most nine generations,
      three reviews, three rankings and two screens. */
  lemma {:induction false} RoundAsksWithin(c: Context, replies: seq<Reply>)
    ensures WithinWorstCase(Counted(AskedFor(c, replies)))
    decreases |replies|
  {
    hide Next;
    if replies != [] {
      var before := replies[..|replies| - 1];
      if Next(c, before).Ask? {
        CountsFollowOrder(c, before);
        NextSteps(c, before, Failure, Failure);
        CountedMore(AskedFor(c, before), Next(c, before).key);
      } else {
        RoundAsksWithin(c, before);
        assert AskedFor(c, before) + [] == AskedFor(c, before);
      }
    }
  }

  /** _round_worst_case, from the worst case of one call of each kind. */
  function RoundWorstCase(generate: nat, critic: nat, rank: nat, screen: nat): nat {
    (generate * (1 + MAX_BATCH_REFILLS) + critic + rank) * JSON_CALL_ATTEMPTS + 2 * screen
  }

  function CostOf(calls: Calls, generate: nat, critic: nat, rank: nat, screen: nat): nat {
    calls.generate * generate + calls.critic * critic + calls.rank * rank + calls.screen * screen
  }

  lemma Scale(a: nat, b: nat, x: nat)
    requires a <= b
    ensures a * x <= b * x
  {
  }

  lemma WorstCaseCovers(calls: Calls, generate: nat, critic: nat, rank: nat, screen: nat)
    requires WithinWorstCase(calls)
    ensures CostOf(calls, generate, critic, rank, screen) <= RoundWorstCase(generate, critic, rank, screen)
  {
    Scale(calls.generate, 9, generate);
    Scale(calls.critic, 3, critic);
    Scale(calls.rank, 3, rank);
    Scale(calls.screen, 2, screen);
  }

  /** The preflight covers the round: no path through a round, finished, failed, abstained or cut
      short, costs more than the reservation checked before its first call. */
  lemma PreflightCoversRound(c: Context, replies: seq<Reply>, generate: nat, critic: nat, rank: nat, screen: nat)
    ensures CostOf(Counted(AskedFor(c, replies)), generate, critic, rank, screen)
         <= RoundWorstCase(generate, critic, rank, screen)
  {
    RoundAsksWithin(c, replies);
    WorstCaseCovers(Counted(AskedFor(c, replies)), generate, critic, rank, screen);
  }

  function Plus(a: Calls, b: Calls): Calls {
    Calls(a.generate + b.generate, a.critic + b.critic, a.rank + b.rank, a.screen + b.screen)
  }

  lemma {:induction false} CountedFirst(key: Call, keys: seq<Call>)
    ensures Counted([key] + keys) == Charged(Counted(keys), key)
    decreases |keys|
  {
    var all := [key] + keys;
    if keys == [] {
      assert all == [key] && all[..0] == [];
      assert Counted([key]) == Charged(Counted([]), key);
    } else {
      CountedFirst(key, keys[..|keys| - 1]);
      assert all[..|all| - 1] == [key] + keys[..|keys| - 1];
    }
  }

  lemma ChargedPlus(a: Calls, key: Call, b: Calls)
    ensures Plus(Charged(a, key), b) == Plus(a, Charged(b, key))
    ensures WithinWorstCase(Plus(Charged(a, key), b)) ==> WithinWorstCase(Plus(a, b))
  {
  }

  /** What a process pays the provider for is among what the round asks for. */
  lemma {:induction false} ProviderWithin(c: Context, memo: map<Call, Payload>, tape: seq<Reply>, seen: seq<Reply>, fuel: nat)
    ensures var t := Drive(Play(c), memo, tape, seen, fuel);
      WithinWorstCase(Plus(Counted(AskedFor(c, seen)), Counted(t.provider)))
    decreases fuel
  {
    hide Next, AskedFor, Charged, WithinWorstCase, Plus;
    NothingMore(c, seen);
    if fuel > 0 && Next(c, seen).Ask? {
      var key := Next(c, seen).key;
      var before := Counted(AskedFor(c, seen));
      CountedMore(AskedFor(c, seen), key);
      if key in memo {
        AskedMore(c, seen, Text(memo[key]));
        ProviderWithin(c, memo, tape, seen + [Text(memo[key])], fuel - 1);
        ChargedPlus(before, key, Counted(Drive(Play(c), memo, tape, seen + [Text(memo[key])], fuel - 1).provider));
      } else if tape != [] {
        AskedMore(c, seen, tape[0]);
        var rest := Drive(Play(c), Record(memo, key, tape[0]), tape[1..], seen + [tape[0]], fuel - 1);
        ProviderWithin(c, Record(memo, key, tape[0]), tape[1..], seen + [tape[0]], fuel - 1);
        CountedFirst(key, rest.provider);
        ChargedPlus(before, key, Counted(rest.provider));
      }
    }
  }

  lemma NothingMore(c: Context, seen: seq<Reply>)
    ensures WithinWorstCase(Plus(Counted(AskedFor(c, seen)), Counted([])))
  {
    hide Next, AskedFor;
    RoundAsksWithin(c, seen);
  }

  lemma AskedMore(c: Context, seen: seq<Reply>, a: Reply)
    requires Next(c, seen).Ask?
    ensures AskedFor(c, seen + [a]) == AskedFor(c, seen) + [Next(c, seen).key]
  {
    hide Next;
    assert (seen + [a])[..|seen|] == seen;
  }

  /** It covers the provider calls of all the processes an interrupted round took. */
  lemma PreflightCoversInterruptedRound(c: Context, memo: map<Call, Payload>, tapes: seq<seq<Reply>>,
                                        generate: nat, critic: nat, rank: nat, screen: nat)
    requires tapes != [] && forall j :: 0 <= j < |tapes| - 1 ==> NoFailure(tapes[j])
    ensures CostOf(Counted(Resume(Play(c), memo, tapes, MOST_CALLS + 1).provider), generate, critic, rank, screen)
         <= RoundWorstCase(generate, critic, rank, screen)
  {
    hide Next;
    RoundReplays(c, memo, tapes);
    ProviderWithin(c, memo, Joined(tapes), [], MOST_CALLS + 1);
    WorstCaseCovers(Counted(Resume(Play(c), memo, tapes, MOST_CALLS + 1).provider), generate, critic, rank, screen);
  }

  // ----- crash and resume ------------------------------------------------------------

  lemma RankingStageEnds(c: Context, ideas: seq<Idea>, verdicts: seq<Kind>, replies: seq<Reply>)
    ensures RankingStage(c, ideas, verdicts, replies).Ask? ==> |replies| < JSON_CALL_ATTEMPTS + 2
  {
  }

  lemma ReviewStageEnds(c: Context, ideas: seq<Idea>, replies: seq<Reply>)
    ensures ReviewStage(c, ideas, replies).Ask? ==> |replies| < 2 * JSON_CALL_ATTEMPTS + 2
  {
    hide RankingStage, Critique;
    var v := Critique(c, ideas, replies);
    if v.Got? && v.value.Some? { RankingStageEnds(c, ideas, v.value.value, v.rest); }
  }

  /** A stage entry's round asks its last call before it has MOST_CALLS replies. */
  lemma RoundEnds(c: Context, replies: seq<Reply>)
    ensures Next(c, replies).Ask? ==> |replies| < MOST_CALLS
  {
    hide Batch, ReviewStage;
    var b := Batch(c, replies);
    if b.Got? && b.value.Some? { ReviewStageEnds(c, b.value.value, b.rest); }
  }

  lemma PlayEnds(c: Context)
    ensures EndsWithin(Play(c), MOST_CALLS)
  {
    hide Next;
    forall seen: seq<Reply> ensures Play(c)(seen).Ask? ==> |seen| < MOST_CALLS { RoundEnds(c, seen); }
  }

  /** A round interrupted anywhere, any number of times, and re-run with the same context makes
      the provider calls of one uninterrupted round and ends with its ideas, verdicts, ranking,
      finalists and result, as long as no provider failure was followed by a crash. */
  lemma RoundReplays(c: Context, memo: map<Call, Payload>, tapes: seq<seq<Reply>>)
    requires tapes != [] && forall j :: 0 <= j < |tapes| - 1 ==> NoFailure(tapes[j])
    ensures Resume(Play(c), memo, tapes, MOST_CALLS + 1) == Drive(Play(c), memo, Joined(tapes), [], MOST_CALLS + 1)
    ensures !Resume(Play(c), memo, tapes, MOST_CALLS + 1).outcome.OutOfFuel?
  {
    hide Next;
    ReplayIsUninterrupted(Play(c), memo, tapes, MOST_CALLS + 1);
    PlayEnds(c);
    NeverOutOfFuel(Play(c), MOST_CALLS, memo, Joined(tapes), [], MOST_CALLS + 1);
  }

  /** So whatever interrupted round finishes is as well formed as an uninterrupted one, on replies
      that are all recorded responses. */
  lemma InterruptedRoundIsOk(c: Context, memo: map<Call, Payload>, tapes: seq<seq<Reply>>)
    requires c.count >= 1 && tapes != [] && forall j :: 0 <= j < |tapes| - 1 ==> NoFailure(tapes[j])
    ensures var t := Resume(Play(c), memo, tapes, MOST_CALLS + 1);
      t.outcome.Finished? ==> exists replies ::
        Next(c, replies) == Done(t.outcome.result) && RoundOk(c, replies, t.outcome.result) && AllRecorded(Play(c), replies, t.memo)
  {
    hide Next, RoundOk;
    RoundReplays(c, memo, tapes);
    var t := Resume(Play(c), memo, tapes, MOST_CALLS + 1);
    if t.outcome.Finished? {
      FinishedIsReached(Play(c), memo, Joined(tapes), [], MOST_CALLS + 1);
      var replies :| Play(c)(replies) == Done(t.outcome.result) && AllRecorded(Play(c), replies, t.memo);
      assert Next(c, replies) == Done(t.outcome.result);
      EveryRoundIsOk(c, replies, t.outcome.result);
    }
  }

  lemma PlayNeverReasks(c: Context)
    ensures NeverReasks(Play(c))
  {
    hide Next;
    forall seen: seq<Reply>, i | 0 <= i < |seen| && Play(c)(seen[..i]).Ask? && Play(c)(seen).Ask?
      ensures Play(c)(seen[..i]).key != Play(c)(seen).key
    {
      assert seen[..|seen|] == seen;
      AsksInOrder(c, seen, i, |seen|);
    }
  }

  lemma PlayEndsOnSecondFailure(c: Context)
    ensures EndsOnSecondFailure(Play(c))
  {
    hide Next;
    forall seen: seq<Reply> | !NoFailure(seen) && Play(c)(seen).Ask? ensures Play(c)(seen + [Failure]).Done? {
      SecondFailureEndsRound(c, seen);
    }
  }

  /** Two processes end as one process that got both tapes. */
  ghost predicate ResumesRound(c: Context, memo: map<Call, Payload>, t1: seq<Reply>, t2: seq<Reply>) {
    ResumesAlike(Play(c), memo, t1, t2, MOST_CALLS + 1)
  }

  /** A crashed round is resumed faithfully, whatever the provider answers its successor, exactly
      when no provider call of the crashed process had failed. */
  lemma RoundReplaysExactly(c: Context, memo: map<Call, Payload>, t1: seq<Reply>)
    requires Drive(Play(c), memo, t1, [], MOST_CALLS + 1).outcome.Crashed?
    ensures NoFailure(t1) <==> forall t2 :: ResumesRound(c, memo, t1, t2)
  {
    PlayNeverReasks(c);
    PlayEndsOnSecondFailure(c);
    PlayEnds(c);
    ReplayExactlyWithoutFailures(Play(c), MOST_CALLS, memo, t1, MOST_CALLS + 1);
    var fuel := MOST_CALLS + 1;
    assert forall t2 :: ResumesRound(c, memo, t1, t2) == ResumesAlike(Play(c), memo, t1, t2, fuel);
  }
}
