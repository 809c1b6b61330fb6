/** Why replay needs failure-free tapes: a refill whose provider failed is tolerated but not
    recorded, so a round that crashes afterwards asks it again and may hold other ideas. */
module RoundForgets {
  import opened Common
  import opened Replay
  import opened Round
  import opened RoundRuns

  /** Room for two ideas, no warm start, nothing recently failed. */
  predicate WantsTwo(c: Context) {
    c.count == 2 && c.warm.None? && c.failed == {}
  }

  predicate Reviewable(c: Context, idea: Idea) {
    PreGate(c, idea).None?
  }

  function Said(ideas: seq<Idea>): Reply {
    Text(Ideas(ideas))
  }

  /** A critic that answers for no idea. */
  const Silent: Reply := Text(Verdicts(map[]))

  lemma JsonTakes<V>(key: nat -> Call, attempt: nat, parse: Payload -> Option<V>, p: Payload, rest: seq<Reply>)
    requires attempt < JSON_CALL_ATTEMPTS && parse(p).Some?
    ensures JsonCall(key, attempt, parse, [Text(p)] + rest) == Got(parse(p), rest)
  {
  }

  lemma JsonAsks<V>(key: nat -> Call, attempt: nat, parse: Payload -> Option<V>)
    requires attempt < JSON_CALL_ATTEMPTS
    ensures JsonCall(key, attempt, parse, []) == Want(key(attempt))
  {
  }

  lemma JsonReasks<V>(key: nat -> Call, attempt: nat, parse: Payload -> Option<V>, p: Payload, rest: seq<Reply>)
    requires attempt < JSON_CALL_ATTEMPTS && parse(p).None?
    ensures JsonCall(key, attempt, parse, [Text(p)] + rest) == JsonCall(key, attempt + 1, parse, rest)
  {
  }

  // ----- the batch -------------------------------------------------------------------

  lemma OneDedupe(a: Idea)
    ensures Dedupe([a], 2, None) == [a]
  {
    assert [a][..0] == [];
    assert FirstOfEach([a]) == [a];
  }

  lemma TwoDedupe(a: Idea, b: Idea)
    requires a.mechanism != b.mechanism
    ensures Dedupe([a] + [b], 2, None) == [a, b]
  {
    OneDedupe(a);
    assert ([a] + [b])[..1] == [a];
    assert FirstOfEach([a] + [b]) == [a, b];
  }

  /** The first generation said [a]; what follows is up to the refill loop. */
  lemma FirstBatch(c: Context, a: Idea, rest: seq<Reply>)
    requires WantsTwo(c)
    ensures var m := Refills(c, 0, [a], rest);
      Batch(c, [Said([a])] + rest) == if m.Want? then Want(m.key) else Got(Some(m.value), m.rest)
  {
    hide Refills, Dedupe;
    OneDedupe(a);
    JsonTakes((n: nat) => Call.Generate(n), 0, ParseIdeas, Ideas([a]), rest);
  }

  lemma RefillFails(c: Context, a: Idea, rest: seq<Reply>)
    requires WantsTwo(c)
    ensures Refills(c, 0, [a], [Failure] + rest) == Got([a], rest)
  {
  }

  lemma RefillFills(c: Context, a: Idea, b: Idea, rest: seq<Reply>)
    requires WantsTwo(c) && a.mechanism != b.mechanism
    ensures Refills(c, 0, [a], [Said([b])] + rest) == Got([a, b], rest)
  {
    hide Dedupe;
    TwoDedupe(a, b);
    JsonTakes((n: nat) => Call.Refill(0, n), 0, ParseIdeas, Ideas([b]), rest);
  }

  // ----- the silent critic -----------------------------------------------------------

  ghost predicate EndsWith(m: Move<Call, Round>, ideas: seq<Idea>) {
    m.Done? && m.result.Played? && m.result.ideas == ideas
  }

  lemma {:induction false} NoneRankable(verdicts: seq<Kind>)
    requires forall i :: 0 <= i < |verdicts| ==> Suppresses(verdicts[i])
    ensures Rankable(verdicts) == []
  {
    if verdicts != [] {
      NoneRankable(verdicts[..|verdicts| - 1]);
    }
  }

  /** A critic that answered for nobody suppresses everybody, and the round ends unranked. */
  lemma SilentEnds(c: Context, ideas: seq<Idea>)
    ensures EndsWith(RankingStage(c, ideas, AllVerdicts(c, ideas, map[]), []), ideas)
  {
    hide AllVerdicts;
    var verdicts := AllVerdicts(c, ideas, map[]);
    forall i | 0 <= i < |verdicts| ensures Suppresses(verdicts[i]) { SilentSuppresses(c, ideas, i); }
    NoneRankable(verdicts);
    assert Screens([], []) == Got(Some([]), []);
    assert RankingStage(c, ideas, verdicts, []) == Screening(c, ideas, verdicts, None, [], []);
  }

  lemma SilentSuppresses(c: Context, ideas: seq<Idea>, i: nat)
    requires i < |ideas|
    ensures Suppresses(AllVerdicts(c, ideas, map[])[i])
  {
  }

  lemma CriticAsks(c: Context, ideas: seq<Idea>, i: nat)
    requires i < |ideas| && Reviewable(c, ideas[i])
    ensures ReviewStage(c, ideas, []) == Ask(Critic(0))
  {
  }

  lemma CriticReasks(c: Context, ideas: seq<Idea>, i: nat, said: seq<Idea>)
    requires i < |ideas| && Reviewable(c, ideas[i])
    ensures ReviewStage(c, ideas, [Said(said)]) == Ask(Critic(1))
  {
  }

  lemma CriticEnds(c: Context, ideas: seq<Idea>, i: nat, garbled: seq<Reply>, said: seq<Idea>)
    requires i < |ideas| && Reviewable(c, ideas[i]) && (garbled == [] || garbled == [Said(said)])
    ensures EndsWith(ReviewStage(c, ideas, garbled + [Silent]), ideas)
  {
    hide RankingStage, AllVerdicts;
    assert NeedsCritic(c, ideas);
    var attempt := |garbled|;
    assert [Silent] == [Text(Verdicts(map[]))] + [];
    JsonTakes((n: nat) => Call.Critic(n), attempt, ParseVerdicts, Verdicts(map[]), []);
    if attempt == 1 {
      JsonReasks((n: nat) => Call.Critic(n), 0, ParseVerdicts, Ideas(said), [Silent]);
    } else {
      assert garbled + [Silent] == [Silent];
    }
    SilentEnds(c, ideas);
  }

  // ----- the two runs ----------------------------------------------------------------

  lemma NextBegins(c: Context)
    ensures Next(c, []) == Ask(Generate(0))
  {
  }

  lemma NextRefills(c: Context, a: Idea)
    requires WantsTwo(c)
    ensures Next(c, [Said([a])]) == Ask(Call.Refill(0, 0))
  {
    hide ReviewStage, Batch;
    FirstBatch(c, a, []);
    assert [Said([a])] + [] == [Said([a])];
    JsonAsks((n: nat) => Call.Refill(0, n), 0, ParseIdeas);
  }

  /** Once the batch is [a], or [a, b], the round is in its review stage. */
  lemma NextReviews(c: Context, a: Idea, b: Idea, failed: bool, rest: seq<Reply>)
    requires WantsTwo(c) && a.mechanism != b.mechanism
    ensures var replies := [Said([a])] + ([if failed then Failure else Said([b])] + rest);
      Next(c, replies) == ReviewStage(c, if failed then [a] else [a, b], rest)
  {
    hide ReviewStage, Batch, Refills;
    var second := [if failed then Failure else Said([b])] + rest;
    FirstBatch(c, a, second);
    if failed { RefillFails(c, a, rest); } else { RefillFills(c, a, b, rest); }
  }

  function Begun(a: Idea): seq<Reply> {
    [Said([a]), Failure]
  }

  function Rest(b: Idea): seq<Reply> {
    [Said([b]), Silent]
  }

  lemma FirstProcess(c: Context, a: Idea, b: Idea)
    requires WantsTwo(c) && Reviewable(c, a) && a.mechanism != b.mechanism
    ensures var t := Drive(Play(c), map[], Begun(a), [], MOST_CALLS + 1);
      t.outcome.Crashed? && t.memo == map[Generate(0) := Ideas([a])]
  {
    hide Next;
    NextBegins(c);
    NextRefills(c, a);
    NextReviews(c, a, b, true, []);
    CriticAsks(c, [a], 0);
    var s := [Said([a])] + ([Failure] + []);
    assert [] + [Said([a])] == [Said([a])] && [Said([a])] + [Failure] == s;
    var failed: seq<Reply> := [Failure];
    assert Begun(a)[1..] == failed && failed[1..] == [];
    assert Drive(Play(c), map[Generate(0) := Ideas([a])], [], s, MOST_CALLS - 1)
        == Trail(Crashed, map[Generate(0) := Ideas([a])], []);
    assert Drive(Play(c), map[Generate(0) := Ideas([a])], [Failure], [Said([a])], MOST_CALLS).outcome.Crashed?;
  }

  lemma SecondProcess(c: Context, a: Idea, b: Idea)
    requires WantsTwo(c) && Reviewable(c, a) && a.mechanism != b.mechanism
    ensures EndsWith(Reached(Drive(Play(c), map[Generate(0) := Ideas([a])], Rest(b), [], MOST_CALLS + 1)), [a, b])
  {
    hide Next;
    var memo := map[Generate(0) := Ideas([a])];
    NextBegins(c);
    NextRefills(c, a);
    NextReviews(c, a, b, false, []);
    NextReviews(c, a, b, false, [Silent]);
    CriticAsks(c, [a, b], 0);
    CriticEnds(c, [a, b], 0, [], []);
    assert [] + [Silent] == [Silent];
    var s2 := [Said([a])] + ([Said([b])] + []);
    var s3 := [Said([a])] + ([Said([b])] + [Silent]);
    assert [] + [Said([a])] == [Said([a])] && [Said([a])] + [Said([b])] == s2 && s2 + [Silent] == s3;
    assert Rest(b)[1..] == [Silent] && [Silent][1..] == [];
    var memo2 := memo[Call.Refill(0, 0) := Ideas([b])];
    assert EndsWith(Reached(Drive(Play(c), memo2[Critic(0) := Verdicts(map[])], [], s3, MOST_CALLS - 2)), [a, b]);
    assert EndsWith(Reached(Drive(Play(c), memo2, [Silent], s2, MOST_CALLS - 1)), [a, b]);
    assert EndsWith(Reached(Drive(Play(c), memo, Rest(b), [Said([a])], MOST_CALLS)), [a, b]);
  }

  /** After the failed refill: the critic is answered with [b], which it cannot use, and then
      with silence. */
  lemma AfterFailure(c: Context, a: Idea, b: Idea, memo: map<Call, Payload>)
    requires WantsTwo(c) && Reviewable(c, a) && a.mechanism != b.mechanism
    requires Critic(0) !in memo && Critic(1) !in memo
    ensures EndsWith(Reached(Drive(Play(c), memo, Rest(b), Begun(a), MOST_CALLS - 1)), [a])
  {
    hide Next, ReviewStage;
    NextReviews(c, a, b, true, []);
    NextReviews(c, a, b, true, [Said([b])]);
    NextReviews(c, a, b, true, [Said([b])] + [Silent]);
    CriticAsks(c, [a], 0);
    CriticReasks(c, [a], 0, [b]);
    CriticEnds(c, [a], 0, [Said([b])], [b]);
    var s2 := [Said([a])] + ([Failure] + []);
    var s3 := [Said([a])] + ([Failure] + [Said([b])]);
    var s4 := [Said([a])] + ([Failure] + ([Said([b])] + [Silent]));
    assert Begun(a) == s2 && s2 + [Said([b])] == s3 && s3 + [Silent] == s4;
    assert Rest(b)[1..] == [Silent] && [Silent][1..] == [];
    var memo2 := memo[Critic(0) := Ideas([b])];
    assert EndsWith(Reached(Drive(Play(c), memo2[Critic(1) := Verdicts(map[])], [], s4, MOST_CALLS - 3)), [a]);
    assert EndsWith(Reached(Drive(Play(c), memo2, [Silent], s3, MOST_CALLS - 2)), [a]);
  }

  lemma OneProcess(c: Context, a: Idea, b: Idea)
    requires WantsTwo(c) && Reviewable(c, a) && a.mechanism != b.mechanism
    ensures EndsWith(Reached(Drive(Play(c), map[], Begun(a) + Rest(b), [], MOST_CALLS + 1)), [a])
  {
    hide Next;
    NextBegins(c);
    NextRefills(c, a);
    var tape := Begun(a) + Rest(b);
    assert tape[1..] == [Failure] + Rest(b) && ([Failure] + Rest(b))[1..] == Rest(b);
    assert [] + [Said([a])] == [Said([a])] && [Said([a])] + [Failure] == Begun(a);
    var memo := map[Generate(0) := Ideas([a])];
    AfterFailure(c, a, b, memo);
    assert EndsWith(Reached(Drive(Play(c), memo, [Failure] + Rest(b), [Said([a])], MOST_CALLS)), [a]);
  }

  function Reached(t: Trail<Call, Payload, Round>): Move<Call, Round> {
    if t.outcome.Finished? then Done(t.outcome.result) else Ask(Generate(0))
  }

  /** Same context, same provider answers in the same order, other ideas: the process whose first
      refill failed crashed before the critic answered, and its successor refilled. */
  lemma FailedRefillIsForgotten(c: Context, a: Idea, b: Idea)
    requires WantsTwo(c) && Reviewable(c, a) && a.mechanism != b.mechanism
    ensures Resume(Play(c), map[], [Begun(a), Rest(b)], MOST_CALLS + 1).outcome
         != Drive(Play(c), map[], Begun(a) + Rest(b), [], MOST_CALLS + 1).outcome
  {
    hide Next, Drive;
    FirstProcess(c, a, b);
    SecondProcess(c, a, b);
    OneProcess(c, a, b);
    ResumeTwo(Play(c), map[], Begun(a), Rest(b), MOST_CALLS + 1);
    assert |[a]| != |[a, b]|;
  }
}
