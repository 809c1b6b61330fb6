/** What every round guarantees, whatever the model answers. */
module RoundProofs {
  import opened Common
  import opened Sorting
  import opened Replay
  import opened Round
  import opened BatchProofs
  import opened RoundPrefix
  import opened RoundTrace
  import Loop

  // ----- the gates -------------------------------------------------------------------

  lemma {:induction false} RankableHas(verdicts: seq<Kind>, i: nat)
    ensures i in Rankable(verdicts) <==> i < |verdicts| && !Suppresses(verdicts[i])
  {
    if verdicts != [] {
      var n := |verdicts| - 1;
      RankableHas(verdicts[..n], i);
      var tail: seq<nat> := if Suppresses(verdicts[n]) then [] else [n];
      assert i in Rankable(verdicts) <==> i in Rankable(verdicts[..n]) || i in tail;
    }
  }

  lemma {:induction false} RankableDistinct(verdicts: seq<Kind>)
    ensures Distinct(Rankable(verdicts))
  {
    if verdicts != [] {
      var n := |verdicts| - 1;
      RankableDistinct(verdicts[..n]);
      var rest := Rankable(verdicts[..n]);
      forall j | 0 <= j < |rest| ensures rest[j] != n {
        RankableHas(verdicts[..n], rest[j]);
        assert rest[j] in rest;
      }
    }
  }

  /** Rankable positions are exactly the unsuppressed ones, in order. */
  lemma RankableFacts(verdicts: seq<Kind>)
    ensures forall i: nat :: i in Rankable(verdicts) <==> i < |verdicts| && !Suppresses(verdicts[i])
    ensures Distinct(Rankable(verdicts))
  {
    forall i: nat ensures i in Rankable(verdicts) <==> i < |verdicts| && !Suppresses(verdicts[i]) { RankableHas(verdicts, i); }
    RankableDistinct(verdicts);
  }

  /** The critic's own verdict on the idea at i, when it gave a usable one that does not block. */
  predicate CriticPasses(kinds: map<int, Option<Kind>>, i: nat) {
    (i as int) in kinds && kinds[i].Some? && kinds[i].value.Other?
  }

  /** An idea goes on exactly when it cleared every gate, the critic's included. */
  lemma UnsuppressedPassedEveryGate(c: Context, ideas: seq<Idea>, kinds: map<int, Option<Kind>>, i: nat)
    requires i < |ideas|
    ensures !Suppresses(Verdict(c, ideas, kinds, i)) <==>
      && ideas[i].mechanism !in c.failed
      && (ideas[i].channel.NoChannel? || ideas[i].channel in c.channels)
      && !ideas[i].consentAsk && CriticPasses(kinds, i)
  {
  }

  /** The finalists name one or two different candidates of the n ranked ones, or none. */
  ghost predicate FinalistsOk(finalists: seq<int>, n: nat) {
    && |finalists| <= 2 && Distinct(finalists)
    && forall j :: 0 <= j < |finalists| ==> 1 <= finalists[j] <= n
  }

  predicate DecisionOk(decision: Option<seq<Ranked>>, n: nat) {
    decision.Some? ==> n >= 2 && ValidRanking(decision.value, n)
  }

  /** The challenger is one of the round's ideas, an unsuppressed one unless all were suppressed. */
  ghost predicate ChallengerOk(r: Round)
    requires r.Played?
  {
    && r.challenger < |r.ideas| == |r.verdicts|
    && (r.result.Suppressed? <==> forall i :: 0 <= i < |r.verdicts| ==> Suppresses(r.verdicts[i]))
    && (!r.result.Suppressed? ==> !Suppresses(r.verdicts[r.challenger]))
  }

  /** Only a usable screen can win or lose, and it wins exactly by the rule; without one the round
      is unavailable and stands for its first finalist, or its first candidate. */
  ghost predicate ResultOk(c: Context, r: Round)
    requires r.Played?
  {
    && (r.result.Suppressed? || r.result.Unavailable? ==> r.score.None?)
    && (r.result.Suppressed? ==> r.finalists == [])
    && (r.result.Unavailable? ==> NobodyScreened(r))
    && (r.result.Win? || r.result.Lose? ==>
          && (r.result.Win? <==> Loop.IsWin(c.state, r.score, c.config))
          && exists j: nat :: Chosen(r, j))
  }

  ghost predicate NobodyScreened(r: Round)
    requires r.Played?
  {
    var rankable := Rankable(r.verdicts);
    && rankable != [] && (forall j :: 0 <= j < |r.screens| ==> r.screens[j].None?)
    && r.challenger == if r.finalists != [] then At(rankable, r.finalists[0]) else rankable[0]
  }

  /** Finalist j is the challenger: no finalist that was screened scored above it, and none before
      it as high. */
  ghost predicate Chosen(r: Round, j: nat)
    requires r.Played?
  {
    && j < |r.finalists| == |r.screens|
    && r.challenger == At(Rankable(r.verdicts), r.finalists[j])
    && r.screens[j] == Some(r.score)
    && (forall k :: 0 <= k < |r.screens| && r.screens[k].Some? ==> !Above(r.screens[k].value, r.score))
    && (forall k :: 0 <= k < j && r.screens[k].Some? ==> Above(r.score, r.screens[k].value))
  }

  ghost predicate BatchOk(c: Context, ideas: seq<Idea>) {
    DistinctMechanisms(ideas) && 1 <= |ideas| <= c.count
  }

  /** The finalists are the first of the ranking, and the second when it is within the tie margin;
      the sole candidate when there is one, and nobody when there are none or ranking failed. */
  ghost predicate FinalistsAreTop(c: Context, n: nat, decision: Option<seq<Ranked>>, finalists: seq<int>) {
    if decision.Some? then
      exists one, two :: one in decision.value && two in decision.value && one.rank == 1 && two.rank == 2
        && finalists == if one.score - two.score <= c.config.tieMargin then [one.token, two.token] else [one.token]
    else finalists == if n == 1 then [1] else []
  }

  /** From the verdicts on: the decision and every used screen are replies the stage `s` asked
      for, the finalists are the top of the decision, and the result follows from the screens. */
  ghost predicate DecidedOn<R>(c: Context, s: Strategy<Call, Payload, R>, replies: seq<Reply>, r: Round)
    requires r.Played?
  {
    var n := |Rankable(r.verdicts)|;
    && DecisionOk(r.decision, n) && RankedBy(s, replies, r.decision)
    && FinalistsOk(r.finalists, n) && FinalistsAreTop(c, n, r.decision, r.finalists)
    && ScreenedBy(s, replies, r.finalists, r.screens)
    && ChallengerOk(r) && ResultOk(c, r)
  }

  /** What every committed round carries, by the replies it was played on. */
  ghost predicate RoundOk(c: Context, replies: seq<Reply>, r: Round) {
    r.Played? ==>
      && BatchOk(c, r.ideas) && (forall idea :: idea in r.ideas ==> GeneratedBy(Play(c), replies, idea))
      && ReviewedBy(Play(c), replies, c, r.ideas, r.verdicts)
      && DecidedOn(c, Play(c), replies, r)
  }

  lemma {:induction false} BestScreenIsBest(screens: seq<Screened>)
    ensures var b := BestScreen(screens);
      b.Some? ==> forall k :: 0 <= k < |screens| && screens[k].Some? ==> !Above(screens[k].value, screens[b.value].value)
  {
    if screens != [] {
      var n := |screens| - 1;
      BestScreenIsBest(screens[..n]);
      var best := BestScreen(screens[..n]);
      if best.None? {
        assert forall k :: 0 <= k < n ==> screens[..n][k] == screens[k];
      }
    }
  }

  /** Of equally scored finalists the first is chosen. */
  lemma {:induction false} BestScreenIsFirst(screens: seq<Screened>)
    ensures var b := BestScreen(screens);
      b.Some? ==> forall k :: 0 <= k < b.value && screens[k].Some? ==> Above(screens[b.value].value, screens[k].value)
  {
    if screens != [] {
      var n := |screens| - 1;
      BestScreenIsFirst(screens[..n]);
      BestScreenIsBest(screens[..n]);
      assert forall k :: 0 <= k < n ==> screens[..n][k] == screens[k];
    }
  }

  /** The finalists of a validated ranking are one or two different known tokens. */
  lemma FinalistsFacts(c: Context, n: nat, decision: Option<seq<Ranked>>)
    requires n >= 1 && DecisionOk(decision, n)
    requires decision.Some? ==> |decision.value| >= 2
    ensures FinalistsOk(Finalists(c, decision), n)
  {
    if decision.Some? {
      var r := decision.value;
      ValidatedTokens(r, n);
      RankedTokens(r, n, 0);
      RankedTokens(r, n, 1);
      TopTwoDiffer(r);
    }
  }

  lemma RankedTokens(r: seq<Ranked>, n: nat, i: nat)
    requires ValidRanking(r, n) && i < n
    ensures |ByRank(r)| == n && 1 <= ByRank(r)[i].token <= n && 1 <= ByRank(r)[i].rank <= n
  {
    ValidatedTokens(r, n);
    SortPermutes(ByRankOrder, r);
    PermutationKeeps(r, ByRank(r));
    assert ByRank(r)[i] in r;
  }

  lemma TopTwoDiffer(r: seq<Ranked>)
    requires Distinct(Tokens(r)) && |r| >= 2
    ensures |ByRank(r)| == |r| && ByRank(r)[0].token != ByRank(r)[1].token
  {
    SortPermutes(ByRankOrder, r);
    var order := ByRank(r);
    assert Distinct(r) by {
      forall i, j | 0 <= i < j < |r| ensures r[i] != r[j] { assert Tokens(r)[i] != Tokens(r)[j]; }
    }
    PermutationKeeps(r, order);
    assert order[0] in r && order[1] in r && order[0] != order[1];
    var i :| 0 <= i < |r| && r[i] == order[0];
    var j :| 0 <= j < |r| && r[j] == order[1];
    assert Tokens(r)[i] == order[0].token && Tokens(r)[j] == order[1].token;
  }

  /** by_rank puts rank n at position n: the ranks of a validated decision are 1..n in order. */
  lemma ByRankIsContiguous(r: seq<Ranked>, n: nat, i: nat)
    requires ValidRanking(r, n) && i < n
    ensures |ByRank(r)| == n && ByRank(r)[i].rank == i + 1
  {
    ValidatedTokens(r, n);
    SortPermutes(ByRankOrder, r);
    SortSorts(ByRankOrder, r);
    var order := ByRank(r);
    PermutationKeeps(r, order);
    forall a, b | 0 <= a < b < n ensures order[a].rank < order[b].rank {
      assert ByRankOrder(order[a], order[b]);
      RanksDiffer(r, order, a, b);
    }
    forall a | 0 <= a < n ensures 1 <= order[a].rank <= n { RankedTokens(r, n, a); }
    Climb(order, n, i);
  }

  lemma RanksDiffer(r: seq<Ranked>, order: seq<Ranked>, a: nat, b: nat)
    requires Distinct(Ranks(r)) && multiset(r) == multiset(order) && a < b < |order|
    ensures order[a].rank != order[b].rank
  {
    assert Distinct(r) by {
      forall i, j | 0 <= i < j < |r| ensures r[i] != r[j] { assert Ranks(r)[i] != Ranks(r)[j]; }
    }
    PermutationKeeps(r, order);
    assert order[a] in r && order[b] in r && order[a] != order[b];
    var i :| 0 <= i < |r| && r[i] == order[a];
    var j :| 0 <= j < |r| && r[j] == order[b];
    assert Ranks(r)[i] == order[a].rank && Ranks(r)[j] == order[b].rank;
  }

  /** n strictly increasing integers within 1..n are 1..n. */
  lemma Climb(order: seq<Ranked>, n: nat, i: nat)
    requires |order| == n && i < n
    requires forall a, b :: 0 <= a < b < n ==> order[a].rank < order[b].rank
    requires forall a :: 0 <= a < n ==> 1 <= order[a].rank <= n
    ensures order[i].rank == i + 1
  {
    ClimbLow(order, i);
    ClimbHigh(order, n - 1, i);
  }

  lemma {:induction false} ClimbLow(order: seq<Ranked>, i: nat)
    requires i < |order| && order[0].rank >= 1
    requires forall a, b :: 0 <= a < b < |order| ==> order[a].rank < order[b].rank
    ensures order[i].rank >= i + 1
  {
    if i > 0 { ClimbLow(order, i - 1); }
  }

  lemma {:induction false} ClimbHigh(order: seq<Ranked>, j: nat, i: nat)
    requires i <= j < |order|
    requires forall a, b :: 0 <= a < b < |order| ==> order[a].rank < order[b].rank
    ensures order[i].rank <= order[j].rank - (j - i)
    decreases j - i
  {
    if i < j { ClimbHigh(order, j, i + 1); }
  }

  lemma FinalistsTop(c: Context, n: nat, decision: Option<seq<Ranked>>)
    requires DecisionOk(decision, n)
    requires decision.Some? ==> |decision.value| >= 2
    ensures FinalistsAreTop(c, n, decision, Shortlist(c, n, decision))
  {
    if decision.Some? {
      var r := decision.value;
      ByRankIsContiguous(r, n, 0);
      ByRankIsContiguous(r, n, 1);
      SortPermutes(ByRankOrder, r);
      PermutationKeeps(r, ByRank(r));
      assert ByRank(r)[0] in r && ByRank(r)[1] in r;
    }
  }

  /** The challenger of a decided round is the rankable idea its best finalist, or failing that
      its first finalist or first rankable idea, stands for. */
  lemma ChallengerIsRankable(c: Context, ideas: seq<Idea>, verdicts: seq<Kind>, decision: Option<seq<Ranked>>,
                             finalists: seq<int>, screens: seq<Screened>)
    requires |screens| == |finalists| && Rankable(verdicts) != [] && FinalistsOk(finalists, |Rankable(verdicts)|)
    ensures Decide(c, ideas, verdicts, decision, finalists, screens).challenger in Rankable(verdicts)
  {
    var rankable := Rankable(verdicts);
    var best := BestScreen(screens);
    var j := if best.Some? then best.value else 0;
    if j < |finalists| { assert At(rankable, finalists[j]) in rankable; }
  }

  lemma DecideOk(c: Context, ideas: seq<Idea>, verdicts: seq<Kind>, decision: Option<seq<Ranked>>,
                 finalists: seq<int>, screens: seq<Screened>)
    requires ideas != [] && |verdicts| == |ideas| && |screens| == |finalists|
    requires FinalistsOk(finalists, |Rankable(verdicts)|)
    ensures var r := Decide(c, ideas, verdicts, decision, finalists, screens); ChallengerOk(r) && ResultOk(c, r)
  {
    hide FinalistsOk, BestScreen, Rankable;
    var rankable := Rankable(verdicts);
    var r := Decide(c, ideas, verdicts, decision, finalists, screens);
    RankableFacts(verdicts);
    assert forall i: nat :: i in rankable <==> i < |verdicts| && !Suppresses(verdicts[i]);
    if rankable != [] {
      ChallengerIsRankable(c, ideas, verdicts, decision, finalists, screens);
      assert rankable[0] in rankable;
      var best := BestScreen(screens);
      if best.Some? {
        BestScreenIsBest(screens);
        BestScreenIsFirst(screens);
        assert Chosen(r, best.value);
      }
    } else {
      assert forall i: nat :: i < |verdicts| ==> i !in rankable;
      FinalistsNeedCandidates(finalists, |rankable|);
    }
  }

  lemma FinalistsNeedCandidates(finalists: seq<int>, n: nat)
    requires FinalistsOk(finalists, n)
    ensures finalists != [] ==> n >= 1
  {
    if finalists != [] { assert 1 <= finalists[0] <= n; }
  }

  ghost predicate Keeps(r: Round, ideas: seq<Idea>, verdicts: seq<Kind>) {
    r.Played? && r.ideas == ideas && r.verdicts == verdicts
  }

  lemma ScreeningOk(c: Context, ideas: seq<Idea>, verdicts: seq<Kind>, decision: Option<seq<Ranked>>,
                    finalists: seq<int>, replies: seq<Reply>)
    requires ideas != [] && |verdicts| == |ideas| && FinalistsOk(finalists, |Rankable(verdicts)|)
    ensures var m := Screening(c, ideas, verdicts, decision, finalists, replies);
      m.Done? && m.result.Played? ==>
        && Keeps(m.result, ideas, verdicts) && m.result.decision == decision && m.result.finalists == finalists
        && ScreenedBy(ScreeningOf(c, ideas, verdicts, decision, finalists), replies, finalists, m.result.screens)
        && ChallengerOk(m.result) && ResultOk(c, m.result)
  {
    hide ChallengerOk, ResultOk, FinalistsOk, Rankable, Screens, BestScreen, ScreenedBy;
    var s := Screens(finalists, replies);
    if s.Got? && s.value.Some? && (finalists == [] || c.panel) {
      FinalistsScreened(c, ideas, verdicts, decision, finalists, replies);
      DecideOk(c, ideas, verdicts, decision, finalists, s.value.value);
    }
  }

  /** A ranking stage that ended played the round on `replies`. */
  ghost predicate RankedOk(c: Context, ideas: seq<Idea>, verdicts: seq<Kind>, replies: seq<Reply>, m: Move<Call, Round>) {
    m.Done? && m.result.Played? ==>
      Keeps(m.result, ideas, verdicts) && DecidedOn(c, RankingOf(c, ideas, verdicts), replies, m.result)
  }

  lemma UnrankedStageOk(c: Context, ideas: seq<Idea>, verdicts: seq<Kind>, replies: seq<Reply>)
    requires ideas != [] && |verdicts| == |ideas| && |Rankable(verdicts)| < 2
    ensures RankedOk(c, ideas, verdicts, replies, RankingStage(c, ideas, verdicts, replies))
  {
    hide Screening, ChallengerOk, ResultOk, Rankable, ScreenedBy, Answered, RankingStage, Screens;
    var n := |Rankable(verdicts)|;
    var finalists := Shortlist(c, n, None);
    ScreeningOk(c, ideas, verdicts, None, finalists, replies);
    UnrankedGoesOn(c, ideas, verdicts, replies);
    var outer := RankingOf(c, ideas, verdicts);
    var inner := ScreeningOf(c, ideas, verdicts, None, finalists);
    forall more ensures outer([] + more) == inner(more) {
      assert [] + more == more;
      UnrankedGoesOn(c, ideas, verdicts, more);
    }
    var m := inner(replies);
    if m.Done? && m.result.Played? {
      ScreenedLifts(outer, [], inner, replies, finalists, m.result.screens);
      assert [] + replies == replies;
    }
  }

  lemma RankedStageOk(c: Context, ideas: seq<Idea>, verdicts: seq<Kind>, replies: seq<Reply>)
    requires ideas != [] && |verdicts| == |ideas| && |Rankable(verdicts)| >= 2
    requires RankBatch(|Rankable(verdicts)|, replies).Got?
    ensures RankedOk(c, ideas, verdicts, replies, RankingStage(c, ideas, verdicts, replies))
  {
    hide Screening, ChallengerOk, ResultOk, Rankable, ScreenedBy, Answered, RankingStage, Screens, Continues, RankBatch;
    hide RankedBy, FinalistsAreTop, FinalistsOk, ValidRanking, Finalists;
    var n := |Rankable(verdicts)|;
    var d := RankBatch(n, replies);
    var finalists := Shortlist(c, n, d.value);
    RankingGoesOn(c, ideas, verdicts, replies, d.rest);
    RankingContinues(c, ideas, verdicts, replies);
    RankBatchSplits(n, replies, d.rest);
    UsedOneMore(d, replies, Failure);
    ShortlistOk(c, n, d.value);
    ScreeningOk(c, ideas, verdicts, d.value, finalists, d.rest);
    var outer := RankingOf(c, ideas, verdicts);
    var inner := ScreeningOf(c, ideas, verdicts, d.value, finalists);
    var m := Screening(c, ideas, verdicts, d.value, finalists, d.rest);
    if m.Done? && m.result.Played? {
      ScreenedLifts(outer, UsedBy(d, replies), inner, d.rest, finalists, m.result.screens);
      RankedIfDecided(c, ideas, verdicts, replies);
    }
  }

  lemma RankedIfDecided(c: Context, ideas: seq<Idea>, verdicts: seq<Kind>, replies: seq<Reply>)
    requires |Rankable(verdicts)| >= 2 && RankBatch(|Rankable(verdicts)|, replies).Got?
    ensures RankedBy(RankingOf(c, ideas, verdicts), replies, RankBatch(|Rankable(verdicts)|, replies).value)
  {
    hide RankBatch, Rankable;
    if RankBatch(|Rankable(verdicts)|, replies).value.Some? { RankerAnswered(c, ideas, verdicts, replies); }
  }

  lemma ShortlistOk(c: Context, n: nat, decision: Option<seq<Ranked>>)
    requires n >= 2 && DecisionOk(decision, n)
    requires decision.Some? ==> |decision.value| >= 2
    ensures FinalistsOk(Shortlist(c, n, decision), n) && FinalistsAreTop(c, n, decision, Shortlist(c, n, decision))
  {
    hide ValidRanking, Finalists, FinalistsAreTop;
    FinalistsFacts(c, n, decision);
    FinalistsTop(c, n, decision);
  }

  lemma RankingStageOk(c: Context, ideas: seq<Idea>, verdicts: seq<Kind>, replies: seq<Reply>)
    requires ideas != [] && |verdicts| == |ideas|
    ensures RankedOk(c, ideas, verdicts, replies, RankingStage(c, ideas, verdicts, replies))
  {
    hide Screening, DecidedOn, Rankable, RankBatch;
    var n := |Rankable(verdicts)|;
    if n < 2 {
      UnrankedStageOk(c, ideas, verdicts, replies);
    } else if RankBatch(n, replies).Got? {
      RankedStageOk(c, ideas, verdicts, replies);
    }
  }

  lemma DecidedLifts<R, Q>(c: Context, s: Strategy<Call, Payload, R>, used: seq<Reply>, inner: Strategy<Call, Payload, Q>,
                           rest: seq<Reply>, r: Round)
    requires r.Played? && Continues(s, used, inner) && DecidedOn(c, inner, rest, r)
    ensures DecidedOn(c, s, used + rest, r)
  {
    hide Continues, ChallengerOk, ResultOk, FinalistsOk, FinalistsAreTop, DecisionOk, Rankable, RankedBy, ScreenedBy;
    RankedLifts(s, used, inner, rest, r.decision);
    ScreenedLifts(s, used, inner, rest, r.finalists, r.screens);
  }

  /** A review stage that ended played the round on `replies`. */
  ghost predicate ReviewOk(c: Context, ideas: seq<Idea>, replies: seq<Reply>, m: Move<Call, Round>) {
    m.Done? && m.result.Played? ==>
      && m.result.ideas == ideas
      && ReviewedBy(Reviewing(c, ideas), replies, c, ideas, m.result.verdicts)
      && DecidedOn(c, Reviewing(c, ideas), replies, m.result)
  }

  lemma ReviewStageOk(c: Context, ideas: seq<Idea>, replies: seq<Reply>)
    requires ideas != []
    ensures ReviewOk(c, ideas, replies, ReviewStage(c, ideas, replies))
  {
    hide RankingStage, ReviewedBy, DecidedOn, Continues, Critique;
    var v := Critique(c, ideas, replies);
    if v.Got? && v.value.Some? {
      var verdicts := v.value.value;
      CriticAnswered(c, ideas, replies);
      RankingStageOk(c, ideas, verdicts, v.rest);
      ReviewContinues(c, ideas, replies);
      CritiqueSplits(c, ideas, replies, v.rest);
      UsedOneMore(v, replies, Failure);
      var m := RankingStage(c, ideas, verdicts, v.rest);
      if m.Done? && m.result.Played? {
        DecidedLifts(c, Reviewing(c, ideas), UsedBy(v, replies), RankingOf(c, ideas, verdicts), v.rest, m.result);
      }
    }
  }

  lemma PlayedBatchIsGenerated(c: Context, replies: seq<Reply>)
    requires var b := Batch(c, replies); b.Got? && b.value.Some?
    ensures forall idea :: idea in Batch(c, replies).value.value ==> GeneratedBy(Play(c), replies, idea)
  {
    hide Batch, ReviewStage;
    forall idea | idea in Batch(c, replies).value.value ensures GeneratedBy(Play(c), replies, idea) {
      BatchGenerates(c, replies, idea);
      var key: Call, items :| (key.Generate? || key.Refill?) && Answered(Batching(c), replies, key, Ideas(items)) && idea in items;
      AnsweredBegins(Play(c), Batching(c), replies, key, Ideas(items));
    }
  }

  /** Whatever the model answered, a finished round is well formed. */
  lemma EveryRoundIsOk(c: Context, replies: seq<Reply>, r: Round)
    requires c.count >= 1 && Next(c, replies) == Done(r)
    ensures RoundOk(c, replies, r)
  {
    hide Batch, ReviewStage, ReviewedBy, DecidedOn, Continues, GeneratedBy;
    var b := Batch(c, replies);
    if b.Got? && b.value.Some? && r.Played? {
      var ideas := b.value.value;
      BatchFacts(c, replies);
      PlayedBatchIsGenerated(c, replies);
      ReviewStageOk(c, ideas, b.rest);
      NextContinues(c, replies);
      BatchSplits(c, replies, b.rest);
      UsedOneMore(b, replies, Failure);
      ReviewedLifts(Play(c), UsedBy(b, replies), Reviewing(c, ideas), b.rest, c, ideas, r.verdicts);
      DecidedLifts(c, Play(c), UsedBy(b, replies), Reviewing(c, ideas), b.rest, r);
    }
  }

  /** The idea at i cleared the recently-failed, channel and consent gates, and the critic of the
      round gave a usable verdict on it that does not block. */
  ghost predicate ClearedEveryGate(c: Context, replies: seq<Reply>, ideas: seq<Idea>, i: nat)
    requires i < |ideas|
  {
    && ideas[i].mechanism !in c.failed
    && (ideas[i].channel.NoChannel? || ideas[i].channel in c.channels)
    && !ideas[i].consentAsk
    && exists kinds :: CriticSaid(Play(c), replies, kinds) && CriticPasses(kinds, i)
  }

  /** Finalist j won: it is the challenger, its screen is the panel's reply, and no screened
      finalist scored above it. */
  ghost predicate WonBy(c: Context, replies: seq<Reply>, r: Round, j: nat)
    requires r.Played?
  {
    Chosen(r, j) && Answered(Play(c), replies, Screen(r.finalists[j]), Reactions(r.score))
  }

  /** The challenger is a screened finalist of the ranker's decision (or the sole candidate) that
      cleared every gate and beat the best by the rule. */
  ghost predicate ChampionOk(c: Context, replies: seq<Reply>, r: Round)
    requires r.Played?
  {
    && r.challenger < |r.ideas| && ClearedEveryGate(c, replies, r.ideas, r.challenger)
    && DecisionOk(r.decision, |Rankable(r.verdicts)|) && RankedBy(Play(c), replies, r.decision)
    && FinalistsAreTop(c, |Rankable(r.verdicts)|, r.decision, r.finalists)
    && Loop.IsWin(c.state, r.score, c.config) && exists j: nat :: WonBy(c, replies, r, j)
  }

  /** Every champion passed every gate. */
  lemma EveryChampionPassedEveryGate(c: Context, replies: seq<Reply>)
    requires c.count >= 1
    ensures var m := Next(c, replies); m.Done? && m.result.Played? && m.result.result.Win? ==> ChampionOk(c, replies, m.result)
  {
    hide Next;
    var m := Next(c, replies);
    if m.Done? && m.result.Played? && m.result.result.Win? {
      EveryRoundIsOk(c, replies, m.result);
      WinnerIsOk(c, replies, m.result);
    }
  }

  lemma WinnerCleared(c: Context, replies: seq<Reply>, ideas: seq<Idea>, verdicts: seq<Kind>, i: nat)
    requires ReviewedBy(Play(c), replies, c, ideas, verdicts) && i < |ideas| && |verdicts| == |ideas| && !Suppresses(verdicts[i])
    ensures ClearedEveryGate(c, replies, ideas, i)
  {
    hide CriticSaid;
    var kinds :| verdicts == AllVerdicts(c, ideas, kinds) && (NeedsCritic(c, ideas) ==> CriticSaid(Play(c), replies, kinds));
    UnsuppressedPassedEveryGate(c, ideas, kinds, i);
    assert PreGate(c, ideas[i]).None?;
  }

  lemma WinnerIsOk(c: Context, replies: seq<Reply>, r: Round)
    requires RoundOk(c, replies, r) && r.Played? && r.result.Win?
    ensures ChampionOk(c, replies, r)
  {
    hide ReviewedBy, ClearedEveryGate, RankedBy, FinalistsAreTop, DecisionOk, FinalistsOk, GeneratedBy, Answered;
    WinnerCleared(c, replies, r.ideas, r.verdicts, r.challenger);
    var j: nat :| Chosen(r, j);
    assert PanelSaid(Play(c), replies, r.finalists[j], r.screens[j]);
    assert WonBy(c, replies, r, j);
  }
}
