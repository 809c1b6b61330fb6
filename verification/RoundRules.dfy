/** What a round makes of each answer: which gate a verdict names, when the critic is asked, which
    rankings are accepted, and what a panel's reply decides. */
module RoundRules {
  import opened Common
  import opened Sorting
  import opened Replay
  import opened Round
  import Loop

  // ----- asking again ----------------------------------------------------------------

  /** A call is asked three times, each under its own key; the first answer that parses is taken and
      the third that does not ends it. */
  lemma ThreeAttempts<V>(key: nat -> Call, parse: Payload -> Option<V>, a: Payload, b: Payload, last: Payload, rest: seq<Reply>)
    requires parse(a).None? && parse(b).None?
    ensures JsonCall(key, 0, parse, []) == Want(key(0))
    ensures JsonCall(key, 0, parse, [Text(a)]) == Want(key(1))
    ensures JsonCall(key, 0, parse, [Text(a), Text(b)]) == Want(key(2))
    ensures JsonCall(key, 0, parse, [Text(a), Text(b), Text(last)] + rest) == Got(parse(last), rest)
    ensures JsonCall(key, 0, parse, [Text(a), Text(b), Failure] + rest) == Got(None, rest)
  {
    assert [Text(a)][1..] == [] && [Text(a), Text(b)][1..] == [Text(b)] && [Text(b)][1..] == [];
    AfterTwo(key, parse, a, b, Text(last), rest);
    AfterTwo(key, parse, a, b, Failure, rest);
  }

  lemma AfterTwo<V>(key: nat -> Call, parse: Payload -> Option<V>, a: Payload, b: Payload, c: Reply, rest: seq<Reply>)
    requires parse(a).None? && parse(b).None?
    ensures JsonCall(key, 0, parse, [Text(a), Text(b), c] + rest) == JsonCall(key, 2, parse, [c] + rest)
    ensures ([c] + rest)[1..] == rest
  {
    var all := [Text(a), Text(b), c] + rest;
    assert all[1..] == [Text(b), c] + rest && all[1..][1..] == [c] + rest;
  }

  lemma EndsDead<V>(key: nat -> Call, parse: Payload -> Option<V>, dead: seq<Reply>)
    requires dead == [Failure] || (|dead| == 3 && forall i :: 0 <= i < 3 ==> dead[i].Text? && parse(dead[i].value).None?)
    ensures JsonCall(key, 0, parse, dead) == Got(None, [])
  {
    if dead != [Failure] {
      ThreeAttempts(key, parse, dead[0].value, dead[1].value, dead[2].value, []);
      assert dead == [Text(dead[0].value), Text(dead[1].value), Text(dead[2].value)] + [];
    }
  }

  /** A first generation or a critic that is dead, by a provider failure or three useless answers, fails
      the round: it never goes on with what it has. */
  lemma DeadStageFailsRound(c: Context, ideas: seq<Idea>, dead: seq<Reply>)
    requires dead == [Failure] || (|dead| == 3 && forall i :: 0 <= i < 3 ==> dead[i].Text?)
    ensures dead == [Failure] || (forall i :: 0 <= i < 3 ==> ParseIdeas(dead[i].value).None?) ==> Next(c, dead) == Done(Failed)
    ensures NeedsCritic(c, ideas) && (dead == [Failure] || (forall i :: 0 <= i < 3 ==> !dead[i].value.Verdicts?)) ==>
      ReviewStage(c, ideas, dead) == Done(Failed)
  {
    hide JsonCall;
    if dead == [Failure] || (forall i :: 0 <= i < 3 ==> ParseIdeas(dead[i].value).None?) {
      EndsDead((a: nat) => Call.Generate(a), ParseIdeas, dead);
    }
    if dead == [Failure] || (forall i :: 0 <= i < 3 ==> !dead[i].value.Verdicts?) {
      EndsDead((a: nat) => Call.Critic(a), ParseVerdicts, dead);
    }
  }

  // ----- the gates -------------------------------------------------------------------

  /** The mechanism did not fail for the Pro lately, and the channel, if any, is one of its own. */
  predicate PassesFreeGates(c: Context, idea: Idea) {
    idea.mechanism !in c.failed && (idea.channel == NoChannel || idea.channel in c.channels)
  }

  /** A verdict names the first gate that refused: the Pro's failures, then its channels, then the
      critic, silence being a refusal, and last the consent rule. */
  lemma VerdictNamesFirstGate(c: Context, ideas: seq<Idea>, kinds: map<int, Option<Kind>>, i: nat)
    requires i < |ideas|
    ensures var v := Verdict(c, ideas, kinds, i); var idea := ideas[i]; var said := (i as int) in kinds && kinds[i].Some?;
      && (idea.mechanism in c.failed ==> v == RecentlyFailed)
      && (idea.mechanism !in c.failed && !PassesFreeGates(c, idea) ==> v == InfeasibleChannel)
      && (PassesFreeGates(c, idea) && !said ==> v == Unreviewed)
      && (PassesFreeGates(c, idea) && said && !kinds[i].value.Other? ==> v == kinds[i].value)
      && (PassesFreeGates(c, idea) && said && kinds[i].value.Other? ==>
            v == if idea.consentAsk then ConsentAsk else kinds[i].value)
  {
  }

  /** The critic is asked exactly when some idea passes both free gates, and whatever list of verdicts
      it answers is taken. */
  lemma CriticIsAskedExactly(c: Context, ideas: seq<Idea>, kinds: map<int, Option<Kind>>)
    ensures Critique(c, ideas, []) == Want(Critic(0)) <==> exists i :: 0 <= i < |ideas| && PassesFreeGates(c, ideas[i])
    ensures NeedsCritic(c, ideas) ==> Critique(c, ideas, [Text(Verdicts(kinds))]) == Got(Some(AllVerdicts(c, ideas, kinds)), [])
  {
    if i :| 0 <= i < |ideas| && PassesFreeGates(c, ideas[i]) { assert PreGate(c, ideas[i]).None?; }
    if NeedsCritic(c, ideas) {
      var i :| 0 <= i < |ideas| && PreGate(c, ideas[i]).None?;
      assert PassesFreeGates(c, ideas[i]);
    }
  }

  ghost predicate Rising(r: seq<nat>, n: nat) {
    && (forall i :: 0 <= i < |r| ==> r[i] < n)
    && (forall i, j :: 0 <= i < j < |r| ==> r[i] < r[j])
  }

  lemma RisingSnoc(r: seq<nat>, n: nat)
    requires Rising(r, n)
    ensures Rising(r, n + 1) && Rising(r + [n], n + 1) && r + [] == r
  {
  }

  /** Tokens follow the order of the batch: c1 is its first unsuppressed idea. */
  lemma {:induction false} TokensFollowBatch(verdicts: seq<Kind>)
    ensures Rising(Rankable(verdicts), |verdicts|)
  {
    hide Rising;
    if verdicts == [] {
      NoneRise();
    } else {
      var n: nat := |verdicts| - 1;
      TokensFollowBatch(verdicts[..n]);
      RisingSnoc(Rankable(verdicts[..n]), n);
    }
  }

  lemma NoneRise()
    ensures Rising([], 0)
  {
  }

  // ----- the ranking -----------------------------------------------------------------

  /** Each of 1..n exactly once. */
  ghost predicate Numbers(s: seq<int>, n: nat) {
    |s| == n && Distinct(s) && forall x :: x in s ==> 1 <= x <= n
  }

  lemma {:induction false} DistinctSize(s: seq<int>)
    requires Distinct(s)
    ensures |set x | x in s| == |s|
  {
    if s == [] {
      assert (set x | x in s) == {};
    } else {
      var n := |s| - 1;
      DistinctSize(s[..n]);
      assert s == s[..n] + [s[n]];
      assert (set x | x in s) == (set x | x in s[..n]) + {s[n]};
    }
  }

  lemma NumbersAreUpTo(s: seq<int>, n: nat)
    ensures multiset(s) == multiset(UpTo(n)) <==> Numbers(s, n)
  {
    UpToIsDistinct(n);
    if multiset(s) == multiset(UpTo(n)) { PermutationKeeps(s, UpTo(n)); }
    if Numbers(s, n) {
      DistinctSize(s);
      DistinctSize(UpTo(n));
      var some, all := set x | x in s, set x | x in UpTo(n);
      forall x | x in some ensures x in all { assert x in s && x in UpTo(n); }
      assert |all - some| == |all| - |some|;
      assert some == all;
      DistinctCounts(s);
      DistinctCounts(UpTo(n));
      forall x ensures multiset(s)[x] == multiset(UpTo(n))[x] { assert x in s <==> x in some; assert x in UpTo(n) <==> x in all; }
    }
  }

  /** A ranking of n candidates is accepted exactly when it gives each of them one rank of its own
      and a score between zero and one; anything else is asked again. */
  lemma RankingIsAcceptedExactly(n: nat, r: seq<Ranked>)
    requires n >= 2
    ensures RankBatch(n, [Text(Payload.Ranking(r))]) ==
      if Numbers(Tokens(r), n) && Numbers(Ranks(r), n) && (forall i :: 0 <= i < |r| ==> 0.0 <= r[i].score <= 1.0)
      then Got(Some(r), []) else Want(Rank(1))
  {
    hide Tokens, Ranks, UpTo;
    NumbersAreUpTo(Tokens(r), n);
    NumbersAreUpTo(Ranks(r), n);
    if Numbers(Ranks(r), n) {
      forall i | 0 <= i < |r| ensures r[i].rank >= 1 { RankIsIn(r, i); }
    }
  }

  lemma RankIsIn(r: seq<Ranked>, i: nat)
    requires i < |r|
    ensures r[i].rank in Ranks(r)
  {
    assert Ranks(r)[i] == r[i].rank;
  }

  // ----- the panel -------------------------------------------------------------------

  /** A sole survivor goes to the panel unranked: a failed call fails the round, a reply that is no
      reaction leaves it unavailable, a reaction without a usable score loses, and one with a score
      wins exactly when it clears the floor or beats the best by the keep delta. */
  lemma SoleSurvivorIsJudged(c: Context, ideas: seq<Idea>, verdicts: seq<Kind>, reply: Reply)
    requires |Rankable(verdicts)| == 1
    ensures !c.panel ==> RankingStage(c, ideas, verdicts, [reply]) == Done(Abstained)
    ensures c.panel ==> RankingStage(c, ideas, verdicts, []) == Ask(Screen(1))
    ensures c.panel && reply.Failure? ==> RankingStage(c, ideas, verdicts, [reply]) == Done(Failed)
    ensures c.panel && reply.Text? ==>
      var screen := if reply.value.Reactions? then Some(reply.value.score) else None;
      var score := if reply.value.Reactions? then reply.value.score else None;
      var best := c.state.bestScore;
      var beats := score.Some? && score.value >= (if best.Some? then best.value + c.config.keepDelta else 1.0);
      RankingStage(c, ideas, verdicts, [reply]) ==
        Done(Played(ideas, verdicts, None, [1], [screen],
                    if screen.None? then Loop.Unavailable else if beats then Loop.Win else Loop.Lose,
                    Rankable(verdicts)[0], score))
  {
    OneScreen(reply);
  }

  lemma OneScreen(reply: Reply)
    ensures Screens([1], []) == Want(Screen(1))
    ensures Screens([1], [reply]) == if reply.Failure? then Got(None, []) else Got(Some([ScreenOf(reply.value)]), [])
  {
    assert [1][..0] == [] && [reply][1..] == [];
    assert Screens([], [reply]) == Got(Some([]), [reply]) && Screens([], []) == Got(Some([]), []);
    assert reply.Text? ==> [] + [ScreenOf(reply.value)] == [ScreenOf(reply.value)];
  }
}
