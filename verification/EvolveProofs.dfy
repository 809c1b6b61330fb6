/** What holds at every commit of every run of the evolve stage, crashes included. */
module EvolveProofs {
  import opened Common
  import opened Sorting
  import opened Round
  import opened RoundProofs
  import opened Evolve
  import Loop

  /** One process step: a round is played to its end from the live state and committed under
      fresh candidate ids, or the process dies and its successor replays the ledger. */
  datatype Event = Round(context: Context, replies: seq<Reply>, ids: seq<string>) | Crash

  ghost predicate Fresh(candidates: map<string, Status>, ids: seq<string>) {
    Distinct(ids) && forall i :: 0 <= i < |ids| ==> ids[i] !in candidates
  }

  ghost predicate Enabled(s: Evolution, e: Event, c: Loop.Config) {
    e.Round? ==>
      && e.context.state == s.live && e.context.config == c && e.context.count >= 1
      && Loop.StopReason(s.live, c).None?
      && Next(e.context, e.replies).Done? && Next(e.context, e.replies).result.Played?
      && |e.ids| == |Next(e.context, e.replies).result.ideas| && Fresh(s.candidates, e.ids)
  }

  ghost function Played(e: Event): Committed
    requires e.Round? && Next(e.context, e.replies).Done?
  {
    Committed(Next(e.context, e.replies).result, e.ids)
  }

  /** A round as Next ends it, played from state `from`. */
  ghost predicate Lawful(from: Loop.State, x: Committed, c: Loop.Config) {
    && Committable(x.round, x.ids) && ChallengerOk(x.round)
    && DecisionOk(x.round.decision, |Rankable(x.round.verdicts)|)
    && x.round.result.Win? == Loop.IsWin(from, x.round.score, c)
  }

  lemma EnabledIsLawful(s: Evolution, e: Event, c: Loop.Config)
    requires e.Round? && Enabled(s, e, c)
    ensures Lawful(s.live, Played(e), c)
  {
    hide Next, Rankable, ValidRanking;
    EveryRoundIsOk(e.context, e.replies, Next(e.context, e.replies).result);
  }

  // ----- the invariant ---------------------------------------------------------------

  ghost predicate AllCommittable(rounds: seq<Committed>) {
    forall k :: 0 <= k < |rounds| ==>
      Committable(rounds[k].round, rounds[k].ids) && ChallengerOk(rounds[k].round)
      && DecisionOk(rounds[k].round.decision, |Rankable(rounds[k].round.verdicts)|)
  }

  function Plays(rounds: seq<Committed>): (r: seq<Loop.Play>)
    requires forall k :: 0 <= k < |rounds| ==> Committable(rounds[k].round, rounds[k].ids)
    ensures |r| == |rounds|
  {
    seq(|rounds|, k requires 0 <= k < |rounds| => PlayOf(rounds[k]))
  }

  /** The champion rows are exactly the replayed best candidate, if there is one. */
  ghost predicate Crowned(candidates: map<string, Status>, best: Option<string>) {
    && (forall id :: id in candidates && candidates[id].Champion? <==> best == Some(id))
  }

  ghost predicate Inv(s: Evolution, c: Loop.Config) {
    && AllCommittable(s.rounds)
    && s.ledger == Loop.Ledger(Plays(s.rounds))
    && Loop.Agree(s.live, Loop.Replayed(s.ledger, c))
    && Crowned(s.candidates, Loop.Replayed(s.ledger, c).bestId)
  }

  // ----- candidate rows --------------------------------------------------------------

  lemma {:induction false} CandidatesAdded(candidates: map<string, Status>, r: Round, ids: seq<string>, n: nat, id: string)
    requires Committable(r, ids) && n <= |ids| && Fresh(candidates, ids)
    ensures id in WithCandidates(candidates, r, ids, n) <==> id in candidates || id in ids[..n]
    ensures id in candidates ==> WithCandidates(candidates, r, ids, n)[id] == candidates[id]
    ensures forall i :: 0 <= i < n && ids[i] == id ==>
      id in WithCandidates(candidates, r, ids, n) && WithCandidates(candidates, r, ids, n)[id] == StatusOf(r, i)
  {
    if n > 0 {
      CandidatesAdded(candidates, r, ids, n - 1, id);
      assert ids[..n] == ids[..n - 1] + [ids[n - 1]];
    }
  }

  /** Exactly the winning challenger's new row is a champion. */
  lemma NewChampions(candidates: map<string, Status>, r: Round, ids: seq<string>, id: string)
    requires Committable(r, ids) && ChallengerOk(r) && Fresh(candidates, ids)
    ensures var added := WithCandidates(candidates, r, ids, |ids|);
      id in added && added[id].Champion? <==>
        (id in candidates && candidates[id].Champion?) || (r.result.Win? && id == ids[r.challenger])
  {
    CandidatesAdded(candidates, r, ids, |ids|, id);
    assert ids[..|ids|] == ids;
    if id in ids {
      var i :| 0 <= i < |ids| && ids[i] == id;
      assert id == ids[r.challenger] ==> i == r.challenger;
    }
  }

  /** A winning round dethrones the old champion and crowns its challenger; any other round
      changes no champion row. */
  lemma CommitCrowns(s: Evolution, x: Committed, c: Loop.Config)
    requires Lawful(s.live, x, c) && Fresh(s.candidates, x.ids) && Crowned(s.candidates, s.live.bestId)
    ensures Crowned(Commit(s, x, c).candidates, if x.round.result.Win? then Some(x.ids[x.round.challenger]) else s.live.bestId)
  {
    var added := WithCandidates(s.candidates, x.round, x.ids, |x.ids|);
    var after := Commit(s, x, c).candidates;
    forall id ensures id in after && after[id].Champion? <==>
        (if x.round.result.Win? then Some(x.ids[x.round.challenger]) else s.live.bestId) == Some(id)
    {
      NewChampions(s.candidates, x.round, x.ids, id);
    }
  }

  // ----- what the ledger row remembers -----------------------------------------------

  lemma {:induction false} OthersHas(ideas: seq<Idea>, challenger: nat, n: nat, m: string)
    requires n <= |ideas|
    ensures m in Others(ideas, challenger, n) <==> exists i :: 0 <= i < n && i != challenger && ideas[i].mechanism == m
  {
    if n > 0 {
      OthersHas(ideas, challenger, n - 1, m);
    }
  }

  ghost predicate Ranks(r: Round, m: string)
    requires r.Played?
  {
    exists i: nat :: i < |r.ideas| == |r.verdicts| && !Suppresses(r.verdicts[i]) && r.ideas[i].mechanism == m
  }

  lemma UnrankedOrderHas(r: Round, m: string)
    requires r.Played? && |r.ideas| == |r.verdicts| && r.decision.None?
    ensures m in OrderOf(r) <==> Ranks(r, m)
  {
    var rankable := Rankable(r.verdicts);
    var names := OrderOf(r);
    RankableFacts(r.verdicts);
    if m in names {
      var k :| 0 <= k < |names| && names[k] == m;
      assert rankable[k] in rankable;
    }
    if Ranks(r, m) {
      var i: nat :| i < |r.ideas| && !Suppresses(r.verdicts[i]) && r.ideas[i].mechanism == m;
      assert i in rankable;
      var k :| 0 <= k < |rankable| && rankable[k] == i;
      assert names[k] == m;
    }
  }

  /** In a validated ranking every token from 1 to n is ranked. */
  lemma EveryTokenRanked(d: seq<Ranked>, n: nat, t: int)
    requires ValidRanking(d, n) && 1 <= t <= n
    ensures exists k :: 0 <= k < |ByRank(d)| && ByRank(d)[k].token == t
  {
    UpToIsDistinct(n);
    PermutationKeeps(Tokens(d), UpTo(n));
    SortPermutes(ByRankOrder, d);
    PermutationKeeps(d, ByRank(d));
    assert t in Tokens(d);
    var j :| 0 <= j < |Tokens(d)| && Tokens(d)[j] == t;
    assert d[j] in ByRank(d);
  }

  lemma RankedOrderHas(r: Round, m: string)
    requires r.Played? && |r.ideas| == |r.verdicts| && r.decision.Some?
    requires DecisionOk(r.decision, |Rankable(r.verdicts)|)
    ensures m in OrderOf(r) <==> Ranks(r, m)
  {
    hide ValidRanking;
    var rankable := Rankable(r.verdicts);
    var d := r.decision.value;
    var order := ByRank(d);
    var names := OrderOf(r);
    RankableFacts(r.verdicts);
    if m in names {
      var k :| 0 <= k < |names| && names[k] == m;
      OrderLength(d, |rankable|);
      RankedTokens(d, |rankable|, k);
      assert rankable[order[k].token - 1] in rankable;
    }
    if Ranks(r, m) {
      RankedInOrder(r, m);
    }
  }

  lemma RankedInOrder(r: Round, m: string)
    requires r.Played? && |r.ideas| == |r.verdicts| && r.decision.Some?
    requires DecisionOk(r.decision, |Rankable(r.verdicts)|) && Ranks(r, m)
    ensures m in OrderOf(r)
  {
    hide ValidRanking;
    var rankable := Rankable(r.verdicts);
    var order := ByRank(r.decision.value);
    RankableFacts(r.verdicts);
    var i: nat :| i < |r.ideas| && !Suppresses(r.verdicts[i]) && r.ideas[i].mechanism == m;
    assert i in rankable;
    var t :| 0 <= t < |rankable| && rankable[t] == i;
    EveryTokenRanked(r.decision.value, |rankable|, t + 1);
    var k :| 0 <= k < |order| && order[k].token == t + 1;
    assert OrderOf(r)[k] == m;
  }

  lemma OrderLength(d: seq<Ranked>, n: nat)
    requires ValidRanking(d, n)
    ensures |ByRank(d)| == n
  {
    ValidatedTokens(d, n);
    SortPermutes(ByRankOrder, d);
  }

  /** The audit trail's order names exactly the mechanisms of the rankable ideas. */
  lemma OrderHas(r: Round, m: string)
    requires r.Played? && |r.ideas| == |r.verdicts| && DecisionOk(r.decision, |Rankable(r.verdicts)|)
    ensures m in OrderOf(r) <==> Ranks(r, m)
  {
    if r.decision.None? { UnrankedOrderHas(r, m); } else { RankedOrderHas(r, m); }
  }

  lemma OrderIsFromBatch(x: Committed)
    requires Committable(x.round, x.ids) && DecisionOk(x.round.decision, |Rankable(x.round.verdicts)|)
    ensures Loop.OrderFromBatch(PlayOf(x))
  {
    var r := x.round;
    var p := PlayOf(x);
    forall k | 0 <= k < |p.order| ensures p.order[k] == p.mechanism || p.order[k] in p.others {
      assert p.order[k] in p.order;
      OrderHas(r, p.order[k]);
      OthersHas(r.ideas, r.challenger, |r.ideas|, p.order[k]);
    }
  }

  // ----- every run -------------------------------------------------------------------

  ghost function Step(s: Evolution, e: Event, c: Loop.Config): Evolution
    requires Enabled(s, e, c)
  {
    if e.Round? then EnabledIsLawful(s, e, c); Commit(s, Played(e), c) else Evolve.Crash(s, c)
  }

  lemma PlaysGrow(rounds: seq<Committed>, x: Committed)
    requires AllCommittable(rounds) && Committable(x.round, x.ids)
    ensures forall k :: 0 <= k <= |rounds| ==> Committable((rounds + [x])[k].round, (rounds + [x])[k].ids)
    ensures Plays(rounds + [x]) == Plays(rounds) + [PlayOf(x)]
  {
  }

  lemma CommitKeepsInv(s: Evolution, x: Committed, c: Loop.Config)
    requires Inv(s, c) && Lawful(s.live, x, c) && Fresh(s.candidates, x.ids)
    ensures Inv(Commit(s, x, c), c)
  {
    hide Rankable, ValidRanking, OrderOf, Others;
    var after := Commit(s, x, c);
    var p := PlayOf(x);
    PlaysGrow(s.rounds, x);
    Loop.LedgerGrows(Plays(s.rounds), p);
    assert after.ledger == Loop.Ledger(Plays(after.rounds));
    OrderIsFromBatch(x);
    Loop.RoundKeepsAgreement(s.live, Loop.Replayed(s.ledger, c), p, c);
    assert after.ledger[..|s.ledger|] == s.ledger;
    CommitCrowns(s, x, c);
  }

  lemma CrashKeepsInv(s: Evolution, c: Loop.Config)
    requires Inv(s, c)
    ensures Inv(Evolve.Crash(s, c), c)
  {
  }

  ghost predicate Runs(s: Evolution, events: seq<Event>, c: Loop.Config)
    decreases |events|
  {
    events == [] || (Enabled(s, events[0], c) && Runs(Step(s, events[0], c), events[1..], c))
  }

  ghost function After(s: Evolution, events: seq<Event>, c: Loop.Config): Evolution
    requires Runs(s, events, c)
    decreases |events|
  {
    if events == [] then s else After(Step(s, events[0], c), events[1..], c)
  }

  lemma {:induction false} EveryRunKeepsInv(s: Evolution, events: seq<Event>, c: Loop.Config)
    requires Inv(s, c) && Runs(s, events, c)
    ensures Inv(After(s, events, c), c)
    decreases |events|
  {
    hide Inv, Commit, Evolve.Crash, Next, Lawful;
    if events != [] {
      var e := events[0];
      var next := Step(s, e, c);
      if e.Round? {
        EnabledIsLawful(s, e, c);
        LawfulCommits(s, Played(e), c);
        CommitKeepsInv(s, Played(e), c);
      } else {
        CrashKeepsInv(s, c);
      }
      EveryRunKeepsInv(next, events[1..], c);
    }
  }

  lemma LawfulCommits(s: Evolution, x: Committed, c: Loop.Config)
    requires Lawful(s.live, x, c)
    ensures Committable(x.round, x.ids)
  {
  }

  lemma StartIsInv(c: Loop.Config)
    ensures Inv(Start, c)
  {
  }

  /** At every commit of every run, whatever was interrupted, a candidate is champion exactly when
      it is the best candidate of the replayed ledger: at most one, and none before the first win. */
  lemma ChampionIsReplayedBest(events: seq<Event>, c: Loop.Config)
    requires Runs(Start, events, c)
    ensures var s := After(Start, events, c);
      forall id :: id in s.candidates && s.candidates[id].Champion? <==> Loop.Replayed(s.ledger, c).bestId == Some(id)
  {
    StartIsInv(c);
    EveryRunKeepsInv(Start, events, c);
  }

  /** The state a process holds and the state its successor replays decide alike. */
  lemma LiveAgreesWithLedger(events: seq<Event>, c: Loop.Config)
    requires Runs(Start, events, c)
    ensures var s := After(Start, events, c);
      && AllCommittable(s.rounds) && s.ledger == Loop.Ledger(Plays(s.rounds))
      && Loop.Agree(s.live, Loop.Replayed(s.ledger, c))
  {
    StartIsInv(c);
    EveryRunKeepsInv(Start, events, c);
  }

  /** However often it was interrupted, the loop shifts exactly when its committed rounds say so. */
  lemma ModeFollowsRounds(events: seq<Event>, c: Loop.Config)
    requires Runs(Start, events, c)
    ensures var s := After(Start, events, c);
      && AllCommittable(s.rounds)
      && var plays := Plays(s.rounds);
         Loop.NextMode(s.live, c) == Loop.Shift <==> plays != [] && Loop.Streak(plays) >= c.patience
  {
    LiveAgreesWithLedger(events, c);
    var s := After(Start, events, c);
    Loop.ReplayedModeMeans(Plays(s.rounds), c);
    Loop.ReplayedMeans(Plays(s.rounds), c);
  }

  /** Suppressed, unavailable and losing rounds leave the champion row alone. */
  lemma OnlyWinsCrown(s: Evolution, x: Committed, c: Loop.Config, id: string)
    requires Inv(s, c) && Lawful(s.live, x, c) && Fresh(s.candidates, x.ids) && !x.round.result.Win?
    ensures var after := Commit(s, x, c).candidates;
      id in after && after[id].Champion? <==> id in s.candidates && s.candidates[id].Champion?
  {
    NewChampions(s.candidates, x.round, x.ids, id);
  }

  /** The challenger's row is a champion. */
  ghost predicate Crowns(s: Evolution, x: Committed) {
    && x.round.Played? && x.round.challenger < |x.ids| && x.ids[x.round.challenger] in s.candidates
    && s.candidates[x.ids[x.round.challenger]].Champion?
  }

  /** The row a winning round crowns is the idea that cleared every gate of that round. */
  lemma CrownedWasCleared(s: Evolution, e: Event, c: Loop.Config)
    requires Crowned(s.candidates, s.live.bestId) && e.Round? && Enabled(s, e, c)
    ensures Played(e).round.result.Win? ==> ChampionOk(e.context, e.replies, Played(e).round) && Crowns(Step(s, e, c), Played(e))
  {
    hide Next, Rankable, ValidRanking, ChampionOk;
    EveryChampionPassedEveryGate(e.context, e.replies);
    EnabledIsLawful(s, e, c);
    if Played(e).round.result.Win? { CommitCrowns(s, Played(e), c); }
  }

  /** A mechanism a resumed loop has forgotten was, in every round that generated it, suppressed
      and never the challenger. */
  lemma ForgottenWereSuppressed(events: seq<Event>, c: Loop.Config, m: string, k: nat, i: nat)
    requires Runs(Start, events, c)
    requires var s := After(Start, events, c);
      && m !in Loop.Replayed(s.ledger, c).tried
      && k < |s.rounds| && s.rounds[k].round.Played? && i < |s.rounds[k].round.ideas|
      && s.rounds[k].round.ideas[i].mechanism == m
    ensures var r := After(Start, events, c).rounds[k].round;
      |r.verdicts| == |r.ideas| && Suppresses(r.verdicts[i]) && i != r.challenger
  {
    StartIsInv(c);
    EveryRunKeepsInv(Start, events, c);
    var s := After(Start, events, c);
    var plays := Plays(s.rounds);
    var r := s.rounds[k].round;
    Loop.ReplayedTried(plays, c, m);
    OrderHas(r, m);
    assert plays[k] == PlayOf(s.rounds[k]);
    assert m != plays[k].mechanism && m !in plays[k].order;
  }

  // ----- what a loop has tried ---------------------------------------------------------

  /** Every mechanism the live loop forbids was generated in some committed round. */
  ghost predicate Known(s: Evolution) {
    AllCommittable(s.rounds) && forall m :: m in s.live.tried ==> Loop.Generated(Plays(s.rounds), m)
  }

  lemma GeneratedStays(plays: seq<Loop.Play>, p: Loop.Play, m: string)
    ensures Loop.Generated(plays + [p], m) <==> Loop.Generated(plays, m) || m == p.mechanism || m in p.others
  {
    var all := plays + [p];
    assert all[|plays|] == p;
    if Loop.Generated(plays, m) {
      var i :| 0 <= i < |plays| && (m == plays[i].mechanism || m in plays[i].others);
      assert all[i] == plays[i];
    }
  }

  lemma CommitKeepsKnown(s: Evolution, x: Committed, c: Loop.Config)
    requires Known(s) && Lawful(s.live, x, c)
    ensures Known(Commit(s, x, c))
  {
    hide Rankable, ValidRanking, OrderOf, Others, Loop.Generated;
    var after := Commit(s, x, c);
    var p := PlayOf(x);
    PlaysGrow(s.rounds, x);
    forall m | m in after.live.tried ensures Loop.Generated(Plays(after.rounds), m) {
      Loop.AddTriedHas(s.live.tried, [p.mechanism] + p.others, m);
      GeneratedStays(Plays(s.rounds), p, m);
    }
  }

  lemma RememberedIsGenerated(rounds: seq<Committed>, m: string)
    requires AllCommittable(rounds) && Loop.Remembered(Plays(rounds), m)
    ensures Loop.Generated(Plays(rounds), m)
  {
    hide Rankable, ValidRanking, OrderOf, Others;
    var plays := Plays(rounds);
    var i :| 0 <= i < |plays| && (m == plays[i].mechanism || m in plays[i].order);
    assert plays[i] == PlayOf(rounds[i]);
    OrderIsFromBatch(rounds[i]);
    if m in plays[i].order {
      var k :| 0 <= k < |plays[i].order| && plays[i].order[k] == m;
    }
  }

  lemma CrashKeepsKnown(s: Evolution, c: Loop.Config)
    requires Inv(s, c)
    ensures Known(Evolve.Crash(s, c))
  {
    var after := Evolve.Crash(s, c);
    forall m | m in after.live.tried ensures Loop.Generated(Plays(after.rounds), m) {
      Loop.ReplayedTried(Plays(s.rounds), c, m);
      RememberedIsGenerated(s.rounds, m);
    }
  }

  lemma {:induction false} EveryRunKnows(s: Evolution, events: seq<Event>, c: Loop.Config)
    requires Inv(s, c) && Known(s) && Runs(s, events, c)
    ensures Inv(After(s, events, c), c) && Known(After(s, events, c))
    decreases |events|
  {
    hide Inv, Known, Commit, Evolve.Crash, Next, Lawful;
    if events != [] {
      var e := events[0];
      if e.Round? {
        EnabledIsLawful(s, e, c);
        LawfulCommits(s, Played(e), c);
        CommitKeepsInv(s, Played(e), c);
        CommitKeepsKnown(s, Played(e), c);
      } else {
        CrashKeepsInv(s, c);
        CrashKeepsKnown(s, c);
      }
      EveryRunKnows(Step(s, e, c), events[1..], c);
    }
  }

  /** The tried mechanisms lie between what the ledger remembers and what the rounds generated. */
  lemma TriedIsBetween(events: seq<Event>, c: Loop.Config, m: string)
    requires Runs(Start, events, c)
    ensures var s := After(Start, events, c);
      && AllCommittable(s.rounds)
      && (Loop.Remembered(Plays(s.rounds), m) ==> m in s.live.tried)
      && (m in s.live.tried ==> Loop.Generated(Plays(s.rounds), m))
  {
    StartIsInv(c);
    EveryRunKnows(Start, events, c);
    var s := After(Start, events, c);
    Loop.ReplayedTried(Plays(s.rounds), c, m);
  }

  // ----- uninterrupted runs ----------------------------------------------------------

  ghost function PlayedBy(s: Evolution, events: seq<Event>, c: Loop.Config): seq<Loop.Play>
    requires Runs(s, events, c)
    decreases |events|
  {
    if events == [] then []
    else
      var e := events[0];
      (if e.Round? then EnabledIsLawful(s, e, c); [PlayOf(Played(e))] else []) + PlayedBy(Step(s, e, c), events[1..], c)
  }

  ghost predicate NoCrash(events: seq<Event>) {
    forall k :: 0 <= k < |events| ==> events[k].Round?
  }

  /** Rounds played and committed without a crash are a run of the loop policy. */
  lemma {:induction false} RoundsFollowPolicy(s: Evolution, events: seq<Event>, c: Loop.Config)
    requires Runs(s, events, c) && NoCrash(events)
    ensures Loop.Runs(s.live, PlayedBy(s, events, c), c) && |PlayedBy(s, events, c)| == |events|
    decreases |events|
  {
    hide Next, Committable, ChallengerOk, DecisionOk, PlayOf;
    if events != [] {
      var e := events[0];
      EnabledIsLawful(s, e, c);
      var next := Step(s, e, c);
      RoundsFollowPolicy(next, events[1..], c);
      var plays := PlayedBy(s, events, c);
      assert plays[1..] == PlayedBy(next, events[1..], c);
      PolicyStep(s, Played(e), c);
    }
  }

  lemma PolicyStep(s: Evolution, x: Committed, c: Loop.Config)
    requires Lawful(s.live, x, c)
    ensures var p := PlayOf(x);
      && p.result.Win? == Loop.IsWin(s.live, p.score, c)
      && Commit(s, x, c).live == Loop.Apply(s.live, p, p.others, c)
  {
  }

  lemma WinsQuotient(plays: seq<Loop.Play>, c: Loop.Config)
    requires Loop.Runs(Start.live, plays, c)
    ensures c.keepDelta > 0.0 && c.winThreshold >= Loop.MIN_REDUCTION_FLOOR_PP ==>
      Loop.Wins(plays) as real <= 2.0 + (c.winThreshold - Loop.MIN_REDUCTION_FLOOR_PP) / c.keepDelta
  {
    hide Loop.Runs, Loop.Wins;
    var wins := Loop.Wins(plays);
    if c.keepDelta > 0.0 && c.winThreshold >= Loop.MIN_REDUCTION_FLOOR_PP {
      var room := c.winThreshold - Loop.MIN_REDUCTION_FLOOR_PP;
      Quotient(0.0, c.keepDelta, room);
      if wins >= 2 {
        Loop.WinsAreBounded(Start.live, plays, c);
        Quotient((wins - 2) as real, c.keepDelta, room);
      }
    }
  }

  lemma Quotient(x: real, d: real, y: real)
    requires d > 0.0 && x * d <= y
    ensures x <= y / d
  {
  }

  /** What the scores allow: an uninterrupted run of a Pro wins only as often as the keep delta
      fits between the floor and the threshold, and with patience 1 its rounds are bounded by its
      wins alone. */
  lemma UninterruptedRunIsBounded(events: seq<Event>, c: Loop.Config)
    requires Runs(Start, events, c) && NoCrash(events)
    ensures var wins := Loop.Wins(PlayedBy(Start, events, c));
      && (c.keepDelta > 0.0 && c.winThreshold >= Loop.MIN_REDUCTION_FLOOR_PP ==>
            wins as real <= 2.0 + (c.winThreshold - Loop.MIN_REDUCTION_FLOOR_PP) / c.keepDelta)
      && (c.patience == 1 ==> |events| <= c.maxNoImprove + wins * c.maxNoImprove)
      && |events| <= c.maxRounds
  {
    hide Runs, PlayedBy, Enabled, Loop.Runs, Loop.Wins;
    RoundsFollowPolicy(Start, events, c);
    var plays := PlayedBy(Start, events, c);
    WinsQuotient(plays, c);
    if c.patience == 1 { Loop.PatienceOneBoundsRounds(Start.live, plays, c); }
    Loop.RoundCapHolds(Start.live, plays, c);
  }
}
