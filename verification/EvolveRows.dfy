/** The candidate rows of every run of the evolve stage: what each of them is marked as. */
module EvolveRows {
  import opened Common
  import opened Round
  import opened RoundProofs
  import opened Evolve
  import opened EvolveProofs
  import Loop

  /** The row of the i-th idea of the k-th round is there, and marked suppressed exactly when its
      verdict blocked it. */
  ghost predicate RowMarked(s: Evolution, k: nat, i: nat) {
    k < |s.rounds| && s.rounds[k].round.Played? && i < |s.rounds[k].ids| == |s.rounds[k].round.verdicts| ==>
      var id := s.rounds[k].ids[i];
      id in s.candidates && (s.candidates[id] == Suppressed <==> Suppresses(s.rounds[k].round.verdicts[i]))
  }

  ghost predicate RowsMarked(s: Evolution) {
    forall k: nat, i: nat :: RowMarked(s, k, i)
  }

  /** A row that was stored keeps being suppressed or not, through any later round. */
  lemma MarkStays(s: Evolution, x: Committed, c: Loop.Config, id: string)
    requires Committable(x.round, x.ids) && Fresh(s.candidates, x.ids) && Crowned(s.candidates, s.live.bestId)
    requires id in s.candidates
    ensures var after := Commit(s, x, c).candidates; id in after && (after[id] == Suppressed <==> s.candidates[id] == Suppressed)
  {
    CandidatesAdded(s.candidates, x.round, x.ids, |x.ids|, id);
    if s.live.bestId == Some(id) { assert s.candidates[id].Champion?; }
  }

  lemma NewRowMarked(s: Evolution, x: Committed, c: Loop.Config, i: nat)
    requires Committable(x.round, x.ids) && Fresh(s.candidates, x.ids) && Crowned(s.candidates, s.live.bestId) && i < |x.ids|
    ensures var after := Commit(s, x, c).candidates;
      x.ids[i] in after && (after[x.ids[i]] == Suppressed <==> Suppresses(x.round.verdicts[i]))
  {
    CandidatesAdded(s.candidates, x.round, x.ids, |x.ids|, x.ids[i]);
  }

  lemma CommitKeepsMarks(s: Evolution, x: Committed, c: Loop.Config)
    requires RowsMarked(s) && Committable(x.round, x.ids) && Fresh(s.candidates, x.ids) && Crowned(s.candidates, s.live.bestId)
    requires AllCommittable(s.rounds)
    ensures RowsMarked(Commit(s, x, c))
  {
    hide Commit, Crowned, Fresh, DecisionOk, ChallengerOk;
    var after := Commit(s, x, c);
    assert after.rounds == s.rounds + [x] by { CommitRounds(s, x, c); }
    forall k: nat, i: nat ensures RowMarked(after, k, i) {
      if k < |s.rounds| && i < |s.rounds[k].ids| {
        assert RowMarked(s, k, i) && after.rounds[k] == s.rounds[k];
        assert Committable(s.rounds[k].round, s.rounds[k].ids);
        MarkStays(s, x, c, s.rounds[k].ids[i]);
      } else if k == |s.rounds| && i < |x.ids| {
        NewRowMarked(s, x, c, i);
      }
    }
  }

  lemma CommitRounds(s: Evolution, x: Committed, c: Loop.Config)
    requires Committable(x.round, x.ids)
    ensures Commit(s, x, c).rounds == s.rounds + [x]
  {
  }

  lemma {:induction false} EveryRunMarks(s: Evolution, events: seq<Event>, c: Loop.Config)
    requires Inv(s, c) && RowsMarked(s) && Runs(s, events, c)
    ensures Inv(After(s, events, c), c) && RowsMarked(After(s, events, c))
    decreases |events|
  {
    hide Commit, Evolve.Crash, Next, Lawful, Loop.Ledger, Loop.Replayed, RowMarked, DecisionOk, ChallengerOk;
    if events != [] {
      var e := events[0];
      if e.Round? {
        EnabledIsLawful(s, e, c);
        LawfulCommits(s, EvolveProofs.Played(e), c);
        CommitKeepsInv(s, EvolveProofs.Played(e), c);
        CommitKeepsMarks(s, EvolveProofs.Played(e), c);
      } else {
        CrashKeepsInv(s, c);
        CrashKeepsMarks(s, c);
      }
      EveryRunMarks(Step(s, e, c), events[1..], c);
    }
  }

  lemma CrashKeepsMarks(s: Evolution, c: Loop.Config)
    requires RowsMarked(s)
    ensures RowsMarked(Evolve.Crash(s, c))
  {
    var after := Evolve.Crash(s, c);
    forall k: nat, i: nat ensures RowMarked(after, k, i) { assert RowMarked(s, k, i); }
  }

  /** After any run, every idea of every committed round has its row: suppressed exactly when its
      verdict blocked it, champion exactly when it is the replayed best, discarded otherwise. */
  lemma CandidateRowsMean(events: seq<Event>, c: Loop.Config, k: nat, i: nat)
    requires Runs(Start, events, c)
    requires var s := After(Start, events, c); k < |s.rounds| && i < |s.rounds[k].ids|
    ensures var s := After(Start, events, c); var x := s.rounds[k]; var id := x.ids[i];
      && x.round.Played? && |x.ids| == |x.round.ideas| == |x.round.verdicts| && id in s.candidates
      && (s.candidates[id] == Suppressed <==> Suppresses(x.round.verdicts[i]))
      && (s.candidates[id] == Champion <==> Loop.Replayed(s.ledger, c).bestId == Some(id))
  {
    hide Rankable, ValidRanking;
    StartIsInv(c);
    EveryRunMarks(Start, events, c);
    var s := After(Start, events, c);
    assert RowMarked(s, k, i) && Committable(s.rounds[k].round, s.rounds[k].ids);
  }
}
