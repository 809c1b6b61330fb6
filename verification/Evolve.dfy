/** The evolve stage's durable state: what one committed round writes, what a crash loses, and
    what holds at every commit of every run. */
module Evolve {
  import opened Common
  import opened Round
  import Loop

  /** candidates.status, as the evolve stage writes it. */
  datatype Status = Discarded | Suppressed | Champion

  /** A committed round with the ids its candidate rows got. */
  datatype Committed = Committed(round: Round, ids: seq<string>)

  /** The rounds committed so far, the two tables they were written to, and the loop state the
      running process holds. */
  datatype Evolution = Evolution(rounds: seq<Committed>, ledger: seq<Loop.Row>, candidates: map<string, Status>,
                                 live: Loop.State)

  const Start := Evolution([], [], map[], Loop.Initial)

  predicate Committable(r: Round, ids: seq<string>) {
    r.Played? && r.challenger < |r.ideas| == |r.verdicts| == |ids|
  }

  function StatusOf(r: Round, i: nat): Status
    requires r.Played? && i < |r.verdicts|
  {
    if Suppresses(r.verdicts[i]) then Suppressed
    else if r.result.Win? && i == r.challenger then Champion
    else Discarded
  }

  /** The candidate rows of the first n ideas. */
  function WithCandidates(candidates: map<string, Status>, r: Round, ids: seq<string>, n: nat): map<string, Status>
    requires Committable(r, ids) && n <= |ids|
  {
    if n == 0 then candidates
    else WithCandidates(candidates, r, ids, n - 1)[ids[n - 1] := StatusOf(r, n - 1)]
  }

  function Dethroned(candidates: map<string, Status>, best: Option<string>): map<string, Status> {
    if best.Some? && best.value in candidates then candidates[best.value := Discarded] else candidates
  }

  function MechanismOf(ideas: seq<Idea>, i: int): string {
    if 0 <= i < |ideas| then ideas[i].mechanism else ""
  }

  /** The batch's other mechanisms. */
  function Others(ideas: seq<Idea>, challenger: nat, n: nat): seq<string>
    requires n <= |ideas|
  {
    if n == 0 then []
    else Others(ideas, challenger, n - 1) + if n - 1 == challenger then [] else [ideas[n - 1].mechanism]
  }

  /** The mechanisms of the audit trail's order: every rankable idea, by rank when ranked. */
  function OrderOf(r: Round): seq<string>
    requires r.Played?
  {
    var rankable := Rankable(r.verdicts);
    if r.decision.None? then seq(|rankable|, k requires 0 <= k < |rankable| => MechanismOf(r.ideas, rankable[k]))
    else
      var order := ByRank(r.decision.value);
      seq(|order|, k requires 0 <= k < |order| => MechanismOf(r.ideas, At(rankable, order[k].token)))
  }

  function PlayOf(x: Committed): Loop.Play
    requires Committable(x.round, x.ids)
  {
    var r := x.round;
    Loop.Play(r.ideas[r.challenger].mechanism, x.ids[r.challenger], r.score, r.result,
              Others(r.ideas, r.challenger, |r.ideas|), OrderOf(r))
  }

  /** Candidates, the dethroned champion and the ledger row land in one transaction. */
  function Commit(s: Evolution, x: Committed, c: Loop.Config): Evolution
    requires Committable(x.round, x.ids)
  {
    var p := PlayOf(x);
    var added := WithCandidates(s.candidates, x.round, x.ids, |x.ids|);
    Evolution(s.rounds + [x], s.ledger + [Loop.Stored(p)],
          if p.result.Win? then Dethroned(added, s.live.bestId) else added,
          Loop.Apply(s.live, p, p.others, c))
  }

  /** A new process replays the ledger; an uncommitted round leaves nothing behind. */
  function Crash(s: Evolution, c: Loop.Config): Evolution {
    s.(live := Loop.Replayed(s.ledger, c))
  }

  /** The rows of one (run, Pro), as the stage's session changes them. */
  class Store {
    var rounds: seq<Committed>
    var ledger: seq<Loop.Row>
    var candidates: map<string, Status>
    var live: Loop.State

    ghost function Contents(): Evolution
      reads this
    {
      Evolution(rounds, ledger, candidates, live)
    }

    constructor ()
      ensures Contents() == Start
    {
      rounds, ledger, candidates, live := [], [], map[], Loop.Initial;
    }

    /** The end of one iteration of _stage_evolve. */
    method CommitRound(x: Committed, c: Loop.Config)
      requires Committable(x.round, x.ids)
      modifies this
      ensures Contents() == Commit(old(Contents()), x, c)
    {
      var r := x.round;
      for i := 0 to |x.ids|
        modifies `candidates
        invariant candidates == WithCandidates(old(candidates), r, x.ids, i)
      {
        var status := Discarded;
        if Suppresses(r.verdicts[i]) {
          status := Suppressed;
        } else if r.result.Win? && i == r.challenger {
          status := Champion;
        }
        candidates := candidates[x.ids[i] := status];
      }
      if r.result.Win? && live.bestId.Some? {
        if live.bestId.value in candidates {
          candidates := candidates[live.bestId.value := Discarded];
        }
      }
      var also: seq<string> := [];
      for i := 0 to |r.ideas|
        modifies {}
        invariant also == Others(r.ideas, r.challenger, i)
      {
        if i != r.challenger {
          also := also + [r.ideas[i].mechanism];
        }
      }
      var p := PlayOf(x);
      live := Loop.ApplyRound(live, p, also, c);
      ledger := ledger + [Loop.Stored(p)];
      rounds := rounds + [x];
    }

    /** Stage re-entry. */
    method Resume(c: Loop.Config)
      modifies this`live
      ensures Contents() == Crash(old(Contents()), c)
    {
      live := Loop.Replay(ledger, c);
    }
  }
}
