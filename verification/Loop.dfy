/** The win-stay / lose-shift policy and its recovery from the round ledger. */
module Loop {
  import opened Common

  /** The 1.0 percentage-point support floor of the first win. */
  const MIN_REDUCTION_FLOOR_PP := 1.0

  datatype Config = Config(maxRounds: nat, maxNoImprove: nat, patience: nat, keepDelta: real,
                           winThreshold: real, candidateCount: nat, tieMargin: real)

  datatype Result = Win | Lose | Suppressed | Unavailable

  datatype State = State(round: nat, bestScore: Option<real>, bestId: Option<string>, current: Option<string>,
                         tries: nat, dry: nat, tried: seq<string>)

  const Initial := State(0, None, None, None, 0, 0, [])

  datatype Mode = Stay | Shift

  function NextMode(st: State, c: Config): Mode {
    if st.current.None? then Stay else if st.tries >= c.patience then Shift else Stay
  }

  predicate IsWin(st: State, score: Option<real>, c: Config) {
    match score
    case None => false
    case Some(x) =>
      match st.bestScore
      case None => x >= MIN_REDUCTION_FLOOR_PP
      case Some(best) => x >= best + c.keepDelta
  }

  datatype Stop = WinThreshold | NoImproveExhausted | RoundCap

  function StopReason(st: State, c: Config): Option<Stop> {
    if st.bestScore.Some? && st.bestScore.value > c.winThreshold then Some(WinThreshold)
    else if st.dry >= c.maxNoImprove then Some(NoImproveExhausted)
    else if st.round >= c.maxRounds then Some(RoundCap)
    else None
  }

  /** Append each name once, in order. */
  function AddTried(tried: seq<string>, names: seq<string>): seq<string>
    decreases |names|
  {
    if names == [] then tried
    else AddTried(if names[0] in tried then tried else tried + [names[0]], names[1..])
  }

  /** One round as the live loop saw it. `others` are the mechanisms of the round's other ideas,
      `order` those of its rankable ideas, which is all the ledger row keeps of them. */
  datatype Play = Play(mechanism: string, id: string, score: Option<real>, result: Result,
                       others: seq<string>, order: seq<string>)

  function Apply(st: State, p: Play, also: seq<string>, c: Config): State {
    var tried := AddTried(st.tried, [p.mechanism] + also);
    if p.result.Win? then
      State(st.round + 1, p.score, Some(p.id), Some(p.mechanism), 0, 0, tried)
    else
      var tries := if Some(p.mechanism) == st.current then st.tries + 1 else 1;
      st.(round := st.round + 1, current := Some(p.mechanism), tries := tries,
          dry := st.dry + (if tries >= c.patience then 1 else 0), tried := tried)
  }

  /** apply_round. */
  method ApplyRound(st: State, p: Play, also: seq<string>, c: Config) returns (r: State)
    ensures r == Apply(st, p, also, c)
  {
    var tried := st.tried;
    var names := [p.mechanism] + also;
    for i := 0 to |names|
      invariant AddTried(st.tried, names) == AddTried(tried, names[i..])
    {
      assert names[i..][0] == names[i] && names[i..][1..] == names[i + 1..];
      if names[i] !in tried {
        tried := tried + [names[i]];
      }
    }
    if p.result.Win? {
      return State(st.round + 1, p.score, Some(p.id), Some(p.mechanism), 0, 0, tried);
    }
    var tries := if Some(p.mechanism) == st.current then st.tries + 1 else 1;
    var dry := st.dry + (if tries >= c.patience then 1 else 0);
    r := st.(round := st.round + 1, current := Some(p.mechanism), tries := tries, dry := dry, tried := tried);
  }

  // ----- what the state means --------------------------------------------------------

  function Live(plays: seq<Play>, c: Config): State {
    if plays == [] then Initial
    else
      var p := plays[|plays| - 1];
      Apply(Live(plays[..|plays| - 1], c), p, p.others, c)
  }

  /** How many rounds in a row, up to the last, lost on the last round's mechanism. */
  function Streak(plays: seq<Play>): nat {
    if plays == [] then 0
    else
      var n := |plays| - 1;
      if plays[n].result.Win? then 0
      else 1 + if n > 0 && plays[n - 1].mechanism == plays[n].mechanism then Streak(plays[..n]) else 0
  }

  /** How many rounds since the last win ended with the patience for their mechanism used up. */
  function Exhausted(plays: seq<Play>, c: Config): nat {
    if plays == [] || plays[|plays| - 1].result.Win? then 0
    else Exhausted(plays[..|plays| - 1], c) + if Streak(plays) >= c.patience then 1 else 0
  }

  function LastWin(plays: seq<Play>): (r: Option<Play>)
    ensures r.Some? ==> r.value in plays && r.value.result.Win?
    ensures r.None? ==> forall p :: p in plays ==> !p.result.Win?
  {
    if plays == [] then None
    else if plays[|plays| - 1].result.Win? then Some(plays[|plays| - 1])
    else
      assert plays == plays[..|plays| - 1] + [plays[|plays| - 1]];
      LastWin(plays[..|plays| - 1])
  }

  /** The state read off the history of rounds: the best is the last win's, the current mechanism
      the last round's, the counters its streak and the streaks that ran out. */
  lemma {:induction false} StateMeans(plays: seq<Play>, c: Config)
    ensures var st := Live(plays, c); var best := LastWin(plays);
      && st.round == |plays| && st.tries == Streak(plays) && st.dry == Exhausted(plays, c)
      && st.current == (if plays == [] then None else Some(plays[|plays| - 1].mechanism))
      && st.bestId == (if best.Some? then Some(best.value.id) else None)
      && st.bestScore == (if best.Some? then best.value.score else None)
  {
    if plays != [] {
      StateMeans(plays[..|plays| - 1], c);
    }
  }

  // ----- the ledger ------------------------------------------------------------------

  /** One evolve_rounds row. */
  datatype Row = Row(mechanism: string, candidateId: Option<string>, score: Option<real>, result: Result, order: seq<string>)

  /** A Numeric(8, 4) column rounds half away from zero at the fourth decimal. */
  function Round4(x: real): real {
    if x >= 0.0 then (x * 10000.0 + 0.5).Floor as real / 10000.0
    else -((0.5 - x * 10000.0).Floor as real / 10000.0)
  }

  function Stored(p: Play): Row {
    Row(p.mechanism, Some(p.id), if p.score.Some? then Some(Round4(p.score.value)) else None, p.result, p.order)
  }

  function FromRow(r: Row): Play {
    Play(r.mechanism, if r.candidateId.Some? then r.candidateId.value else "", r.score, r.result, r.order, r.order)
  }

  function Replayed(rows: seq<Row>, c: Config): State {
    if rows == [] then Initial
    else
      var p := FromRow(rows[|rows| - 1]);
      Apply(Replayed(rows[..|rows| - 1], c), p, p.order, c)
  }

  /** replay: the one recovery code path. */
  method Replay(rows: seq<Row>, c: Config) returns (st: State)
    ensures st == Replayed(rows, c)
  {
    st := Initial;
    for i := 0 to |rows|
      invariant st == Replayed(rows[..i], c)
    {
      var p := FromRow(rows[i]);
      assert rows[..i + 1][..i] == rows[..i];
      st := ApplyRound(st, p, p.order, c);
    }
    assert rows[..|rows|] == rows;
  }

  // ----- live against replayed -------------------------------------------------------

  function Ledger(plays: seq<Play>): (r: seq<Row>)
    ensures |r| == |plays|
  {
    seq(|plays|, i requires 0 <= i < |plays| => Stored(plays[i]))
  }

  /** A mechanism the ledger still knows: some round's challenger or a ranked idea's. */
  ghost predicate Remembered(plays: seq<Play>, m: string) {
    exists i :: 0 <= i < |plays| && (m == plays[i].mechanism || m in plays[i].order)
  }

  /** A mechanism some round generated. */
  ghost predicate Generated(plays: seq<Play>, m: string) {
    exists i :: 0 <= i < |plays| && (m == plays[i].mechanism || m in plays[i].others)
  }

  predicate Close(a: Option<real>, b: Option<real>) {
    match (a, b)
    case (None, None) => true
    case (Some(x), Some(y)) => -0.00005 <= x - y <= 0.00005
    case _ => false
  }

  /** The live state may differ from the replayed one in two ways only: the best score by its
      fourth decimal, and mechanisms it tried that no ledger row names. */
  ghost predicate Agree(live: State, replayed: State) {
    && live.round == replayed.round && live.bestId == replayed.bestId && live.current == replayed.current
    && live.tries == replayed.tries && live.dry == replayed.dry
    && Close(live.bestScore, replayed.bestScore)
    && forall m :: m in replayed.tried ==> m in live.tried
  }

  lemma RoundsClose(x: real)
    ensures -0.00005 <= Round4(x) - x <= 0.00005
  {
  }

  lemma {:induction false} AddTriedHas(tried: seq<string>, names: seq<string>, m: string)
    ensures m in AddTried(tried, names) <==> m in tried || m in names
    decreases |names|
  {
    if names != [] {
      AddTriedHas(if names[0] in tried then tried else tried + [names[0]], names[1..], m);
      assert names == [names[0]] + names[1..];
    }
  }

  /** The rankable ideas are among the round's ideas. */
  predicate OrderFromBatch(p: Play) {
    forall i :: 0 <= i < |p.order| ==> p.order[i] == p.mechanism || p.order[i] in p.others
  }

  /** One committed round keeps live and replayed state in agreement. */
  lemma RoundKeepsAgreement(live: State, replayed: State, p: Play, c: Config)
    requires Agree(live, replayed) && OrderFromBatch(p)
    ensures Agree(Apply(live, p, p.others, c), Apply(replayed, FromRow(Stored(p)), p.order, c))
  {
    if p.score.Some? { RoundsClose(p.score.value); }
    var r := Apply(replayed, FromRow(Stored(p)), p.order, c);
    var l := Apply(live, p, p.others, c);
    forall m | m in r.tried ensures m in l.tried {
      AddTriedHas(replayed.tried, [p.mechanism] + p.order, m);
      AddTriedHas(live.tried, [p.mechanism] + p.others, m);
      if m in p.order {
        var i :| 0 <= i < |p.order| && p.order[i] == m;
      }
    }
  }

  lemma LedgerGrows(plays: seq<Play>, p: Play)
    ensures Ledger(plays + [p])[..|plays|] == Ledger(plays) && Ledger(plays + [p])[|plays|] == Stored(p)
  {
  }

  /** Exactly what the ledger remembers is what a resumed loop will not propose again. */
  lemma {:induction false} ReplayedTried(plays: seq<Play>, c: Config, m: string)
    ensures m in Replayed(Ledger(plays), c).tried <==> Remembered(plays, m)
  {
    if plays != [] {
      var n := |plays| - 1;
      var p := plays[n];
      assert plays == plays[..n] + [p];
      LedgerGrows(plays[..n], p);
      ReplayedTried(plays[..n], c, m);
      AddTriedHas(Replayed(Ledger(plays[..n]), c).tried, [p.mechanism] + p.order, m);
      if Remembered(plays, m) {
        var i :| 0 <= i < |plays| && (m == plays[i].mechanism || m in plays[i].order);
        assert i < n ==> plays[..n][i] == plays[i];
      }
      if Remembered(plays[..n], m) {
        var i :| 0 <= i < n && (m == plays[..n][i].mechanism || m in plays[..n][i].order);
        assert plays[i] == plays[..n][i];
      }
    }
  }

  /** The same decisions follow: mode, stop by dryness or round cap, and, away from the fourth
      decimal, the win rule. */
  lemma AgreementDecides(live: State, replayed: State, score: Option<real>, c: Config)
    requires Agree(live, replayed)
    ensures NextMode(live, c) == NextMode(replayed, c)
    ensures live.bestScore.None? ==> IsWin(live, score, c) == IsWin(replayed, score, c)
    ensures live.bestScore.Some? && score.Some? &&
            !(-0.00005 <= score.value - (live.bestScore.value + c.keepDelta) <= 0.00005)
            ==> IsWin(live, score, c) == IsWin(replayed, score, c)
    ensures !(live.bestScore.Some? && -0.00005 <= live.bestScore.value - c.winThreshold <= 0.00005)
            ==> StopReason(live, c) == StopReason(replayed, c)
  {
  }

  // ----- what is decided, from the history ---------------------------------------------

  /** The loop shifts exactly when the last rounds lost on one mechanism as often as its patience
      allows; a round that won is followed by a stay. */
  lemma ModeMeans(plays: seq<Play>, c: Config)
    ensures NextMode(Live(plays, c), c) == Shift <==> plays != [] && Streak(plays) >= c.patience
    ensures plays != [] && plays[|plays| - 1].result.Win? && c.patience >= 1 ==> NextMode(Live(plays, c), c) == Stay
  {
    hide Live, Exhausted, LastWin;
    StateMeans(plays, c);
  }

  /** A resumed loop counts the same streaks, and its best score is the last win's, rounded. */
  lemma {:induction false} ReplayedMeans(plays: seq<Play>, c: Config)
    ensures var st := Replayed(Ledger(plays), c); var best := LastWin(plays);
      && st.round == |plays| && st.tries == Streak(plays) && st.dry == Exhausted(plays, c)
      && st.current == (if plays == [] then None else Some(plays[|plays| - 1].mechanism))
      && st.bestId == (if best.Some? then Some(best.value.id) else None)
      && st.bestScore == (if best.Some? && best.value.score.Some? then Some(Round4(best.value.score.value)) else None)
  {
    if plays != [] {
      var n := |plays| - 1;
      assert plays == plays[..n] + [plays[n]];
      LedgerGrows(plays[..n], plays[n]);
      ReplayedMeans(plays[..n], c);
    }
  }

  lemma ReplayedModeMeans(plays: seq<Play>, c: Config)
    ensures NextMode(Replayed(Ledger(plays), c), c) == Shift <==> plays != [] && Streak(plays) >= c.patience
    ensures plays != [] && plays[|plays| - 1].result.Win? && c.patience >= 1 ==> NextMode(Replayed(Ledger(plays), c), c) == Stay
  {
    ReplayedMeans(plays, c);
  }

  /** The score the next round has to beat: the last win's and the keep delta, the floor before any. */
  function ToBeat(plays: seq<Play>, c: Config): real {
    var best := LastWin(plays);
    if best.Some? && best.value.score.Some? then best.value.score.value + c.keepDelta else 1.0
  }

  /** A round wins exactly when it scored at least that. */
  lemma WinMeans(plays: seq<Play>, score: Option<real>, c: Config)
    ensures IsWin(Live(plays, c), score, c) <==> score.Some? && score.value >= ToBeat(plays, c)
  {
    hide Live, Streak, Exhausted, LastWin;
    StateMeans(plays, c);
  }

  /** The loop goes on exactly while its best is not past the threshold, its mechanisms have not run
      dry, and rounds are left; the first of the three that fails is the reason. */
  lemma StopMeans(plays: seq<Play>, c: Config)
    ensures var best := LastWin(plays); var stop := StopReason(Live(plays, c), c);
      var won := best.Some? && best.value.score.Some? && best.value.score.value > c.winThreshold;
      && (stop == Some(WinThreshold) <==> won)
      && (stop == Some(NoImproveExhausted) <==> !won && Exhausted(plays, c) >= c.maxNoImprove)
      && (stop == Some(RoundCap) <==> !won && Exhausted(plays, c) < c.maxNoImprove && |plays| >= c.maxRounds)
  {
    hide Live, Streak, Exhausted, LastWin;
    StateMeans(plays, c);
  }

  // ----- how long a loop can run -----------------------------------------------------

  /** An uninterrupted run: every round starts while no stop reason holds, and wins by the rule. */
  predicate Runs(st: State, plays: seq<Play>, c: Config)
    decreases |plays|
  {
    plays == [] ||
    (&& StopReason(st, c).None?
     && plays[0].result.Win? == IsWin(st, plays[0].score, c)
     && Runs(Apply(st, plays[0], plays[0].others, c), plays[1..], c))
  }

  function Wins(plays: seq<Play>): nat
    decreases |plays|
  {
    if plays == [] then 0 else (if plays[0].result.Win? then 1 else 0) + Wins(plays[1..])
  }

  lemma {:induction false} WinsRaiseBest(st: State, plays: seq<Play>, c: Config)
    requires Runs(st, plays, c) && st.bestScore.Some? && Wins(plays) >= 1
    ensures st.bestScore.value + (Wins(plays) - 1) as real * c.keepDelta <= c.winThreshold
    decreases |plays|
  {
    var p := plays[0];
    var next := Apply(st, p, p.others, c);
    if !p.result.Win? {
      WinsRaiseBest(next, plays[1..], c);
    } else if Wins(plays) >= 2 {
      WinsRaiseBest(next, plays[1..], c);
      var w := (Wins(plays) - 1) as real;
      assert (Wins(plays[1..]) - 1) as real == w - 1.0;
      assert w * c.keepDelta == (w - 1.0) * c.keepDelta + c.keepDelta;
    }
  }

  /** Each win raises the best score by the keep delta from a floor of 1.0, so a loop that stops
      past the win threshold can win only so often. */
  lemma {:induction false} WinsAreBounded(st: State, plays: seq<Play>, c: Config)
    requires Runs(st, plays, c) && st.bestScore.None? && Wins(plays) >= 2
    ensures (Wins(plays) - 2) as real * c.keepDelta <= c.winThreshold - MIN_REDUCTION_FLOOR_PP
    decreases |plays|
  {
    var p := plays[0];
    var next := Apply(st, p, p.others, c);
    if p.result.Win? {
      WinsRaiseBest(next, plays[1..], c);
    } else {
      WinsAreBounded(next, plays[1..], c);
    }
  }

  /** With patience 1 the loop ends within (wins + 1) * MAX_NO_IMPROVE rounds whatever the cap. */
  lemma {:induction false} PatienceOneBoundsRounds(st: State, plays: seq<Play>, c: Config)
    requires c.patience == 1 && Runs(st, plays, c) && st.dry <= c.maxNoImprove
    ensures |plays| <= c.maxNoImprove - st.dry + Wins(plays) * c.maxNoImprove
    decreases |plays|
  {
    if plays != [] {
      var next := Apply(st, plays[0], plays[0].others, c);
      PatienceOneBoundsRounds(next, plays[1..], c);
      if plays[0].result.Win? {
        assert Wins(plays) * c.maxNoImprove == Wins(plays[1..]) * c.maxNoImprove + c.maxNoImprove;
      }
    }
  }

  lemma {:induction false} RoundCapHolds(st: State, plays: seq<Play>, c: Config)
    requires Runs(st, plays, c) && st.round <= c.maxRounds
    ensures st.round + |plays| <= c.maxRounds
    decreases |plays|
  {
    if plays != [] {
      RoundCapHolds(Apply(st, plays[0], plays[0].others, c), plays[1..], c);
    }
  }

  /** Losing rounds that alternate between two mechanisms. */
  function Alternate(n: nat, m: string, other: string): seq<Play>
    decreases n
  {
    if n == 0 then [] else [Play(m, "id", Some(0.0), Lose, [], [])] + Alternate(n - 1, other, m)
  }

  /** With any larger patience only MAX_ROUNDS ends a loop: two mechanisms that take turns losing
      never use up the patience of either. */
  lemma {:induction false} OnlyTheCapBoundsPatientLoops(st: State, n: nat, m: string, other: string, c: Config)
    requires c.patience >= 2 && c.maxNoImprove >= 1 && m != other
    requires st.bestScore.None? && st.dry == 0 && st.current != Some(m) && st.round + n <= c.maxRounds
    ensures Runs(st, Alternate(n, m, other), c) && |Alternate(n, m, other)| == n && Wins(Alternate(n, m, other)) == 0
    decreases n
  {
    if n > 0 {
      var p := Play(m, "id", Some(0.0), Lose, [], []);
      var next := Apply(st, p, p.others, c);
      OnlyTheCapBoundsPatientLoops(next, n - 1, other, m, c);
      assert Alternate(n, m, other)[1..] == Alternate(n - 1, other, m);
    }
  }
}
