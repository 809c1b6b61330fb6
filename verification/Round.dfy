/** One evolve round as a strategy over keyed, recorded calls: batch generation with bounded
    refills, a fail-closed critic, ranking over positional tokens, and finalist screens. What a
    response parses to stands for its text; prompts are deterministic and left out. */
module Round {
  import opened Common
  import opened Sorting
  import opened Replay
  import Loop

  const JSON_CALL_ATTEMPTS := 3
  const MAX_BATCH_REFILLS := 2

  /** A block_kind: one of the six that suppress an idea, or any other text. */
  datatype Kind = Ungrounded | Unreviewed | PerProData | ConsentAsk | InfeasibleChannel | RecentlyFailed | Other(text: string)

  predicate Suppresses(k: Kind) {
    !k.Other?
  }

  datatype Channel = Sms | Email | Phone | NoChannel

  /** `consentAsk` is the verdict of the deterministic consent pattern on the idea's text. */
  datatype Idea = Idea(mechanism: string, channel: Channel, consentAsk: bool, concept: string)

  /** One ranking entry; token c{n} is the number n. */
  datatype Ranked = Ranked(token: int, rank: int, score: real)

  /** What a recorded response parses to. A critic entry may lack its block_kind. */
  datatype Payload =
    | Garbled
    | Ideas(items: seq<Idea>)
    | Verdicts(kinds: map<int, Option<Kind>>)
    | Ranking(ranking: seq<Ranked>)
    | Reactions(score: Option<real>)

  type Reply = Answer<Payload>

  /** Everything a round reads besides its replies. */
  datatype Context = Context(count: nat, warm: Option<string>, failed: set<string>, channels: seq<Channel>,
                             panel: bool, state: Loop.State, config: Loop.Config)

  /** The round's call keys, after the run:pro:rN prefix. */
  datatype Call =
    | Generate(attempt: nat)
    | Refill(refill: nat, attempt: nat)
    | Critic(attempt: nat)
    | Rank(attempt: nat)
    | Screen(token: int)

  /** A stage of the round: it wants a reply under a key, or has its value and the replies left. */
  datatype Stage<+V> = Want(key: Call) | Got(value: V, rest: seq<Reply>)

  // ----- _valid_json_call ------------------------------------------------------------

  /** Re-ask on bad output under a fresh key, never on a provider failure. None is the
      PipelineFailure of the stage. */
  function JsonCall<V>(key: nat -> Call, attempt: nat, parse: Payload -> Option<V>, replies: seq<Reply>): (r: Stage<Option<V>>)
    ensures r.Got? ==> |replies| - (JSON_CALL_ATTEMPTS - Least(attempt)) <= |r.rest| <= |replies|
    ensures r.Want? ==> |replies| < JSON_CALL_ATTEMPTS - Least(attempt)
    decreases JSON_CALL_ATTEMPTS - attempt
  {
    if attempt >= JSON_CALL_ATTEMPTS then Got(None, replies)
    else if replies == [] then Want(key(attempt))
    else match replies[0]
      case Failure => Got(None, replies[1..])
      case Text(p) =>
        var v := parse(p);
        if v.Some? then Got(v, replies[1..]) else JsonCall(key, attempt + 1, parse, replies[1..])
  }

  function Least(attempt: nat): nat {
    if attempt < JSON_CALL_ATTEMPTS then attempt else JSON_CALL_ATTEMPTS
  }

  method ValidJsonCall<V>(key: nat -> Call, parse: Payload -> Option<V>, replies: seq<Reply>) returns (r: Stage<Option<V>>)
    ensures r == JsonCall(key, 0, parse, replies)
  {
    var rest := replies;
    for attempt := 0 to JSON_CALL_ATTEMPTS
      invariant JsonCall(key, 0, parse, replies) == JsonCall(key, attempt, parse, rest)
    {
      if rest == [] {
        return Want(key(attempt));
      }
      var reply := rest[0];
      rest := rest[1..];
      if reply.Failure? {
        return Got(None, rest);
      }
      var v := parse(reply.value);
      if v.Some? {
        return Got(v, rest);
      }
    }
    return Got(None, rest);
  }

  // ----- batch generation ------------------------------------------------------------

  function ParseIdeas(p: Payload): Option<seq<Idea>> {
    if p.Ideas? && p.items != [] then Some(p.items) else None
  }

  predicate Has(ideas: seq<Idea>, mechanism: string) {
    exists i :: 0 <= i < |ideas| && ideas[i].mechanism == mechanism
  }

  /** One idea per mechanism, the first one winning. */
  function FirstOfEach(ideas: seq<Idea>): seq<Idea> {
    if ideas == [] then []
    else
      var held := FirstOfEach(ideas[..|ideas| - 1]);
      var idea := ideas[|ideas| - 1];
      if Has(held, idea.mechanism) then held else held + [idea]
  }

  function Without(ideas: seq<Idea>, mechanism: string): seq<Idea> {
    if ideas == [] then []
    else (if ideas[0].mechanism == mechanism then [] else [ideas[0]]) + Without(ideas[1..], mechanism)
  }

  function Holder(ideas: seq<Idea>, mechanism: string): (r: Idea)
    requires Has(ideas, mechanism)
    ensures r in ideas && r.mechanism == mechanism
  {
    if ideas[0].mechanism == mechanism then ideas[0] else Holder(ideas[1..], mechanism)
  }

  function Take<T>(s: seq<T>, n: nat): seq<T> {
    if |s| <= n then s else s[..n]
  }

  /** _dedupe_mechanisms: `keep`, when present, is seated first. */
  function Dedupe(ideas: seq<Idea>, count: nat, keep: Option<string>): seq<Idea> {
    var held := FirstOfEach(ideas);
    var ordered := if keep.Some? && Has(held, keep.value)
      then [Holder(held, keep.value)] + Without(held, keep.value) else held;
    Take(ordered, count)
  }

  method DedupeMechanisms(ideas: seq<Idea>, count: nat, keep: Option<string>) returns (r: seq<Idea>)
    ensures r == Dedupe(ideas, count, keep)
  {
    var held: seq<Idea> := [];
    for i := 0 to |ideas|
      invariant held == FirstOfEach(ideas[..i])
    {
      assert ideas[..i + 1][..i] == ideas[..i];
      if !Has(held, ideas[i].mechanism) {
        held := held + [ideas[i]];
      }
    }
    assert ideas[..|ideas|] == ideas;
    var ordered := held;
    if keep.Some? && Has(held, keep.value) {
      ordered := [Holder(held, keep.value)] + Without(held, keep.value);
    }
    r := if |ordered| > count then ordered[..count] else ordered;
  }

  predicate WarmMissing(c: Context, ideas: seq<Idea>) {
    c.warm.Some? && !Has(ideas, c.warm.value)
  }

  predicate Enough(c: Context, ideas: seq<Idea>) {
    |ideas| >= c.count && !WarmMissing(c, ideas)
  }

  /** The refill loop from its `refill`-th pass; a refill that fails outright is tolerated. */
  function Refills(c: Context, refill: nat, ideas: seq<Idea>, replies: seq<Reply>): (r: Stage<seq<Idea>>)
    requires refill <= MAX_BATCH_REFILLS
    ensures r.Got? ==> |replies| - JSON_CALL_ATTEMPTS * (MAX_BATCH_REFILLS - refill) <= |r.rest| <= |replies|
    ensures r.Want? ==> |replies| < JSON_CALL_ATTEMPTS * (MAX_BATCH_REFILLS - refill)
    decreases MAX_BATCH_REFILLS - refill
  {
    if refill == MAX_BATCH_REFILLS || Enough(c, ideas) then Got(ideas, replies)
    else match JsonCall((a: nat) => Call.Refill(refill, a), 0, ParseIdeas, replies)
      case Want(key) => Want(key)
      case Got(None, rest) => Got(ideas, rest)
      case Got(Some(more), rest) => Refills(c, refill + 1, Dedupe(ideas + more, c.count, c.warm), rest)
  }

  /** _generate_batch; None when the first generation fails. */
  function Batch(c: Context, replies: seq<Reply>): (r: Stage<Option<seq<Idea>>>)
    ensures r.Got? ==> |replies| - JSON_CALL_ATTEMPTS * (1 + MAX_BATCH_REFILLS) <= |r.rest| <= |replies|
    ensures r.Want? ==> |replies| < JSON_CALL_ATTEMPTS * (1 + MAX_BATCH_REFILLS)
  {
    match JsonCall((a: nat) => Call.Generate(a), 0, ParseIdeas, replies)
    case Want(key) => Want(key)
    case Got(None, rest) => Got(None, rest)
    case Got(Some(first), rest) =>
      match Refills(c, 0, Dedupe(first, c.count, c.warm), rest)
      case Want(key) => Want(key)
      case Got(ideas, left) => Got(Some(ideas), left)
  }

  method GenerateBatch(c: Context, replies: seq<Reply>) returns (r: Stage<Option<seq<Idea>>>)
    ensures r == Batch(c, replies)
  {
    var first := ValidJsonCall((a: nat) => Call.Generate(a), ParseIdeas, replies);
    match first {
      case Want(key) => return Want(key);
      case Got(None, rest) => return Got(None, rest);
      case Got(Some(items), after) =>
        var rest := after;
        var ideas := DedupeMechanisms(items, c.count, c.warm);
        for refill := 0 to MAX_BATCH_REFILLS
          invariant Refills(c, 0, Dedupe(items, c.count, c.warm), after) == Refills(c, refill, ideas, rest)
        {
          if |ideas| >= c.count && !WarmMissing(c, ideas) {
            break;
          }
          var more := ValidJsonCall((a: nat) => Call.Refill(refill, a), ParseIdeas, rest);
          match more {
            case Want(key) => return Want(key);
            case Got(None, left) => return Got(Some(ideas), left);
            case Got(Some(extra), left) =>
              ideas := DedupeMechanisms(ideas + extra, c.count, c.warm);
              rest := left;
          }
        }
        return Got(Some(ideas), rest);
    }
  }

  // ----- the critic ------------------------------------------------------------------

  /** The two free gates, in their order. */
  function PreGate(c: Context, idea: Idea): Option<Kind> {
    if idea.mechanism in c.failed then Some(RecentlyFailed)
    else if !idea.channel.NoChannel? && idea.channel !in c.channels then Some(InfeasibleChannel)
    else None
  }

  /** Fail closed on a missing verdict or one without its field. */
  function Reviewed(kinds: map<int, Option<Kind>>, index: int): Kind {
    if index in kinds && kinds[index].Some? then kinds[index].value else Unreviewed
  }

  /** The one block_kind of the idea at `index`. */
  function Verdict(c: Context, ideas: seq<Idea>, kinds: map<int, Option<Kind>>, index: nat): Kind
    requires index < |ideas|
  {
    var idea := ideas[index];
    var gate := PreGate(c, idea);
    var kind := if gate.Some? then gate.value else Reviewed(kinds, index);
    if !Suppresses(kind) && idea.consentAsk then ConsentAsk else kind
  }

  function AllVerdicts(c: Context, ideas: seq<Idea>, kinds: map<int, Option<Kind>>): (r: seq<Kind>)
    ensures |r| == |ideas|
  {
    seq(|ideas|, i requires 0 <= i < |ideas| => Verdict(c, ideas, kinds, i))
  }

  predicate NeedsCritic(c: Context, ideas: seq<Idea>) {
    exists i :: 0 <= i < |ideas| && PreGate(c, ideas[i]).None?
  }

  function ParseVerdicts(p: Payload): Option<map<int, Option<Kind>>> {
    if p.Verdicts? then Some(p.kinds) else None
  }

  /** _verdicts_for_batch: one aligned verdict per idea, or None when the critic is dead. */
  function Critique(c: Context, ideas: seq<Idea>, replies: seq<Reply>): (r: Stage<Option<seq<Kind>>>)
    ensures r.Got? ==> |replies| - JSON_CALL_ATTEMPTS <= |r.rest| <= |replies|
    ensures r.Want? ==> |replies| < JSON_CALL_ATTEMPTS
    ensures r.Got? && r.value.Some? ==> |r.value.value| == |ideas|
  {
    if !NeedsCritic(c, ideas) then Got(Some(AllVerdicts(c, ideas, map[])), replies)
    else match JsonCall((a: nat) => Call.Critic(a), 0, ParseVerdicts, replies)
      case Want(key) => Want(key)
      case Got(None, rest) => Got(None, rest)
      case Got(Some(kinds), rest) => Got(Some(AllVerdicts(c, ideas, kinds)), rest)
  }

  method VerdictsForBatch(c: Context, ideas: seq<Idea>, replies: seq<Reply>) returns (r: Stage<Option<seq<Kind>>>)
    ensures r == Critique(c, ideas, replies)
  {
    var verdicts: seq<Option<Kind>> := seq(|ideas|, _ => None);
    var review: seq<nat> := [];
    for i := 0 to |ideas|
      invariant |verdicts| == |ideas|
      invariant forall k :: 0 <= k < |ideas| ==> verdicts[k] == if k < i then PreGate(c, ideas[k]) else None
      invariant forall k: nat :: k in review <==> k < i && PreGate(c, ideas[k]).None?
    {
      if ideas[i].mechanism in c.failed {
        verdicts := verdicts[i := Some(RecentlyFailed)];
      } else if !ideas[i].channel.NoChannel? && ideas[i].channel !in c.channels {
        verdicts := verdicts[i := Some(InfeasibleChannel)];
      } else {
        review := review + [i];
      }
    }
    ghost var gated := verdicts;
    var rest := replies;
    var kinds: map<int, Option<Kind>> := map[];
    if review != [] {
      assert review[0] in review;
      var reply := ValidJsonCall((a: nat) => Call.Critic(a), ParseVerdicts, replies);
      match reply {
        case Want(key) => return Want(key);
        case Got(None, left) => return Got(None, left);
        case Got(Some(found), left) => kinds, rest := found, left;
      }
    } else {
      assert forall k: nat :: k !in review;
    }
    assert forall j :: 0 <= j < |review| ==> review[j] in review;
    verdicts := ApplyReview(review, kinds, verdicts);
    var resolved: seq<Kind> := [];
    for i := 0 to |ideas|
      invariant |resolved| == i
      invariant forall k :: 0 <= k < i ==> resolved[k] == Verdict(c, ideas, kinds, k)
    {
      assert i in review <==> gated[i].None?;
      var kind := verdicts[i].value;
      resolved := resolved + [if !Suppresses(kind) && ideas[i].consentAsk then ConsentAsk else kind];
    }
    assert resolved == AllVerdicts(c, ideas, kinds);
    return Got(Some(resolved), rest);
  }

  /** The critic's entries, read back by position. */
  method ApplyReview(review: seq<nat>, kinds: map<int, Option<Kind>>, verdicts: seq<Option<Kind>>)
    returns (r: seq<Option<Kind>>)
    requires forall j :: 0 <= j < |review| ==> review[j] < |verdicts|
    ensures |r| == |verdicts|
    ensures forall k: nat :: k < |r| ==> r[k] == if k in review then Some(Reviewed(kinds, k)) else verdicts[k]
  {
    r := verdicts;
    for j := 0 to |review|
      invariant |r| == |verdicts|
      invariant forall k: nat :: k < |r| ==> r[k] == if k in review[..j] then Some(Reviewed(kinds, k)) else verdicts[k]
    {
      assert review[..j + 1] == review[..j] + [review[j]];
      r := r[review[j] := Some(Reviewed(kinds, review[j]))];
    }
    assert review[..|review|] == review;
  }

  // ----- ranking ---------------------------------------------------------------------

  function Tokens(r: seq<Ranked>): seq<int> {
    seq(|r|, i requires 0 <= i < |r| => r[i].token)
  }

  function Ranks(r: seq<Ranked>): seq<int> {
    seq(|r|, i requires 0 <= i < |r| => r[i].rank)
  }

  function UpTo(n: nat): seq<int> {
    seq(n, i => i + 1)
  }

  /** RankerDecision's field bounds and validate_ranking for n candidates: equal sorted lists
      are equal multisets. */
  predicate ValidRanking(r: seq<Ranked>, n: nat) {
    && (forall i :: 0 <= i < |r| ==> r[i].rank >= 1 && 0.0 <= r[i].score <= 1.0)
    && multiset(Tokens(r)) == multiset(UpTo(n))
    && multiset(Ranks(r)) == multiset(UpTo(n))
  }

  function ByRankOrder(a: Ranked, b: Ranked): bool {
    a.rank <= b.rank
  }

  /** RankerDecision.by_rank. */
  function ByRank(r: seq<Ranked>): seq<Ranked> {
    Sort(ByRankOrder, r)
  }

  function ParseRanking(n: nat): Payload -> Option<seq<Ranked>> {
    (p: Payload) => if p.Ranking? && ValidRanking(p.ranking, n) then Some(p.ranking) else None
  }

  lemma JsonParsed<V>(key: nat -> Call, attempt: nat, parse: Payload -> Option<V>, replies: seq<Reply>)
    ensures var r := JsonCall(key, attempt, parse, replies);
      r.Got? && r.value.Some? ==> exists p :: parse(p) == r.value
    decreases JSON_CALL_ATTEMPTS - attempt
  {
  }

  lemma UpToIsDistinct(n: nat)
    ensures Distinct(UpTo(n)) && |UpTo(n)| == n
    ensures forall x :: x in UpTo(n) <==> 1 <= x <= n
  {
    forall x | 1 <= x <= n ensures x in UpTo(n) { assert UpTo(n)[x - 1] == x; }
  }

  /** validate_ranking makes every token lookup total and the candidates distinct. */
  lemma ValidatedTokens(r: seq<Ranked>, n: nat)
    requires ValidRanking(r, n)
    ensures |r| == n && Distinct(Tokens(r)) && Distinct(Ranks(r))
    ensures forall i :: 0 <= i < |r| ==> 1 <= r[i].token <= n && 1 <= r[i].rank <= n
  {
    UpToIsDistinct(n);
    PermutationKeeps(Tokens(r), UpTo(n));
    PermutationKeeps(Ranks(r), UpTo(n));
    forall i | 0 <= i < |r| ensures 1 <= r[i].token <= n && 1 <= r[i].rank <= n {
      assert Tokens(r)[i] in Tokens(r) && Ranks(r)[i] in Ranks(r);
    }
  }

  /** _rank_batch for n >= 2 candidates: a strictly validated ranking, or None after the re-asks. */
  function RankBatch(n: nat, replies: seq<Reply>): (r: Stage<Option<seq<Ranked>>>)
    requires n >= 2
    ensures r.Got? ==> |replies| - JSON_CALL_ATTEMPTS <= |r.rest| <= |replies|
    ensures r.Want? ==> |replies| < JSON_CALL_ATTEMPTS
    ensures r.Got? && r.value.Some? ==> ValidRanking(r.value.value, n) && |r.value.value| == n
  {
    var r := JsonCall((a: nat) => Call.Rank(a), 0, ParseRanking(n), replies);
    JsonParsed((a: nat) => Call.Rank(a), 0, ParseRanking(n), replies);
    if r.Got? && r.value.Some? then ValidatedTokens(r.value.value, n); r else r
  }

  // ----- the round -------------------------------------------------------------------

  /** Indices of the ideas no verdict suppressed; the n-th has token c{n}. */
  function Rankable(verdicts: seq<Kind>): seq<nat> {
    if verdicts == [] then []
    else
      var n := |verdicts| - 1;
      Rankable(verdicts[..n]) + if Suppresses(verdicts[n]) then [] else [n]
  }

  /** The tokens the panel screens: the top one, and the second when their scores are within the
      tie margin. A sole survivor is not ranked. */
  function Finalists(c: Context, decision: Option<seq<Ranked>>): seq<int>
    requires decision.Some? ==> |decision.value| >= 2
  {
    if decision.None? then [1]
    else
      var order := ByRank(decision.value);
      SortPermutes(ByRankOrder, decision.value);
      if order[0].score - order[1].score <= c.config.tieMargin then [order[0].token, order[1].token] else [order[0].token]
  }

  /** A finalist's screen: None when its evaluation failed, Some(None) when it scored nothing usable. */
  type Screened = Option<Option<real>>

  function ScreenOf(p: Payload): Screened {
    if p.Reactions? then Some(p.score) else None
  }

  function Screens(finalists: seq<int>, replies: seq<Reply>): (r: Stage<Option<seq<Screened>>>)
    ensures r.Got? ==> |replies| - |finalists| <= |r.rest| <= |replies|
    ensures r.Want? ==> |replies| < |finalists|
    ensures r.Got? && r.value.Some? ==> |r.value.value| == |finalists|
  {
    if finalists == [] then Got(Some([]), replies)
    else
      var n := |finalists| - 1;
      match Screens(finalists[..n], replies)
      case Want(key) => Want(key)
      case Got(None, rest) => Got(None, rest)
      case Got(Some(done), rest) =>
        if rest == [] then Want(Screen(finalists[n]))
        else match rest[0]
          case Failure => Got(None, rest[1..])
          case Text(p) => Got(Some(done + [ScreenOf(p)]), rest[1..])
  }

  /** Position of the best screened finalist, an unusable score counting as minus infinity and
      the first of equals winning. */
  function BestScreen(screens: seq<Screened>): (r: Option<nat>)
    ensures r.Some? ==> r.value < |screens| && screens[r.value].Some?
    ensures r.None? ==> forall i :: 0 <= i < |screens| ==> screens[i].None?
  {
    if screens == [] then None
    else
      var n := |screens| - 1;
      var best := BestScreen(screens[..n]);
      if screens[n].None? then best
      else if best.None? then Some(n)
      else if Above(screens[n].value, screens[best.value].value) then Some(n) else best
  }

  predicate Above(a: Option<real>, b: Option<real>) {
    a.Some? && (b.None? || a.value > b.value)
  }

  datatype Round =
    | Failed
    | Abstained
    | Played(ideas: seq<Idea>, verdicts: seq<Kind>, decision: Option<seq<Ranked>>, finalists: seq<int>,
             screens: seq<Screened>, result: Loop.Result, challenger: nat, score: Option<real>)

  /** The end of a round whose finalists were screened (or that had none). */
  function Decide(c: Context, ideas: seq<Idea>, verdicts: seq<Kind>, decision: Option<seq<Ranked>>,
                  finalists: seq<int>, screens: seq<Screened>): Round
    requires |screens| == |finalists|
  {
    var rankable := Rankable(verdicts);
    if rankable == [] then Played(ideas, verdicts, decision, finalists, screens, Loop.Suppressed, 0, None)
    else
      var best := BestScreen(screens);
      if best.None? then
        var index := if finalists != [] then At(rankable, finalists[0]) else rankable[0];
        Played(ideas, verdicts, decision, finalists, screens, Loop.Unavailable, index, None)
      else
        var score := screens[best.value].value;
        Played(ideas, verdicts, decision, finalists, screens,
               if Loop.IsWin(c.state, score, c.config) then Loop.Win else Loop.Lose,
               At(rankable, finalists[best.value]), score)
  }

  /** tokens[token]; a token outside the table reads as 0, which validation excludes. */
  function At(rankable: seq<nat>, token: int): nat {
    if 1 <= token <= |rankable| then rankable[token - 1] else 0
  }

  function Screening(c: Context, ideas: seq<Idea>, verdicts: seq<Kind>, decision: Option<seq<Ranked>>,
                     finalists: seq<int>, replies: seq<Reply>): Move<Call, Round>
  {
    if finalists != [] && !c.panel then Done(Abstained)
    else match Screens(finalists, replies)
      case Want(key) => Ask(key)
      case Got(None, _) => Done(Failed)
      case Got(Some(screens), rest) =>
        Done(Decide(c, ideas, verdicts, decision, finalists, screens))
  }

  function RankingStage(c: Context, ideas: seq<Idea>, verdicts: seq<Kind>, replies: seq<Reply>): Move<Call, Round> {
    var rankable := Rankable(verdicts);
    if rankable == [] then Screening(c, ideas, verdicts, None, [], replies)
    else if |rankable| == 1 then Screening(c, ideas, verdicts, None, Finalists(c, None), replies)
    else match RankBatch(|rankable|, replies)
      case Want(key) => Ask(key)
      case Got(None, rest) => Screening(c, ideas, verdicts, None, [], rest)
      case Got(decision, rest) =>
        Screening(c, ideas, verdicts, decision, Finalists(c, decision), rest)
  }

  function ReviewStage(c: Context, ideas: seq<Idea>, replies: seq<Reply>): Move<Call, Round> {
    match Critique(c, ideas, replies)
    case Want(key) => Ask(key)
    case Got(None, _) => Done(Failed)
    case Got(Some(verdicts), rest) => RankingStage(c, ideas, verdicts, rest)
  }

  /** The body of one iteration of _stage_evolve, up to its commit. */
  function Next(c: Context, replies: seq<Reply>): Move<Call, Round> {
    match Batch(c, replies)
    case Want(key) => Ask(key)
    case Got(None, _) => Done(Failed)
    case Got(Some(ideas), rest) => ReviewStage(c, ideas, rest)
  }

  function Play(c: Context): Strategy<Call, Payload, Round> {
    (replies: seq<Reply>) => Next(c, replies)
  }
}
