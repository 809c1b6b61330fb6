/** Which replies of a round its values come from: each idea from a generation or a refill, the
    verdicts from the critic, the ranking from the ranker, a screen from the panel. */
module RoundTrace {
  import opened Common
  import opened Replay
  import opened Round
  import opened RoundPrefix

  // ----- stages as strategies ------------------------------------------------------------

  function Asks<V>(r: Stage<V>): Move<Call, V> {
    if r.Want? then Ask(r.key) else Done(r.value)
  }

  function Json<V>(key: nat -> Call, attempt: nat, parse: Payload -> Option<V>): Strategy<Call, Payload, Option<V>> {
    (replies: seq<Reply>) => Asks(JsonCall(key, attempt, parse, replies))
  }

  function Refilling(c: Context, refill: nat, ideas: seq<Idea>): Strategy<Call, Payload, seq<Idea>>
    requires refill <= MAX_BATCH_REFILLS
  {
    (replies: seq<Reply>) => Asks(Refills(c, refill, ideas, replies))
  }

  function Batching(c: Context): Strategy<Call, Payload, Option<seq<Idea>>> {
    (replies: seq<Reply>) => Asks(Batch(c, replies))
  }

  function Reviewing(c: Context, ideas: seq<Idea>): Strategy<Call, Payload, Round> {
    (replies: seq<Reply>) => ReviewStage(c, ideas, replies)
  }

  function RankingOf(c: Context, ideas: seq<Idea>, verdicts: seq<Kind>): Strategy<Call, Payload, Round> {
    (replies: seq<Reply>) => RankingStage(c, ideas, verdicts, replies)
  }

  function ScreeningOf(c: Context, ideas: seq<Idea>, verdicts: seq<Kind>, decision: Option<seq<Ranked>>,
                       finalists: seq<int>): Strategy<Call, Payload, Round> {
    (replies: seq<Reply>) => Screening(c, ideas, verdicts, decision, finalists, replies)
  }

  /** After `used`, the outer strategy asks what the inner one asks. */
  ghost predicate Continues<R, Q>(s: Strategy<Call, Payload, R>, used: seq<Reply>, inner: Strategy<Call, Payload, Q>) {
    forall more :: inner(more).Ask? ==> s(used + more) == Ask(inner(more).key)
  }

  lemma AnsweredLifts<R, Q>(s: Strategy<Call, Payload, R>, used: seq<Reply>, inner: Strategy<Call, Payload, Q>,
                            rest: seq<Reply>, key: Call, p: Payload)
    requires Continues(s, used, inner) && Answered(inner, rest, key, p)
    ensures Answered(s, used + rest, key, p)
  {
    var k :| 0 <= k < |rest| && inner(rest[..k]) == Ask(key) && rest[k] == Text(p);
    assert (used + rest)[..|used| + k] == used + rest[..k] && (used + rest)[|used| + k] == rest[k];
  }

  /** The outer strategy begins by asking what the inner one asks. */
  ghost predicate Begins<R, Q>(s: Strategy<Call, Payload, R>, inner: Strategy<Call, Payload, Q>) {
    forall replies :: inner(replies).Ask? ==> s(replies) == Ask(inner(replies).key)
  }

  lemma AnsweredBegins<R, Q>(s: Strategy<Call, Payload, R>, inner: Strategy<Call, Payload, Q>,
                             replies: seq<Reply>, key: Call, p: Payload)
    requires Begins(s, inner) && Answered(inner, replies, key, p)
    ensures Answered(s, replies, key, p)
  {
    var k :| 0 <= k < |replies| && inner(replies[..k]) == Ask(key) && replies[k] == Text(p);
    assert s(replies[..k]) == Ask(key);
  }

  lemma JsonContinues<V>(key: nat -> Call, attempt: nat, parse: Payload -> Option<V>, p: Payload)
    requires attempt < JSON_CALL_ATTEMPTS && parse(p).None?
    ensures Continues(Json(key, attempt, parse), [Text(p)], Json(key, attempt + 1, parse))
  {
    forall more ensures JsonCall(key, attempt, parse, [Text(p)] + more) == JsonCall(key, attempt + 1, parse, more) {
      assert ([Text(p)] + more)[1..] == more;
    }
  }

  lemma JsonTaken<V>(key: nat -> Call, attempt: nat, parse: Payload -> Option<V>, replies: seq<Reply>)
    requires attempt < JSON_CALL_ATTEMPTS && replies != [] && replies[0].Text?
    ensures Answered(Json(key, attempt, parse), replies, key(attempt), replies[0].value)
  {
    assert replies[..0] == [] && Json(key, attempt, parse)([]) == Ask(key(attempt));
  }

  /** A parsed value is the parse of a reply to one of the attempts. */
  ghost predicate ParsedFrom<V>(key: nat -> Call, attempt: nat, parse: Payload -> Option<V>, replies: seq<Reply>, v: Option<V>) {
    exists a, p :: parse(p) == v && Answered(Json(key, attempt, parse), replies, key(a), p)
  }

  lemma {:induction false} JsonAnswered<V>(key: nat -> Call, attempt: nat, parse: Payload -> Option<V>, replies: seq<Reply>)
    requires var r := JsonCall(key, attempt, parse, replies); r.Got? && r.value.Some?
    ensures ParsedFrom(key, attempt, parse, replies, JsonCall(key, attempt, parse, replies).value)
    decreases JSON_CALL_ATTEMPTS - attempt
  {
    hide Answered, Json, Continues;
    var r := JsonCall(key, attempt, parse, replies);
    var p := replies[0].value;
    if parse(p).Some? {
      JsonTaken(key, attempt, parse, replies);
    } else {
      JsonAnswered(key, attempt + 1, parse, replies[1..]);
      var a, q :| parse(q) == r.value && Answered(Json(key, attempt + 1, parse), replies[1..], key(a), q);
      JsonContinues(key, attempt, parse, p);
      AnsweredLifts(Json(key, attempt, parse), [Text(p)], Json(key, attempt + 1, parse), replies[1..], key(a), q);
      assert [Text(p)] + replies[1..] == replies;
    }
  }

  // ----- ideas ---------------------------------------------------------------------------

  lemma {:induction false} FirstOfEachIn(ideas: seq<Idea>, idea: Idea)
    requires idea in FirstOfEach(ideas)
    ensures idea in ideas
  {
    if ideas != [] {
      var before := ideas[..|ideas| - 1];
      if idea in FirstOfEach(before) { FirstOfEachIn(before, idea); }
    }
  }

  lemma {:induction false} WithoutIn(ideas: seq<Idea>, m: string, idea: Idea)
    requires idea in Without(ideas, m)
    ensures idea in ideas
  {
    if ideas != [] && idea in Without(ideas[1..], m) { WithoutIn(ideas[1..], m, idea); }
  }

  /** Deduplication invents no idea. */
  lemma DedupeIn(ideas: seq<Idea>, count: nat, keep: Option<string>, idea: Idea)
    requires idea in Dedupe(ideas, count, keep)
    ensures idea in ideas
  {
    var held := FirstOfEach(ideas);
    assert idea in held by {
      if keep.Some? && Has(held, keep.value) && idea in Without(held, keep.value) { WithoutIn(held, keep.value, idea); }
    }
    FirstOfEachIn(ideas, idea);
  }

  /** A generation or a refill was answered with a list the idea is in. */
  ghost predicate GeneratedBy<R>(s: Strategy<Call, Payload, R>, replies: seq<Reply>, idea: Idea) {
    exists key: Call, items :: (key.Generate? || key.Refill?) && Answered(s, replies, key, Ideas(items)) && idea in items
  }

  lemma GeneratedLifts<R, Q>(s: Strategy<Call, Payload, R>, used: seq<Reply>, inner: Strategy<Call, Payload, Q>,
                             rest: seq<Reply>, idea: Idea)
    requires Continues(s, used, inner) && GeneratedBy(inner, rest, idea)
    ensures GeneratedBy(s, used + rest, idea)
  {
    var key: Call, items :| (key.Generate? || key.Refill?) && Answered(inner, rest, key, Ideas(items)) && idea in items;
    AnsweredLifts(s, used, inner, rest, key, Ideas(items));
  }

  /** A refill adds only ideas it was answered with. */
  lemma {:induction false} RefillsGenerate(c: Context, refill: nat, ideas: seq<Idea>, replies: seq<Reply>, idea: Idea)
    requires refill <= MAX_BATCH_REFILLS
    requires var r := Refills(c, refill, ideas, replies); r.Got? && idea in r.value
    ensures idea in ideas || GeneratedBy(Refilling(c, refill, ideas), replies, idea)
    decreases MAX_BATCH_REFILLS - refill
  {
    hide JsonCall, Dedupe, Enough;
    if refill < MAX_BATCH_REFILLS && !Enough(c, ideas) {
      var f := (a: nat) => Call.Refill(refill, a);
      var j := JsonCall(f, 0, ParseIdeas, replies);
      if j.value.Some? {
        var next := Dedupe(ideas + j.value.value, c.count, c.warm);
        RefillsGenerate(c, refill + 1, next, j.rest, idea);
        if idea in next {
          DedupeIn(ideas + j.value.value, c.count, c.warm, idea);
          if idea !in ideas { RefillAnswered(c, refill, ideas, replies, idea); }
        } else {
          var used := UsedBy(j, replies);
          forall more ensures JsonCall(f, 0, ParseIdeas, used + more) == Got(j.value, more) {
            JsonSplits(f, 0, ParseIdeas, replies, more);
          }
          GeneratedLifts(Refilling(c, refill, ideas), used, Refilling(c, refill + 1, next), j.rest, idea);
          JsonOneMore(f, 0, ParseIdeas, replies, Failure);
        }
      }
    }
  }

  lemma RefillAnswered(c: Context, refill: nat, ideas: seq<Idea>, replies: seq<Reply>, idea: Idea)
    requires refill < MAX_BATCH_REFILLS && !Enough(c, ideas)
    requires var j := JsonCall((a: nat) => Call.Refill(refill, a), 0, ParseIdeas, replies); j.Got? && j.value.Some? && idea in j.value.value
    ensures GeneratedBy(Refilling(c, refill, ideas), replies, idea)
  {
    hide JsonCall, Dedupe, Enough;
    var f := (a: nat) => Call.Refill(refill, a);
    JsonAnswered(f, 0, ParseIdeas, replies);
    var j := JsonCall(f, 0, ParseIdeas, replies);
    var a, p :| ParseIdeas(p) == j.value && Answered(Json(f, 0, ParseIdeas), replies, f(a), p);
    AnsweredBegins(Refilling(c, refill, ideas), Json(f, 0, ParseIdeas), replies, f(a), p);
    assert p == Ideas(j.value.value) && f(a).Refill?;
    assert Answered(Refilling(c, refill, ideas), replies, f(a), Ideas(j.value.value));
  }

  lemma GenerationAnswered(c: Context, replies: seq<Reply>, idea: Idea)
    requires var j := JsonCall((a: nat) => Call.Generate(a), 0, ParseIdeas, replies); j.Got? && j.value.Some? && idea in j.value.value
    ensures GeneratedBy(Batching(c), replies, idea)
  {
    hide JsonCall, Dedupe, Refills;
    var f := (a: nat) => Call.Generate(a);
    JsonAnswered(f, 0, ParseIdeas, replies);
    var j := JsonCall(f, 0, ParseIdeas, replies);
    var a, p :| ParseIdeas(p) == j.value && Answered(Json(f, 0, ParseIdeas), replies, f(a), p);
    AnsweredBegins(Batching(c), Json(f, 0, ParseIdeas), replies, f(a), p);
    assert p == Ideas(j.value.value) && f(a).Generate?;
    assert Answered(Batching(c), replies, f(a), Ideas(j.value.value));
  }

  lemma BatchContinues(c: Context, replies: seq<Reply>)
    requires var j := JsonCall((a: nat) => Call.Generate(a), 0, ParseIdeas, replies); j.Got? && j.value.Some?
    ensures var j := JsonCall((a: nat) => Call.Generate(a), 0, ParseIdeas, replies);
      Continues(Batching(c), UsedBy(j, replies), Refilling(c, 0, Dedupe(j.value.value, c.count, c.warm)))
  {
    hide JsonCall, Dedupe, Refills;
    var f := (a: nat) => Call.Generate(a);
    var j := JsonCall(f, 0, ParseIdeas, replies);
    forall more ensures JsonCall(f, 0, ParseIdeas, UsedBy(j, replies) + more) == Got(j.value, more) {
      JsonSplits(f, 0, ParseIdeas, replies, more);
    }
  }

  /** Batch generation returns only ideas it was answered with. */
  lemma BatchGenerates(c: Context, replies: seq<Reply>, idea: Idea)
    requires var r := Batch(c, replies); r.Got? && r.value.Some? && idea in r.value.value
    ensures GeneratedBy(Batching(c), replies, idea)
  {
    hide JsonCall, Dedupe, Refills, Continues, GeneratedBy;
    var f := (a: nat) => Call.Generate(a);
    var j := JsonCall(f, 0, ParseIdeas, replies);
    var first := Dedupe(j.value.value, c.count, c.warm);
    RefillsGenerate(c, 0, first, j.rest, idea);
    if idea in first {
      DedupeIn(j.value.value, c.count, c.warm, idea);
      GenerationAnswered(c, replies, idea);
    } else {
      BatchContinues(c, replies);
      GeneratedLifts(Batching(c), UsedBy(j, replies), Refilling(c, 0, first), j.rest, idea);
      JsonOneMore(f, 0, ParseIdeas, replies, Failure);
    }
  }

  // ----- verdicts, ranking and screens ---------------------------------------------------

  /** The verdicts are the gates' and those of a critic that was asked, if one was needed. */
  ghost predicate ReviewedBy<R>(s: Strategy<Call, Payload, R>, replies: seq<Reply>, c: Context, ideas: seq<Idea>,
                                verdicts: seq<Kind>) {
    exists kinds :: verdicts == AllVerdicts(c, ideas, kinds) && (NeedsCritic(c, ideas) ==> CriticSaid(s, replies, kinds))
  }

  ghost predicate CriticSaid<R>(s: Strategy<Call, Payload, R>, replies: seq<Reply>, kinds: map<int, Option<Kind>>) {
    exists a :: Answered(s, replies, Critic(a), Verdicts(kinds))
  }

  /** A decision is a ranking the ranker was asked for. */
  ghost predicate RankedBy<R>(s: Strategy<Call, Payload, R>, replies: seq<Reply>, decision: Option<seq<Ranked>>) {
    decision.Some? ==> exists a :: Answered(s, replies, Rank(a), Payload.Ranking(decision.value))
  }

  /** Each finalist's screen is what the panel's reply on it was worth. */
  ghost predicate ScreenedBy<R>(s: Strategy<Call, Payload, R>, replies: seq<Reply>, finalists: seq<int>, screens: seq<Screened>) {
    |screens| == |finalists| && forall j :: 0 <= j < |screens| ==> PanelSaid(s, replies, finalists[j], screens[j])
  }

  ghost predicate PanelSaid<R>(s: Strategy<Call, Payload, R>, replies: seq<Reply>, token: int, screen: Screened) {
    exists p :: Answered(s, replies, Screen(token), p) && screen == ScreenOf(p)
  }

  lemma ReviewedLifts<R, Q>(s: Strategy<Call, Payload, R>, used: seq<Reply>, inner: Strategy<Call, Payload, Q>,
                            rest: seq<Reply>, c: Context, ideas: seq<Idea>, verdicts: seq<Kind>)
    requires Continues(s, used, inner) && ReviewedBy(inner, rest, c, ideas, verdicts)
    ensures ReviewedBy(s, used + rest, c, ideas, verdicts)
  {
    hide AllVerdicts, NeedsCritic, Continues, Answered;
    var kinds :| verdicts == AllVerdicts(c, ideas, kinds) && (NeedsCritic(c, ideas) ==> CriticSaid(inner, rest, kinds));
    if NeedsCritic(c, ideas) {
      var a :| Answered(inner, rest, Critic(a), Verdicts(kinds));
      AnsweredLifts(s, used, inner, rest, Critic(a), Verdicts(kinds));
    }
  }

  lemma RankedLifts<R, Q>(s: Strategy<Call, Payload, R>, used: seq<Reply>, inner: Strategy<Call, Payload, Q>,
                          rest: seq<Reply>, decision: Option<seq<Ranked>>)
    requires Continues(s, used, inner) && RankedBy(inner, rest, decision)
    ensures RankedBy(s, used + rest, decision)
  {
    hide Continues, Answered;
    if decision.Some? {
      var a :| Answered(inner, rest, Rank(a), Payload.Ranking(decision.value));
      AnsweredLifts(s, used, inner, rest, Rank(a), Payload.Ranking(decision.value));
    }
  }

  lemma ScreenedLifts<R, Q>(s: Strategy<Call, Payload, R>, used: seq<Reply>, inner: Strategy<Call, Payload, Q>,
                            rest: seq<Reply>, finalists: seq<int>, screens: seq<Screened>)
    requires Continues(s, used, inner) && ScreenedBy(inner, rest, finalists, screens)
    ensures ScreenedBy(s, used + rest, finalists, screens)
  {
    hide Continues, Answered, ScreenOf;
    forall j | 0 <= j < |screens| ensures PanelSaid(s, used + rest, finalists[j], screens[j]) {
      assert PanelSaid(inner, rest, finalists[j], screens[j]);
      var p :| Answered(inner, rest, Screen(finalists[j]), p) && screens[j] == ScreenOf(p);
      AnsweredLifts(s, used, inner, rest, Screen(finalists[j]), p);
    }
  }

  lemma CriticAnswered(c: Context, ideas: seq<Idea>, replies: seq<Reply>)
    requires var r := Critique(c, ideas, replies); r.Got? && r.value.Some?
    ensures ReviewedBy(Reviewing(c, ideas), replies, c, ideas, Critique(c, ideas, replies).value.value)
  {
    hide JsonCall, RankingStage, AllVerdicts, NeedsCritic;
    var s := Reviewing(c, ideas);
    if NeedsCritic(c, ideas) {
      var f := (a: nat) => Call.Critic(a);
      JsonAnswered(f, 0, ParseVerdicts, replies);
      var j := JsonCall(f, 0, ParseVerdicts, replies);
      var a, p :| ParseVerdicts(p) == j.value && Answered(Json(f, 0, ParseVerdicts), replies, f(a), p);
      AnsweredBegins(s, Json(f, 0, ParseVerdicts), replies, f(a), p);
      assert p == Verdicts(j.value.value) && f(a) == Critic(a);
      assert CriticSaid(s, replies, j.value.value);
    } else {
      var none: map<int, Option<Kind>> := map[];
      assert Critique(c, ideas, replies).value.value == AllVerdicts(c, ideas, none);
    }
  }

  lemma RankerAnswered(c: Context, ideas: seq<Idea>, verdicts: seq<Kind>, replies: seq<Reply>)
    requires |Rankable(verdicts)| >= 2
    requires var r := RankBatch(|Rankable(verdicts)|, replies); r.Got? && r.value.Some?
    ensures RankedBy(RankingOf(c, ideas, verdicts), replies, RankBatch(|Rankable(verdicts)|, replies).value)
  {
    hide JsonCall, Screening, ValidRanking, Rankable;
    var s := RankingOf(c, ideas, verdicts);
    var n := |Rankable(verdicts)|;
    var f := (a: nat) => Call.Rank(a);
    JsonAnswered(f, 0, ParseRanking(n), replies);
    var j := JsonCall(f, 0, ParseRanking(n), replies);
    var a, p :| ParseRanking(n)(p) == j.value && Answered(Json(f, 0, ParseRanking(n)), replies, f(a), p);
    AnsweredBegins(s, Json(f, 0, ParseRanking(n)), replies, f(a), p);
    assert p == Payload.Ranking(j.value.value) && f(a) == Rank(a);
  }

  lemma {:induction false} PanelAnswered(finalists: seq<int>, replies: seq<Reply>, j: nat)
    requires var r := Screens(finalists, replies); r.Got? && r.value.Some?
    requires j < |finalists|
    ensures var screens := Screens(finalists, replies).value.value;
      && j < |replies| && replies[j].Text? && screens[j] == ScreenOf(replies[j].value)
      && Screens(finalists, replies[..j]) == Want(Screen(finalists[j]))
    decreases |finalists|
  {
    var n := |finalists| - 1;
    var before := finalists[..n];
    ScreensUse(before, replies);
    if j == n {
      ScreensSplits(before, replies, []);
      assert replies[..n] + [] == replies[..n];
    } else {
      PanelAnswered(before, replies, j);
    }
  }

  lemma FinalistsScreened(c: Context, ideas: seq<Idea>, verdicts: seq<Kind>, decision: Option<seq<Ranked>>,
                          finalists: seq<int>, replies: seq<Reply>)
    requires finalists == [] || c.panel
    requires var r := Screens(finalists, replies); r.Got? && r.value.Some?
    ensures ScreenedBy(ScreeningOf(c, ideas, verdicts, decision, finalists), replies, finalists, Screens(finalists, replies).value.value)
  {
    hide Screens, Decide, ScreenOf;
    var s := ScreeningOf(c, ideas, verdicts, decision, finalists);
    var screens := Screens(finalists, replies).value.value;
    forall j | 0 <= j < |screens| ensures PanelSaid(s, replies, finalists[j], screens[j]) {
      PanelAnswered(finalists, replies, j);
      assert s(replies[..j]) == Ask(Screen(finalists[j]));
      assert Answered(s, replies, Screen(finalists[j]), replies[j].value);
    }
  }

  // ----- from stage to stage ---------------------------------------------------------------

  /** Once the batch is complete the round is in its review stage. */
  lemma NextGoesOn(c: Context, replies: seq<Reply>, more: seq<Reply>)
    requires var b := Batch(c, replies); b.Got? && b.value.Some?
    ensures var b := Batch(c, replies);
      Next(c, UsedBy(b, replies) + more) == ReviewStage(c, b.value.value, more)
  {
    hide Batch, ReviewStage;
    BatchSplits(c, replies, more);
  }

  lemma NextContinues(c: Context, replies: seq<Reply>)
    requires var b := Batch(c, replies); b.Got? && b.value.Some?
    ensures var b := Batch(c, replies);
      Continues(Play(c), UsedBy(b, replies), Reviewing(c, b.value.value))
  {
    hide Batch, ReviewStage, Next;
    var b := Batch(c, replies);
    forall more ensures Next(c, UsedBy(b, replies) + more) == ReviewStage(c, b.value.value, more) {
      NextGoesOn(c, replies, more);
    }
  }

  lemma ReviewGoesOn(c: Context, ideas: seq<Idea>, replies: seq<Reply>, more: seq<Reply>)
    requires var v := Critique(c, ideas, replies); v.Got? && v.value.Some?
    ensures var v := Critique(c, ideas, replies);
      ReviewStage(c, ideas, UsedBy(v, replies) + more)
        == RankingStage(c, ideas, v.value.value, more)
  {
    hide Critique, RankingStage;
    CritiqueSplits(c, ideas, replies, more);
  }

  lemma ReviewContinues(c: Context, ideas: seq<Idea>, replies: seq<Reply>)
    requires var v := Critique(c, ideas, replies); v.Got? && v.value.Some?
    ensures var v := Critique(c, ideas, replies);
      Continues(Reviewing(c, ideas), UsedBy(v, replies),
                RankingOf(c, ideas, v.value.value))
  {
    hide Critique, RankingStage, ReviewStage;
    var v := Critique(c, ideas, replies);
    forall more ensures ReviewStage(c, ideas, UsedBy(v, replies) + more)
        == RankingStage(c, ideas, v.value.value, more) {
      ReviewGoesOn(c, ideas, replies, more);
    }
  }

  /** The finalists a ranking stage goes on with; none when the ranker failed. */
  function Shortlist(c: Context, n: nat, decision: Option<seq<Ranked>>): seq<int>
    requires decision.Some? ==> |decision.value| >= 2
  {
    if decision.Some? || n == 1 then Finalists(c, decision) else []
  }

  lemma RankingGoesOn(c: Context, ideas: seq<Idea>, verdicts: seq<Kind>, replies: seq<Reply>, more: seq<Reply>)
    requires var n := |Rankable(verdicts)|; n >= 2 && RankBatch(n, replies).Got?
    ensures var n := |Rankable(verdicts)|; var d := RankBatch(n, replies);
      RankingStage(c, ideas, verdicts, UsedBy(d, replies) + more)
        == Screening(c, ideas, verdicts, d.value, Shortlist(c, n, d.value), more)
  {
    hide RankBatch, Screening, Rankable, Finalists;
    RankBatchSplits(|Rankable(verdicts)|, replies, more);
  }

  lemma RankingContinues(c: Context, ideas: seq<Idea>, verdicts: seq<Kind>, replies: seq<Reply>)
    requires var n := |Rankable(verdicts)|; n >= 2 && RankBatch(n, replies).Got?
    ensures var n := |Rankable(verdicts)|; var d := RankBatch(n, replies);
      Continues(RankingOf(c, ideas, verdicts), UsedBy(d, replies),
                ScreeningOf(c, ideas, verdicts, d.value, Shortlist(c, n, d.value)))
  {
    hide RankBatch, Screening, Rankable, Shortlist, RankingStage;
    var n := |Rankable(verdicts)|;
    var d := RankBatch(n, replies);
    forall more ensures RankingStage(c, ideas, verdicts, UsedBy(d, replies) + more)
        == Screening(c, ideas, verdicts, d.value, Shortlist(c, n, d.value), more) {
      RankingGoesOn(c, ideas, verdicts, replies, more);
    }
  }

  /** With fewer than two candidates nothing is ranked. */
  lemma UnrankedGoesOn(c: Context, ideas: seq<Idea>, verdicts: seq<Kind>, replies: seq<Reply>)
    requires |Rankable(verdicts)| < 2
    ensures RankingStage(c, ideas, verdicts, replies)
         == Screening(c, ideas, verdicts, None, Shortlist(c, |Rankable(verdicts)|, None), replies)
  {
  }
}
