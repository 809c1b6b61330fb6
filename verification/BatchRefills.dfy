/** When batch generation asks for a refill, and what a batch that stayed short was answered. */
module BatchRefills {
  import opened Common
  import opened Replay
  import opened Round
  import opened BatchProofs
  import opened RoundPrefix
  import opened RoundTrace

  predicate Short(c: Context, ideas: seq<Idea>) {
    |ideas| < c.count
  }

  predicate WarmGone(c: Context, ideas: seq<Idea>) {
    c.warm.Some? && c.warm.value !in Mechanisms(ideas)
  }

  predicate Gap(c: Context, ideas: seq<Idea>) {
    Short(c, ideas) || WarmGone(c, ideas)
  }

  // ----- when a refill is asked ------------------------------------------------------

  /** A gap is what keeps the refill loop going. */
  lemma GapIsNotEnough(c: Context, ideas: seq<Idea>)
    ensures Gap(c, ideas) <==> !Enough(c, ideas)
  {
  }

  /** A batch without a gap asks no further refill. */
  lemma NoGapAsksNothing(c: Context, refill: nat, ideas: seq<Idea>, replies: seq<Reply>)
    requires refill <= MAX_BATCH_REFILLS && !Gap(c, ideas)
    ensures Refills(c, refill, ideas, replies) == Got(ideas, replies)
  {
  }

  /** A batch with a gap asks the next refill while there is one. */
  lemma GapAsks(c: Context, refill: nat, ideas: seq<Idea>)
    requires refill < MAX_BATCH_REFILLS && Gap(c, ideas)
    ensures Refills(c, refill, ideas, []) == Want(Refill(refill, 0))
  {
  }

  /** There are two refills: the second is asked when the first leaves a gap, and after it the batch is
      done, gap or not. */
  lemma TwoRefills(c: Context, ideas: seq<Idea>, a: seq<Idea>, b: seq<Idea>)
    requires a != [] && b != [] && Gap(c, ideas) && Gap(c, Dedupe(ideas + a, c.count, c.warm))
    ensures Refills(c, 0, ideas, [Text(Ideas(a))]) == Want(Refill(1, 0))
    ensures Refills(c, 0, ideas, [Text(Ideas(a)), Text(Ideas(b))]) ==
      Got(Dedupe(Dedupe(ideas + a, c.count, c.warm) + b, c.count, c.warm), [])
  {
  }

  /** After the first list the batch asks for a refill exactly when the list names too few
      mechanisms, or not the warm one. */
  lemma FirstListDecides(c: Context, items: seq<Idea>)
    requires c.count >= 1 && items != []
    ensures var few := |Mechanisms(items)| < c.count || (c.warm.Some? && c.warm.value !in Mechanisms(items));
      Batch(c, [Text(Ideas(items))]) ==
        if few then Want(Refill(0, 0)) else Got(Some(Dedupe(items, c.count, c.warm)), [])
  {
    hide Refills, Dedupe;
    var first := Dedupe(items, c.count, c.warm);
    DedupeFacts(items, c.count, c.warm);
    if c.warm.Some? { HasIsIn(items, c.warm.value); }
    if Gap(c, first) { GapAsks(c, 0, first); } else { NoGapAsksNothing(c, 0, first, []); }
  }

  // ----- how a call ends without a value ---------------------------------------------

  /** The provider failed under the key. */
  ghost predicate FailedUnder<R>(s: Strategy<Call, Payload, R>, replies: seq<Reply>, key: Call) {
    exists k :: 0 <= k < |replies| && s(replies[..k]) == Ask(key) && replies[k] == Failure
  }

  ghost predicate Unparsed<V, R>(s: Strategy<Call, Payload, R>, replies: seq<Reply>, key: Call, parse: Payload -> Option<V>) {
    exists p :: parse(p).None? && Answered(s, replies, key, p)
  }

  /** Some attempt met a provider failure, or every one of them was answered with what does not parse. */
  ghost predicate CallFailed<V, R>(s: Strategy<Call, Payload, R>, replies: seq<Reply>, key: nat -> Call, attempt: nat,
                                   parse: Payload -> Option<V>) {
    || (exists a: nat :: FailedUnder(s, replies, key(a)))
    || (forall a: nat :: attempt <= a < JSON_CALL_ATTEMPTS ==> Unparsed(s, replies, key(a), parse))
  }

  lemma FailedLifts<R, Q>(s: Strategy<Call, Payload, R>, used: seq<Reply>, inner: Strategy<Call, Payload, Q>,
                          rest: seq<Reply>, key: Call)
    requires Continues(s, used, inner) && FailedUnder(inner, rest, key)
    ensures FailedUnder(s, used + rest, key)
  {
    var k :| 0 <= k < |rest| && inner(rest[..k]) == Ask(key) && rest[k] == Failure;
    assert (used + rest)[..|used| + k] == used + rest[..k] && (used + rest)[|used| + k] == rest[k];
  }

  lemma CallFailedLifts<V, R, Q>(s: Strategy<Call, Payload, R>, used: seq<Reply>, inner: Strategy<Call, Payload, Q>,
                                 rest: seq<Reply>, key: nat -> Call, attempt: nat, parse: Payload -> Option<V>)
    requires Continues(s, used, inner) && CallFailed(inner, rest, key, attempt, parse)
    ensures CallFailed(s, used + rest, key, attempt, parse)
  {
    hide Continues, Answered, FailedUnder;
    if a: nat :| FailedUnder(inner, rest, key(a)) {
      FailedLifts(s, used, inner, rest, key(a));
    } else {
      forall a: nat | attempt <= a < JSON_CALL_ATTEMPTS ensures Unparsed(s, used + rest, key(a), parse) {
        var p :| parse(p).None? && Answered(inner, rest, key(a), p);
        AnsweredLifts(s, used, inner, rest, key(a), p);
      }
    }
  }

  lemma OneMoreUnparsed<V, R>(s: Strategy<Call, Payload, R>, replies: seq<Reply>, key: nat -> Call, attempt: nat,
                              parse: Payload -> Option<V>)
    requires CallFailed(s, replies, key, attempt + 1, parse) && Unparsed(s, replies, key(attempt), parse)
    ensures CallFailed(s, replies, key, attempt, parse)
  {
  }

  /** A call without a value was failed by the provider, or ran out of attempts. */
  lemma {:induction false} JsonFailed<V>(key: nat -> Call, attempt: nat, parse: Payload -> Option<V>, replies: seq<Reply>)
    requires JsonCall(key, attempt, parse, replies).Got? && JsonCall(key, attempt, parse, replies).value.None?
    ensures CallFailed(Json(key, attempt, parse), replies, key, attempt, parse)
    decreases JSON_CALL_ATTEMPTS - attempt
  {
    hide Answered, Continues, CallFailed, Json;
    if attempt >= JSON_CALL_ATTEMPTS {
      NoAttemptLeft(Json(key, attempt, parse), replies, key, attempt, parse);
    } else if replies[0].Text? {
      var p := replies[0].value;
      JsonFailed(key, attempt + 1, parse, replies[1..]);
      JsonContinues(key, attempt, parse, p);
      CallFailedLifts(Json(key, attempt, parse), [Text(p)], Json(key, attempt + 1, parse), replies[1..], key, attempt + 1, parse);
      assert [Text(p)] + replies[1..] == replies;
      JsonTaken(key, attempt, parse, replies);
      OneMoreUnparsed(Json(key, attempt, parse), replies, key, attempt, parse);
    } else {
      FailedAtOnce(key, attempt, parse, replies);
    }
  }

  lemma NoAttemptLeft<V, R>(s: Strategy<Call, Payload, R>, replies: seq<Reply>, key: nat -> Call, attempt: nat,
                            parse: Payload -> Option<V>)
    requires attempt >= JSON_CALL_ATTEMPTS
    ensures CallFailed(s, replies, key, attempt, parse)
  {
  }

  lemma FailedAtOnce<V>(key: nat -> Call, attempt: nat, parse: Payload -> Option<V>, replies: seq<Reply>)
    requires attempt < JSON_CALL_ATTEMPTS && replies != [] && replies[0].Failure?
    ensures CallFailed(Json(key, attempt, parse), replies, key, attempt, parse)
  {
  }

  // ----- a batch that stayed short ---------------------------------------------------

  /** The refill was answered with ideas that could not help: nothing new to a short batch, no
      warm mechanism to one that lacks it. */
  ghost predicate InVain<R>(s: Strategy<Call, Payload, R>, replies: seq<Reply>, c: Context, ideas: seq<Idea>, refill: nat) {
    exists a, items ::
      && Answered(s, replies, Refill(refill, a), Ideas(items))
      && (Short(c, ideas) ==> Mechanisms(items) <= Mechanisms(ideas))
      && (WarmGone(c, ideas) ==> c.warm.value !in Mechanisms(items))
  }

  function RefillKey(refill: nat): nat -> Call {
    (a: nat) => Call.Refill(refill, a)
  }

  ghost predicate RefillsSpent<R>(s: Strategy<Call, Payload, R>, replies: seq<Reply>, c: Context, ideas: seq<Idea>, first: nat) {
    || (exists k: nat :: first <= k < MAX_BATCH_REFILLS && CallFailed(s, replies, RefillKey(k), 0, ParseIdeas))
    || (forall k: nat :: first <= k < MAX_BATCH_REFILLS ==> InVain(s, replies, c, ideas, k))
  }

  lemma MechanismsSubset(some: seq<Idea>, all: seq<Idea>)
    requires forall i :: 0 <= i < |some| ==> some[i] in all
    ensures Mechanisms(some) <= Mechanisms(all)
  {
    forall i | 0 <= i < |some| ensures some[i].mechanism in Mechanisms(all) {
      var j :| 0 <= j < |all| && all[j] == some[i];
    }
  }

  lemma KeptMechanisms(c: Context, from: seq<Idea>, to: seq<Idea>)
    requires Kept(c, from, to) && c.count >= 1
    ensures |from| < c.count ==> Mechanisms(from) <= Mechanisms(to)
    ensures WarmGone(c, to) ==> WarmGone(c, from)
  {
    if from <= to {
      MechanismsSubset(from, to);
    } else {
      assert to[0].mechanism in Mechanisms(to);
      if |from| < c.count {
        assert Take(from, c.count - 1) == from;
        MechanismsSubset(from, to[1..]);
        MechanismsSubset(to[1..], to);
      }
    }
  }

  /** A dedupe that is not full cut nothing, and one without the warm mechanism was not given it. */
  lemma NothingCut(c: Context, all: seq<Idea>)
    requires c.count >= 1
    ensures var next := Dedupe(all, c.count, c.warm);
      && (|next| < c.count ==> Mechanisms(next) == Mechanisms(all))
      && (WarmGone(c, next) ==> WarmGone(c, all))
  {
    var next := Dedupe(all, c.count, c.warm);
    DedupeFacts(all, c.count, c.warm);
    if |next| < c.count {
      DistinctCount(next);
      SameSize(Mechanisms(next), Mechanisms(all));
    }
    if c.warm.Some? && c.warm.value in Mechanisms(all) {
      HasIsIn(all, c.warm.value);
      assert next[0].mechanism in Mechanisms(next);
    }
  }

  lemma SameSize(some: set<string>, all: set<string>)
    requires some <= all && |some| >= |all|
    ensures some == all
  {
    assert |all - some| == |all| - |some|;
  }

  /** What one answer could not change about the batch in the end. */
  lemma MoreWasInVain(c: Context, refill: nat, ideas: seq<Idea>, more: seq<Idea>, rest: seq<Reply>)
    requires refill < MAX_BATCH_REFILLS && c.count >= 1
    requires Refills(c, refill + 1, Dedupe(ideas + more, c.count, c.warm), rest).Got?
    ensures var end := Refills(c, refill + 1, Dedupe(ideas + more, c.count, c.warm), rest).value;
      && (Short(c, end) ==> Mechanisms(more) <= Mechanisms(end))
      && (WarmGone(c, end) ==> c.warm.value !in Mechanisms(more))
  {
    hide Refills, Dedupe, Kept, Mechanisms;
    var next := Dedupe(ideas + more, c.count, c.warm);
    var end := Refills(c, refill + 1, next, rest).value;
    DedupedDedupe(c, ideas + more);
    RefillsKeepIdeas(c, refill + 1, next, rest);
    KeptMechanisms(c, next, end);
    NothingCut(c, ideas + more);
    MechanismsSubset(more, ideas + more);
    if Short(c, end) { KeptGrows(c, next, end); }
  }

  lemma KeptGrows(c: Context, from: seq<Idea>, to: seq<Idea>)
    requires Kept(c, from, to) && c.count >= 1 && |to| < c.count
    ensures |from| < c.count
  {
  }

  // ----- over all refills ------------------------------------------------------------

  lemma CallFailedBegins<V, R, Q>(s: Strategy<Call, Payload, R>, inner: Strategy<Call, Payload, Q>, replies: seq<Reply>,
                                  key: nat -> Call, parse: Payload -> Option<V>)
    requires Begins(s, inner) && CallFailed(inner, replies, key, 0, parse)
    ensures CallFailed(s, replies, key, 0, parse)
  {
    hide Begins, Answered;
    if a: nat :| FailedUnder(inner, replies, key(a)) {
      FailedBegins(s, inner, replies, key(a));
    } else {
      forall a: nat | a < JSON_CALL_ATTEMPTS ensures Unparsed(s, replies, key(a), parse) {
        var p :| parse(p).None? && Answered(inner, replies, key(a), p);
        AnsweredBegins(s, inner, replies, key(a), p);
      }
    }
  }

  lemma FailedBegins<R, Q>(s: Strategy<Call, Payload, R>, inner: Strategy<Call, Payload, Q>, replies: seq<Reply>, key: Call)
    requires Begins(s, inner) && FailedUnder(inner, replies, key)
    ensures FailedUnder(s, replies, key)
  {
  }

  lemma InVainLifts<R, Q>(s: Strategy<Call, Payload, R>, used: seq<Reply>, inner: Strategy<Call, Payload, Q>, rest: seq<Reply>,
                          c: Context, ideas: seq<Idea>, refill: nat)
    requires Continues(s, used, inner) && InVain(inner, rest, c, ideas, refill)
    ensures InVain(s, used + rest, c, ideas, refill)
  {
    hide Continues, Answered, Mechanisms;
    var a, items :|
      && Answered(inner, rest, Refill(refill, a), Ideas(items))
      && (Short(c, ideas) ==> Mechanisms(items) <= Mechanisms(ideas))
      && (WarmGone(c, ideas) ==> c.warm.value !in Mechanisms(items));
    AnsweredLifts(s, used, inner, rest, Refill(refill, a), Ideas(items));
  }

  lemma SpentLifts<R, Q>(s: Strategy<Call, Payload, R>, used: seq<Reply>, inner: Strategy<Call, Payload, Q>, rest: seq<Reply>,
                         c: Context, ideas: seq<Idea>, first: nat)
    requires Continues(s, used, inner) && RefillsSpent(inner, rest, c, ideas, first)
    ensures RefillsSpent(s, used + rest, c, ideas, first)
  {
    hide Continues, InVain, CallFailed;
    if k: nat :| first <= k < MAX_BATCH_REFILLS && CallFailed(inner, rest, RefillKey(k), 0, ParseIdeas) {
      CallFailedLifts(s, used, inner, rest, RefillKey(k), 0, ParseIdeas);
    } else {
      forall k: nat | first <= k < MAX_BATCH_REFILLS ensures InVain(s, used + rest, c, ideas, k) {
        InVainLifts(s, used, inner, rest, c, ideas, k);
      }
    }
  }

  lemma FirstInVain(c: Context, refill: nat, ideas: seq<Idea>, replies: seq<Reply>)
    requires refill < MAX_BATCH_REFILLS && Gap(c, ideas) && c.count >= 1 && Refills(c, refill, ideas, replies).Got?
    requires var j := JsonCall(RefillKey(refill), 0, ParseIdeas, replies); j.Got? && j.value.Some?
    ensures InVain(Refilling(c, refill, ideas), replies, c, Refills(c, refill, ideas, replies).value, refill)
  {
    hide JsonCall, Dedupe, Mechanisms, Enough;
    var f := RefillKey(refill);
    var j := JsonCall(f, 0, ParseIdeas, replies);
    assert !Enough(c, ideas) by { GapIsNotEnough(c, ideas); }
    JsonAnswered(f, 0, ParseIdeas, replies);
    var a, p :| ParseIdeas(p) == j.value && Answered(Json(f, 0, ParseIdeas), replies, f(a), p);
    AnsweredBegins(Refilling(c, refill, ideas), Json(f, 0, ParseIdeas), replies, f(a), p);
    MoreWasInVain(c, refill, ideas, j.value.value, j.rest);
    assert p == Ideas(j.value.value) && f(a) == Refill(refill, a);
    assert Answered(Refilling(c, refill, ideas), replies, Refill(refill, a), Ideas(j.value.value));
  }

  lemma {:induction false} RefillsWereSpent(c: Context, refill: nat, ideas: seq<Idea>, replies: seq<Reply>)
    requires refill <= MAX_BATCH_REFILLS && c.count >= 1
    requires var r := Refills(c, refill, ideas, replies); r.Got? && Gap(c, r.value)
    ensures RefillsSpent(Refilling(c, refill, ideas), replies, c, Refills(c, refill, ideas, replies).value, refill)
    decreases MAX_BATCH_REFILLS - refill
  {
    hide JsonCall, Dedupe, Mechanisms, Enough, InVain, CallFailed, Gap, Continues, Refilling, Json;
    if refill < MAX_BATCH_REFILLS {
      GapIsNotEnough(c, ideas);
      GapIsNotEnough(c, Refills(c, refill, ideas, replies).value);
      var f := RefillKey(refill);
      var j := JsonCall(f, 0, ParseIdeas, replies);
      if j.value.None? {
        JsonFailed(f, 0, ParseIdeas, replies);
        RefillBegins(c, refill, ideas);
        CallFailedBegins(Refilling(c, refill, ideas), Json(f, 0, ParseIdeas), replies, f, ParseIdeas);
      } else {
        var next := Dedupe(ideas + j.value.value, c.count, c.warm);
        FirstInVain(c, refill, ideas, replies);
        RefillsWereSpent(c, refill + 1, next, j.rest);
        RefillContinues(c, refill, ideas, replies);
        SpentLifts(Refilling(c, refill, ideas), UsedBy(j, replies), Refilling(c, refill + 1, next), j.rest, c,
                   Refills(c, refill, ideas, replies).value, refill + 1);
      }
    }
  }

  lemma RefillBegins(c: Context, refill: nat, ideas: seq<Idea>)
    requires refill < MAX_BATCH_REFILLS && !Enough(c, ideas)
    ensures Begins(Refilling(c, refill, ideas), Json(RefillKey(refill), 0, ParseIdeas))
  {
  }

  lemma RefillContinues(c: Context, refill: nat, ideas: seq<Idea>, replies: seq<Reply>)
    requires refill < MAX_BATCH_REFILLS && !Enough(c, ideas)
    requires var j := JsonCall(RefillKey(refill), 0, ParseIdeas, replies); j.Got? && j.value.Some?
    ensures var j := JsonCall(RefillKey(refill), 0, ParseIdeas, replies);
      && Continues(Refilling(c, refill, ideas), UsedBy(j, replies),
                   Refilling(c, refill + 1, Dedupe(ideas + j.value.value, c.count, c.warm)))
      && UsedBy(j, replies) + j.rest == replies
  {
    hide JsonCall, Dedupe, Enough;
    var f := RefillKey(refill);
    var j := JsonCall(f, 0, ParseIdeas, replies);
    var next := Dedupe(ideas + j.value.value, c.count, c.warm);
    forall more ensures Refills(c, refill, ideas, UsedBy(j, replies) + more) == Refills(c, refill + 1, next, more) {
      JsonSplits(f, 0, ParseIdeas, replies, more);
    }
    JsonSplits(f, 0, ParseIdeas, replies, []);
  }

  /** A batch that finishes with fewer ideas than asked for, or without its warm mechanism, used up
      its refills: each was answered with ideas that could not help, or one of them failed. */
  lemma GapMeansRefillsSpent(c: Context, replies: seq<Reply>)
    requires c.count >= 1
    requires var r := Batch(c, replies); r.Got? && r.value.Some? && Gap(c, r.value.value)
    ensures RefillsSpent(Batching(c), replies, c, Batch(c, replies).value.value, 0)
  {
    hide JsonCall, Dedupe, Refills, Mechanisms, RefillsSpent, Gap, Continues;
    var j := JsonCall((a: nat) => Call.Generate(a), 0, ParseIdeas, replies);
    var first := Dedupe(j.value.value, c.count, c.warm);
    RefillsWereSpent(c, 0, first, j.rest);
    BatchContinues(c, replies);
    SpentLifts(Batching(c), UsedBy(j, replies), Refilling(c, 0, first), j.rest, c, Batch(c, replies).value.value, 0);
    JsonSplits((a: nat) => Call.Generate(a), 0, ParseIdeas, replies, []);
    assert UsedBy(j, replies) + j.rest == replies;
  }
}
