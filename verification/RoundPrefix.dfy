/** How the stages of a round use up replies: a stage that has its value ignores what follows,
    a stage that wants a reply has used every one it got. */
module RoundPrefix {
  import opened Common
  import opened Sorting
  import opened Replay
  import opened Round

  // ----- what a finished stage used ----------------------------------------------------

  /** A finished stage used a prefix of its replies; whatever else follows, it ends the same. */
  ghost predicate Splits<V>(r: Stage<V>, replies: seq<Reply>, other: Stage<V>, more: seq<Reply>) {
    r.Got? ==> |r.rest| <= |replies| && r.rest == replies[|replies| - |r.rest|..] && other == Got(r.value, more)
  }

  function UsedBy<V>(r: Stage<V>, replies: seq<Reply>): (used: seq<Reply>)
    ensures r.Got? && |r.rest| <= |replies| ==> |used| == |replies| - |r.rest|
  {
    if r.Got? && |r.rest| <= |replies| then replies[..|replies| - |r.rest|] else replies
  }

  lemma {:induction false} JsonSplits<V>(key: nat -> Call, attempt: nat, parse: Payload -> Option<V>,
                                         replies: seq<Reply>, more: seq<Reply>)
    ensures var r := JsonCall(key, attempt, parse, replies);
      Splits(r, replies, JsonCall(key, attempt, parse, UsedBy(r, replies) + more), more)
    decreases JSON_CALL_ATTEMPTS - attempt
  {
    var r := JsonCall(key, attempt, parse, replies);
    var all := UsedBy(r, replies) + more;
    if attempt < JSON_CALL_ATTEMPTS && replies != [] && r.Got? {
      if |r.rest| < |replies| { assert all[0] == replies[0]; }
      if replies[0].Text? && parse(replies[0].value).None? {
        JsonSplits(key, attempt + 1, parse, replies[1..], more);
        assert all[1..] == UsedBy(r, replies[1..]) + more;
      } else {
        assert all[1..] == more;
      }
    } else if r.Got? {
      assert all == more;
    }
  }

  lemma {:induction false} RefillsSplits(c: Context, refill: nat, ideas: seq<Idea>, replies: seq<Reply>, more: seq<Reply>)
    requires refill <= MAX_BATCH_REFILLS
    ensures var r := Refills(c, refill, ideas, replies);
      Splits(r, replies, Refills(c, refill, ideas, UsedBy(r, replies) + more), more)
    decreases MAX_BATCH_REFILLS - refill
  {
    hide JsonCall, Dedupe, Enough;
    var r := Refills(c, refill, ideas, replies);
    if r.Got? {
      var all := UsedBy(r, replies) + more;
      if refill == MAX_BATCH_REFILLS || Enough(c, ideas) {
        assert all == more;
      } else {
        var f := (a: nat) => Call.Refill(refill, a);
        var j := JsonCall(f, 0, ParseIdeas, replies);
        if j.value.None? {
          JsonSplits(f, 0, ParseIdeas, replies, more);
        } else {
          var next := Dedupe(ideas + j.value.value, c.count, c.warm);
          RefillsSplits(c, refill + 1, next, j.rest, more);
          JsonSplits(f, 0, ParseIdeas, replies, UsedBy(r, j.rest) + more);
          assert all == UsedBy(j, replies) + (UsedBy(r, j.rest) + more);
        }
      }
    }
  }

  lemma BatchSplits(c: Context, replies: seq<Reply>, more: seq<Reply>)
    ensures var r := Batch(c, replies); Splits(r, replies, Batch(c, UsedBy(r, replies) + more), more)
  {
    hide JsonCall, Refills, Dedupe;
    var r := Batch(c, replies);
    if r.Got? {
      var f := (a: nat) => Call.Generate(a);
      var j := JsonCall(f, 0, ParseIdeas, replies);
      if j.value.None? {
        JsonSplits(f, 0, ParseIdeas, replies, more);
      } else {
        var first := Dedupe(j.value.value, c.count, c.warm);
        var m := Refills(c, 0, first, j.rest);
        RefillsSplits(c, 0, first, j.rest, more);
        JsonSplits(f, 0, ParseIdeas, replies, UsedBy(m, j.rest) + more);
        assert UsedBy(r, replies) + more == UsedBy(j, replies) + (UsedBy(m, j.rest) + more);
      }
    }
  }

  lemma CritiqueSplits(c: Context, ideas: seq<Idea>, replies: seq<Reply>, more: seq<Reply>)
    ensures var r := Critique(c, ideas, replies); Splits(r, replies, Critique(c, ideas, UsedBy(r, replies) + more), more)
  {
    var r := Critique(c, ideas, replies);
    if !NeedsCritic(c, ideas) {
      assert UsedBy(r, replies) + more == more;
    } else {
      JsonSplits((a: nat) => Call.Critic(a), 0, ParseVerdicts, replies, more);
    }
  }

  lemma RankBatchSplits(n: nat, replies: seq<Reply>, more: seq<Reply>)
    requires n >= 2
    ensures var r := RankBatch(n, replies); Splits(r, replies, RankBatch(n, UsedBy(r, replies) + more), more)
  {
    JsonSplits((a: nat) => Call.Rank(a), 0, ParseRanking(n), replies, more);
  }

  lemma {:induction false} ScreensSplits(finalists: seq<int>, replies: seq<Reply>, more: seq<Reply>)
    ensures var r := Screens(finalists, replies); Splits(r, replies, Screens(finalists, UsedBy(r, replies) + more), more)
    decreases |finalists|
  {
    var r := Screens(finalists, replies);
    var all := UsedBy(r, replies) + more;
    if finalists == [] {
      assert all == more;
    } else if r.Got? {
      var before := finalists[..|finalists| - 1];
      var s := Screens(before, replies);
      if s.value.None? {
        ScreensSplits(before, replies, more);
      } else {
        ScreensSplits(before, replies, [s.rest[0]] + more);
        assert all == UsedBy(s, replies) + ([s.rest[0]] + more);
        assert ([s.rest[0]] + more)[1..] == more;
      }
    }
  }

  // ----- what an unfinished stage wants ------------------------------------------------

  lemma {:induction false} JsonWants<V>(key: nat -> Call, attempt: nat, parse: Payload -> Option<V>,
                                        replies: seq<Reply>, x: Reply)
    requires JsonCall(key, attempt, parse, replies).Want?
    ensures attempt + |replies| < JSON_CALL_ATTEMPTS && NoFailure(replies)
    ensures JsonCall(key, attempt, parse, replies) == Want(key(attempt + |replies|))
    ensures var r := JsonCall(key, attempt, parse, replies + [x]);
      if r.Want? then r == Want(key(attempt + |replies| + 1)) && attempt + |replies| + 1 < JSON_CALL_ATTEMPTS
      else r.rest == [] && (x.Failure? ==> r.value.None?)
    decreases JSON_CALL_ATTEMPTS - attempt
  {
    var all := replies + [x];
    if replies != [] {
      JsonWants(key, attempt + 1, parse, replies[1..], x);
      assert all[1..] == replies[1..] + [x] && all[0] == replies[0];
      assert forall k :: 0 < k < |replies| ==> replies[k] == replies[1..][k - 1];
    } else {
      assert all == [x] && all[1..] == [];
    }
  }

  /** The place of a key in the order a round asks; both screens share the last one. */
  function Order(key: Call): nat {
    match key
    case Generate(attempt) => attempt
    case Refill(refill, attempt) => JSON_CALL_ATTEMPTS * (1 + refill) + attempt
    case Critic(attempt) => CRITIC_FROM + attempt
    case Rank(attempt) => RANK_FROM + attempt
    case Screen(_) => SCREEN_FROM
  }

  const CRITIC_FROM := JSON_CALL_ATTEMPTS * (1 + MAX_BATCH_REFILLS)
  const RANK_FROM := CRITIC_FROM + JSON_CALL_ATTEMPTS
  const SCREEN_FROM := RANK_FROM + JSON_CALL_ATTEMPTS

  /** A key lies in the stretch of its kind. */
  predicate Placed(key: Call) {
    match key
    case Generate(_) => Order(key) < CRITIC_FROM
    case Refill(_, _) => Order(key) < CRITIC_FROM
    case Critic(_) => Order(key) < RANK_FROM
    case Rank(_) => Order(key) < SCREEN_FROM
    case Screen(_) => true
  }

  /** A stage that wants a reply asks between low and high, and one reply on either asks later or
      has used every reply. */
  ghost predicate Advances<V>(r: Stage<V>, next: Stage<V>, low: nat, high: nat) {
    r.Want? ==>
      && low <= Order(r.key) < high && Placed(r.key)
      && (if next.Want? then Order(r.key) < Order(next.key) < high else next.rest == [])
  }

  lemma {:induction false} JsonClean<V>(key: nat -> Call, attempt: nat, parse: Payload -> Option<V>, replies: seq<Reply>)
    ensures var r := JsonCall(key, attempt, parse, replies); r.Got? && r.value.Some? ==> NoFailure(UsedBy(r, replies))
    decreases JSON_CALL_ATTEMPTS - attempt
  {
    var r := JsonCall(key, attempt, parse, replies);
    if attempt < JSON_CALL_ATTEMPTS && replies != [] && r.Got? && r.value.Some? {
      JsonClean(key, attempt + 1, parse, replies[1..]);
      assert forall k :: 0 < k < |UsedBy(r, replies)| ==> replies[k] == replies[1..][k - 1];
    }
  }

  lemma CleanTogether(used: seq<Reply>, rest: seq<Reply>)
    requires NoFailure(used) && NoFailure(rest)
    ensures NoFailure(used + rest)
  {
  }

  /** A finished stage with one reply more. */
  lemma UsedOneMore<V>(r: Stage<V>, replies: seq<Reply>, x: Reply)
    requires r.Got? && |r.rest| <= |replies| && r.rest == replies[|replies| - |r.rest|..]
    ensures UsedBy(r, replies) + r.rest == replies && UsedBy(r, replies) + (r.rest + [x]) == replies + [x]
  {
  }

  lemma JsonOneMore<V>(key: nat -> Call, attempt: nat, parse: Payload -> Option<V>, replies: seq<Reply>, x: Reply)
    ensures var r := JsonCall(key, attempt, parse, replies);
      r.Got? ==> JsonCall(key, attempt, parse, replies + [x]) == Got(r.value, r.rest + [x]) && UsedBy(r, replies) + r.rest == replies
  {
    var r := JsonCall(key, attempt, parse, replies);
    if r.Got? {
      JsonSplits(key, attempt, parse, replies, r.rest + [x]);
      UsedOneMore(r, replies, x);
    }
  }

  lemma {:induction false} RefillsWants(c: Context, refill: nat, ideas: seq<Idea>, replies: seq<Reply>, x: Reply)
    requires refill <= MAX_BATCH_REFILLS && Refills(c, refill, ideas, replies).Want?
    ensures NoFailure(replies)
    ensures Advances(Refills(c, refill, ideas, replies), Refills(c, refill, ideas, replies + [x]),
                     JSON_CALL_ATTEMPTS * (1 + refill), CRITIC_FROM)
    decreases MAX_BATCH_REFILLS - refill
  {
    hide JsonCall, Dedupe, Enough;
    var f := (a: nat) => Call.Refill(refill, a);
    var j := JsonCall(f, 0, ParseIdeas, replies);
    if j.Want? {
      JsonWants(f, 0, ParseIdeas, replies, x);
      var k := JsonCall(f, 0, ParseIdeas, replies + [x]);
      if k.Got? && k.value.Some? {
        RefillsBegin(c, refill + 1, Dedupe(ideas + k.value.value, c.count, c.warm));
      }
    } else {
      JsonOneMore(f, 0, ParseIdeas, replies, x);
      JsonClean(f, 0, ParseIdeas, replies);
      RefillsWants(c, refill + 1, Dedupe(ideas + j.value.value, c.count, c.warm), j.rest, x);
      CleanTogether(UsedBy(j, replies), j.rest);
    }
  }

  lemma RefillsBegin(c: Context, refill: nat, ideas: seq<Idea>)
    requires refill <= MAX_BATCH_REFILLS
    ensures Refills(c, refill, ideas, []) ==
      if refill == MAX_BATCH_REFILLS || Enough(c, ideas) then Got(ideas, []) else Want(Call.Refill(refill, 0))
  {
  }

  /** Batch generation never survives a failure it still has to answer for. */
  lemma BatchWants(c: Context, replies: seq<Reply>, x: Reply)
    requires Batch(c, replies).Want?
    ensures NoFailure(replies)
    ensures Advances(Batch(c, replies), Batch(c, replies + [x]), 0, CRITIC_FROM)
  {
    hide JsonCall, Refills, Dedupe, Enough;
    var f := (a: nat) => Call.Generate(a);
    var j := JsonCall(f, 0, ParseIdeas, replies);
    if j.Want? {
      JsonWants(f, 0, ParseIdeas, replies, x);
      var k := JsonCall(f, 0, ParseIdeas, replies + [x]);
      if k.Got? && k.value.Some? {
        RefillsBegin(c, 0, Dedupe(k.value.value, c.count, c.warm));
      }
    } else {
      JsonOneMore(f, 0, ParseIdeas, replies, x);
      JsonClean(f, 0, ParseIdeas, replies);
      RefillsWants(c, 0, Dedupe(j.value.value, c.count, c.warm), j.rest, x);
      CleanTogether(UsedBy(j, replies), j.rest);
    }
  }

  lemma CritiqueWants(c: Context, ideas: seq<Idea>, replies: seq<Reply>, x: Reply)
    requires Critique(c, ideas, replies).Want?
    ensures Advances(Critique(c, ideas, replies), Critique(c, ideas, replies + [x]), CRITIC_FROM, RANK_FROM)
    ensures x.Failure? ==> Critique(c, ideas, replies + [x]) == Got(None, [])
  {
    hide JsonCall;
    JsonWants((a: nat) => Call.Critic(a), 0, ParseVerdicts, replies, x);
    JsonFails((a: nat) => Call.Critic(a), 0, ParseVerdicts, replies);
  }

  lemma RankBatchWants(n: nat, replies: seq<Reply>, x: Reply)
    requires n >= 2 && RankBatch(n, replies).Want?
    ensures Advances(RankBatch(n, replies), RankBatch(n, replies + [x]), RANK_FROM, SCREEN_FROM)
    ensures x.Failure? ==> RankBatch(n, replies + [x]) == Got(None, [])
  {
    hide JsonCall;
    JsonWants((a: nat) => Call.Rank(a), 0, ParseRanking(n), replies, x);
    JsonFails((a: nat) => Call.Rank(a), 0, ParseRanking(n), replies);
  }

  lemma {:induction false} JsonFails<V>(key: nat -> Call, attempt: nat, parse: Payload -> Option<V>, replies: seq<Reply>)
    requires JsonCall(key, attempt, parse, replies).Want?
    ensures JsonCall(key, attempt, parse, replies + [Failure]) == Got(None, [])
    decreases JSON_CALL_ATTEMPTS - attempt
  {
    var all := replies + [Failure];
    if replies != [] {
      JsonFails(key, attempt + 1, parse, replies[1..]);
      assert all[1..] == replies[1..] + [Failure] && all[0] == replies[0];
    } else {
      assert all[1..] == [];
    }
  }

  lemma {:induction false} ScreensUse(finalists: seq<int>, replies: seq<Reply>)
    ensures var r := Screens(finalists, replies); r.Got? && r.value.Some? ==> |r.rest| == |replies| - |finalists|
    decreases |finalists|
  {
    if finalists != [] { ScreensUse(finalists[..|finalists| - 1], replies); }
  }

  /** The screens are asked in order, one reply each. */
  lemma {:induction false} ScreensWant(finalists: seq<int>, replies: seq<Reply>, x: Reply)
    requires Screens(finalists, replies).Want?
    ensures |replies| < |finalists| && Screens(finalists, replies) == Want(Screen(finalists[|replies|]))
    ensures var r := Screens(finalists, replies + [x]);
      if r.Want? then |replies| + 1 < |finalists| && r.key == Screen(finalists[|replies| + 1]) else r.rest == []
    ensures x.Failure? ==> Screens(finalists, replies + [x]) == Got(None, [])
    decreases |finalists|
  {
    var n := |finalists| - 1;
    var before := finalists[..n];
    var s := Screens(before, replies);
    var t := Screens(before, replies + [x]);
    ScreensUse(before, replies);
    ScreensUse(before, replies + [x]);
    if s.Want? {
      ScreensWant(before, replies, x);
    } else {
      ScreensSplits(before, replies, s.rest + [x]);
      UsedOneMore(s, replies, x);
      assert s.rest == [] && t.rest == [x];
      assert t.rest[1..] == [];
    }
  }
}
