/** What batch generation guarantees, whatever the model answers. */
module BatchProofs {
  import opened Common
  import opened Replay
  import opened Round

  ghost predicate DistinctMechanisms(ideas: seq<Idea>) {
    forall i, j :: 0 <= i < j < |ideas| ==> ideas[i].mechanism != ideas[j].mechanism
  }

  function Mechanisms(ideas: seq<Idea>): set<string> {
    set i | 0 <= i < |ideas| :: ideas[i].mechanism
  }

  lemma MechanismsAppend(ideas: seq<Idea>, idea: Idea)
    ensures Mechanisms(ideas + [idea]) == Mechanisms(ideas) + {idea.mechanism}
  {
    var all := ideas + [idea];
    assert all[|ideas|] == idea;
    forall m | m in Mechanisms(ideas) + {idea.mechanism} ensures m in Mechanisms(all) {
      if m in Mechanisms(ideas) {
        var i :| 0 <= i < |ideas| && ideas[i].mechanism == m;
        assert all[i].mechanism == m;
      }
    }
  }

  lemma HasIsIn(ideas: seq<Idea>, m: string)
    ensures Has(ideas, m) <==> m in Mechanisms(ideas)
  {
  }

  lemma Snoc(ideas: seq<Idea>)
    requires ideas != []
    ensures ideas == ideas[..|ideas| - 1] + [ideas[|ideas| - 1]]
  {
  }

  // ----- one idea per mechanism ------------------------------------------------------

  lemma {:induction false} FirstOfEachMechanisms(ideas: seq<Idea>)
    ensures Mechanisms(FirstOfEach(ideas)) == Mechanisms(ideas)
  {
    if ideas != [] {
      var n := |ideas| - 1;
      var before := FirstOfEach(ideas[..n]);
      FirstOfEachMechanisms(ideas[..n]);
      Snoc(ideas);
      MechanismsAppend(ideas[..n], ideas[n]);
      MechanismsAppend(before, ideas[n]);
      HasIsIn(before, ideas[n].mechanism);
    }
  }

  lemma {:induction false} FirstOfEachDistinct(ideas: seq<Idea>)
    ensures DistinctMechanisms(FirstOfEach(ideas))
  {
    if ideas != [] {
      FirstOfEachDistinct(ideas[..|ideas| - 1]);
    }
  }

  lemma {:induction false} DistinctCount(ideas: seq<Idea>)
    requires DistinctMechanisms(ideas)
    ensures |Mechanisms(ideas)| == |ideas|
  {
    if ideas != [] {
      var n := |ideas| - 1;
      DistinctCount(ideas[..n]);
      Snoc(ideas);
      MechanismsAppend(ideas[..n], ideas[n]);
      assert ideas[n].mechanism !in Mechanisms(ideas[..n]);
    }
  }

  /** Without repeats there is nothing to drop, and more ideas only follow. */
  lemma {:induction false} FirstOfEachExtends(ideas: seq<Idea>, more: seq<Idea>)
    requires DistinctMechanisms(ideas)
    ensures ideas <= FirstOfEach(ideas + more)
    decreases |ideas| + |more|
  {
    var all := ideas + more;
    if more != [] {
      var n := |more| - 1;
      FirstOfEachExtends(ideas, more[..n]);
      assert all[..|all| - 1] == ideas + more[..n];
    } else if ideas != [] {
      FirstOfEachKeeps(ideas);
      assert all == ideas;
    }
  }

  lemma {:induction false} FirstOfEachKeeps(ideas: seq<Idea>)
    requires DistinctMechanisms(ideas)
    ensures FirstOfEach(ideas) == ideas
  {
    if ideas != [] {
      var n := |ideas| - 1;
      FirstOfEachKeeps(ideas[..n]);
      assert !Has(ideas[..n], ideas[n].mechanism);
      Snoc(ideas);
    }
  }

  /** The idea kept for a mechanism is the first one that named it. */
  lemma {:induction false} FirstOfEachIsFirst(ideas: seq<Idea>, m: string)
    requires Has(ideas, m)
    ensures Has(FirstOfEach(ideas), m) && Holder(FirstOfEach(ideas), m) == Holder(ideas, m)
  {
    var n := |ideas| - 1;
    var before := FirstOfEach(ideas[..n]);
    var idea := ideas[n];
    Snoc(ideas);
    FirstOfEachMechanisms(ideas[..n]);
    HasIsIn(before, idea.mechanism);
    HasIsIn(ideas[..n], idea.mechanism);
    assert forall k :: 0 <= k < n ==> ideas[..n][k] == ideas[k];
    if Has(ideas[..n], m) {
      FirstOfEachIsFirst(ideas[..n], m);
      HolderStable(ideas[..n], idea, m);
      HolderStable(before, idea, m);
    } else {
      HolderLast(ideas[..n], idea);
      HolderLast(before, idea);
    }
  }

  lemma {:induction false} HolderStable(ideas: seq<Idea>, idea: Idea, m: string)
    requires Has(ideas, m)
    ensures Has(ideas + [idea], m) && Holder(ideas + [idea], m) == Holder(ideas, m)
  {
    var k :| 0 <= k < |ideas| && ideas[k].mechanism == m;
    assert (ideas + [idea])[k] == ideas[k];
    if ideas[0].mechanism != m {
      assert ideas[1..][k - 1] == ideas[k];
      HolderStable(ideas[1..], idea, m);
      assert (ideas + [idea])[1..] == ideas[1..] + [idea];
    }
  }

  lemma {:induction false} HolderLast(ideas: seq<Idea>, idea: Idea)
    requires !Has(ideas, idea.mechanism)
    ensures Has(ideas + [idea], idea.mechanism) && Holder(ideas + [idea], idea.mechanism) == idea
  {
    assert (ideas + [idea])[|ideas|] == idea;
    if ideas != [] {
      assert ideas[0].mechanism != idea.mechanism;
      assert forall k :: 0 <= k < |ideas[1..]| ==> ideas[1..][k] == ideas[k + 1];
      HolderLast(ideas[1..], idea);
      assert (ideas + [idea])[1..] == ideas[1..] + [idea];
    }
  }

  // ----- the warm seat ---------------------------------------------------------------

  lemma {:induction false} WithoutMechanisms(ideas: seq<Idea>, m: string)
    ensures !Has(Without(ideas, m), m)
    ensures Mechanisms(Without(ideas, m)) <= Mechanisms(ideas)
  {
    if ideas != [] {
      WithoutMechanisms(ideas[1..], m);
      forall x | x in Mechanisms(ideas[1..]) ensures x in Mechanisms(ideas) {
        var i :| 0 <= i < |ideas[1..]| && ideas[1..][i].mechanism == x;
        assert ideas[i + 1].mechanism == x;
      }
      assert ideas[0].mechanism in Mechanisms(ideas);
      var rest := Without(ideas[1..], m);
      forall x | x in Mechanisms(Without(ideas, m)) ensures x in Mechanisms(ideas) {
        var i :| 0 <= i < |Without(ideas, m)| && Without(ideas, m)[i].mechanism == x;
        assert x == ideas[0].mechanism || x in Mechanisms(rest);
      }
    }
  }

  lemma {:induction false} WithoutDistinct(ideas: seq<Idea>, m: string)
    requires DistinctMechanisms(ideas)
    ensures DistinctMechanisms(Without(ideas, m))
    ensures |Without(ideas, m)| == |ideas| - (if Has(ideas, m) then 1 else 0)
  {
    if ideas != [] {
      var rest := Without(ideas[1..], m);
      assert forall k :: 0 <= k < |ideas[1..]| ==> ideas[1..][k] == ideas[k + 1];
      WithoutDistinct(ideas[1..], m);
      WithoutMechanisms(ideas[1..], m);
      forall i | 0 <= i < |rest| ensures rest[i].mechanism != ideas[0].mechanism {
        assert rest[i].mechanism in Mechanisms(rest);
      }
      assert Has(ideas, m) <==> ideas[0].mechanism == m || Has(ideas[1..], m);
    }
  }

  lemma {:induction false} WithoutAbsent(ideas: seq<Idea>, m: string)
    requires !Has(ideas, m)
    ensures Without(ideas, m) == ideas
  {
    if ideas != [] {
      assert forall k :: 0 <= k < |ideas[1..]| ==> ideas[1..][k] == ideas[k + 1];
      WithoutAbsent(ideas[1..], m);
    }
  }

  lemma {:induction false} WithoutPrefix(held: seq<Idea>, ideas: seq<Idea>, m: string)
    requires ideas <= held && !Has(ideas, m)
    ensures ideas <= Without(held, m)
  {
    if ideas != [] {
      assert held[0] == ideas[0];
      assert forall k :: 0 <= k < |ideas[1..]| ==> ideas[1..][k] == ideas[k + 1];
      WithoutPrefix(held[1..], ideas[1..], m);
    }
  }

  /** The order _dedupe_mechanisms cuts to `count`. */
  function Ordered(ideas: seq<Idea>, keep: Option<string>): seq<Idea> {
    var held := FirstOfEach(ideas);
    if keep.Some? && Has(held, keep.value) then [Holder(held, keep.value)] + Without(held, keep.value) else held
  }

  lemma OrderedFacts(ideas: seq<Idea>, keep: Option<string>)
    ensures DistinctMechanisms(Ordered(ideas, keep)) && |Ordered(ideas, keep)| == |Mechanisms(ideas)|
    ensures Mechanisms(Ordered(ideas, keep)) <= Mechanisms(ideas)
  {
    var held := FirstOfEach(ideas);
    FirstOfEachDistinct(ideas);
    FirstOfEachMechanisms(ideas);
    DistinctCount(held);
    if keep.Some? && Has(held, keep.value) {
      SeatFacts(held, keep.value);
    }
  }

  lemma SeatFacts(held: seq<Idea>, m: string)
    requires DistinctMechanisms(held) && Has(held, m)
    ensures var r := [Holder(held, m)] + Without(held, m);
      DistinctMechanisms(r) && |r| == |held| && Mechanisms(r) <= Mechanisms(held)
  {
    var rest := Without(held, m);
    var r := [Holder(held, m)] + rest;
    WithoutDistinct(held, m);
    WithoutMechanisms(held, m);
    HasIsIn(held, m);
    assert forall i :: 0 <= i < |rest| ==> rest[i].mechanism != m;
    forall x | x in Mechanisms(r) ensures x in Mechanisms(held) {
      var i :| 0 <= i < |r| && r[i].mechanism == x;
      assert i == 0 || rest[i - 1].mechanism in Mechanisms(rest);
    }
  }

  /** _dedupe_mechanisms: as many ideas as count and the distinct mechanisms allow, one per
      mechanism, a present `keep` seated first by the first idea that named it. */
  lemma DedupeFacts(ideas: seq<Idea>, count: nat, keep: Option<string>)
    ensures DistinctMechanisms(Dedupe(ideas, count, keep))
    ensures |Dedupe(ideas, count, keep)| == (if count < |Mechanisms(ideas)| then count else |Mechanisms(ideas)|)
    ensures Mechanisms(Dedupe(ideas, count, keep)) <= Mechanisms(ideas)
    ensures count >= 1 && keep.Some? && Has(ideas, keep.value) ==>
      Dedupe(ideas, count, keep) != [] && Dedupe(ideas, count, keep)[0] == Holder(ideas, keep.value)
  {
    var ordered := Ordered(ideas, keep);
    OrderedFacts(ideas, keep);
    assert Dedupe(ideas, count, keep) == Take(ordered, count);
    forall x | x in Mechanisms(Take(ordered, count)) ensures x in Mechanisms(ordered) {
      var i :| 0 <= i < |Take(ordered, count)| && Take(ordered, count)[i].mechanism == x;
      assert ordered[i].mechanism == x;
    }
    if keep.Some? && Has(ideas, keep.value) {
      FirstOfEachIsFirst(ideas, keep.value);
    }
  }

  // ----- refills ---------------------------------------------------------------------

  /** A batch after dedupe. */
  ghost predicate Deduped(c: Context, ideas: seq<Idea>) {
    && DistinctMechanisms(ideas) && |ideas| <= c.count
    && (c.warm.Some? && Has(ideas, c.warm.value) ==> ideas[0].mechanism == c.warm.value)
  }

  /** Every idea of `from` is still in `to`, in order; only seating a missing warm idea first may
      push the last one out. */
  ghost predicate Kept(c: Context, from: seq<Idea>, to: seq<Idea>) {
    from <= to || (WarmMissing(c, from) && Seated(c, to) && Take(from, c.count - 1) <= to[1..])
  }

  ghost predicate Seated(c: Context, ideas: seq<Idea>) {
    c.warm.Some? && c.count >= 1 && ideas != [] && ideas[0].mechanism == c.warm.value
  }

  lemma DedupedDedupe(c: Context, ideas: seq<Idea>)
    requires c.count >= 1
    ensures Deduped(c, Dedupe(ideas, c.count, c.warm))
  {
    DedupeFacts(ideas, c.count, c.warm);
    if c.warm.Some? {
      HasIsIn(ideas, c.warm.value);
      HasIsIn(Dedupe(ideas, c.count, c.warm), c.warm.value);
    }
  }

  /** One refill pass drops no idea, except that seating a warm idea that was missing may push
      out the last one. */
  lemma RefillKeepsIdeas(c: Context, ideas: seq<Idea>, more: seq<Idea>)
    requires Deduped(c, ideas) && c.count >= 1
    ensures Kept(c, ideas, Dedupe(ideas + more, c.count, c.warm))
  {
    var held := FirstOfEach(ideas + more);
    FirstOfEachExtends(ideas, more);
    if c.warm.Some? && Has(held, c.warm.value) {
      var m := c.warm.value;
      if Has(ideas, m) {
        FirstOfEachDistinct(ideas + more);
        FrontStaysFirst(held, m);
      } else {
        WithoutPrefix(held, ideas, m);
      }
    }
  }

  lemma FrontStaysFirst(held: seq<Idea>, m: string)
    requires DistinctMechanisms(held) && held != [] && held[0].mechanism == m
    ensures Has(held, m) && [Holder(held, m)] + Without(held, m) == held
  {
    assert !Has(held[1..], m);
    WithoutAbsent(held[1..], m);
  }

  lemma KeptTwice(c: Context, a: seq<Idea>, b: seq<Idea>, d: seq<Idea>)
    requires Deduped(c, b) && Kept(c, a, b) && Kept(c, b, d)
    ensures Kept(c, a, d)
  {
  }

  /** Over all refills the batch stays deduped. */
  lemma {:induction false} RefillsDedupe(c: Context, refill: nat, ideas: seq<Idea>, replies: seq<Reply>)
    requires refill <= MAX_BATCH_REFILLS && Deduped(c, ideas) && c.count >= 1
    ensures var r := Refills(c, refill, ideas, replies); r.Got? ==> Deduped(c, r.value)
    decreases MAX_BATCH_REFILLS - refill
  {
    hide JsonCall, Dedupe, Enough, Deduped;
    if refill < MAX_BATCH_REFILLS && !Enough(c, ideas) {
      var reply := JsonCall((a: nat) => Call.Refill(refill, a), 0, ParseIdeas, replies);
      if reply.Got? && reply.value.Some? {
        DedupedDedupe(c, ideas + reply.value.value);
        RefillsDedupe(c, refill + 1, Dedupe(ideas + reply.value.value, c.count, c.warm), reply.rest);
      }
    }
  }

  /** Over all refills a warm mechanism once present stays first, and at most one idea is ever
      given up, to seat it. */
  lemma {:induction false} RefillsKeepIdeas(c: Context, refill: nat, ideas: seq<Idea>, replies: seq<Reply>)
    requires refill <= MAX_BATCH_REFILLS && Deduped(c, ideas) && c.count >= 1
    ensures var r := Refills(c, refill, ideas, replies); r.Got? ==> Kept(c, ideas, r.value)
    decreases MAX_BATCH_REFILLS - refill
  {
    if refill < MAX_BATCH_REFILLS && !Enough(c, ideas) {
      var reply := JsonCall((a: nat) => Call.Refill(refill, a), 0, ParseIdeas, replies);
      if reply.Got? && reply.value.Some? {
        var more := reply.value.value;
        DedupedDedupe(c, ideas + more);
        RefillKeepsIdeas(c, ideas, more);
        RefillsKeepOn(c, refill, ideas, Dedupe(ideas + more, c.count, c.warm), reply.rest);
      }
    }
  }

  lemma {:induction false} RefillsKeepOn(c: Context, refill: nat, ideas: seq<Idea>, next: seq<Idea>, rest: seq<Reply>)
    requires refill < MAX_BATCH_REFILLS && Deduped(c, next) && Kept(c, ideas, next) && c.count >= 1
    ensures var r := Refills(c, refill + 1, next, rest); r.Got? ==> Kept(c, ideas, r.value)
    decreases MAX_BATCH_REFILLS - refill, 0
  {
    RefillsKeepIdeas(c, refill + 1, next, rest);
    var r := Refills(c, refill + 1, next, rest);
    if r.Got? { KeptTwice(c, ideas, next, r.value); }
  }

  /** Batch generation: between 1 and count ideas, all mechanisms different, the warm one first
      whenever it is there. */
  lemma BatchFacts(c: Context, replies: seq<Reply>)
    requires c.count >= 1
    ensures var r := Batch(c, replies);
      r.Got? && r.value.Some? ==> Deduped(c, r.value.value) && 1 <= |r.value.value| <= c.count
  {
    var first := JsonCall((a: nat) => Call.Generate(a), 0, ParseIdeas, replies);
    if first.Got? && first.value.Some? {
      JsonParsed((a: nat) => Call.Generate(a), 0, ParseIdeas, replies);
      var items := first.value.value;
      var ideas := Dedupe(items, c.count, c.warm);
      assert items[0].mechanism in Mechanisms(items);
      DedupeFacts(items, c.count, c.warm);
      DedupedDedupe(c, items);
      RefillsDedupe(c, 0, ideas, first.rest);
      RefillsNotEmpty(c, 0, ideas, first.rest);
    }
  }

  lemma {:induction false} RefillsNotEmpty(c: Context, refill: nat, ideas: seq<Idea>, replies: seq<Reply>)
    requires refill <= MAX_BATCH_REFILLS && c.count >= 1 && ideas != []
    ensures var r := Refills(c, refill, ideas, replies); r.Got? ==> r.value != []
    decreases MAX_BATCH_REFILLS - refill
  {
    if refill < MAX_BATCH_REFILLS && !Enough(c, ideas) {
      var reply := JsonCall((a: nat) => Call.Refill(refill, a), 0, ParseIdeas, replies);
      if reply.Got? && reply.value.Some? {
        var all := ideas + reply.value.value;
        assert all[0].mechanism in Mechanisms(all);
        DedupeFacts(all, c.count, c.warm);
        RefillsNotEmpty(c, refill + 1, Dedupe(all, c.count, c.warm), reply.rest);
      }
    }
  }
}
