/** What every selected panel guarantees. */
module PanelProofs {
  import opened Common
  import opened Sorting
  import opened Panel

  ghost predicate DistinctIds(seats: seq<Seat>) {
    forall i, j :: 0 <= i < j < |seats| ==> seats[i].id != seats[j].id
  }

  ghost predicate DistinctPersonas(personas: seq<Persona>) {
    forall i, j :: 0 <= i < j < |personas| ==> personas[i].id != personas[j].id
  }

  /** The seat is one of the pool's, whatever role it was given. */
  ghost predicate FromPool(pool: seq<Seat>, s: Seat) {
    exists i :: 0 <= i < |pool| && pool[i].(role := s.role) == s
  }

  // ----- the ranking -----------------------------------------------------------------

  lemma RankIsTotal()
    ensures TotalOrder(RankLe)
  {
  }

  lemma RankedFacts(pro: Features, personas: seq<Persona>)
    requires DistinctPersonas(personas)
    ensures var ranked := Ranked(pro, personas);
      && DistinctIds(ranked) && Sorted(RankLe, ranked) && |ranked| == |personas|
      && (forall s :: s in ranked <==> s in Scored(pro, personas))
  {
    var scored := Scored(pro, personas);
    RankIsTotal();
    SortSorts(RankLe, scored);
    SortPermutes(RankLe, scored);
    PermutationKeeps(scored, Ranked(pro, personas));
    ScoredIds(pro, personas);
    IdsPermute(scored, Ranked(pro, personas));
  }

  lemma ScoredIds(pro: Features, personas: seq<Persona>)
    requires DistinctPersonas(personas)
    ensures DistinctIds(Scored(pro, personas)) && Distinct(Scored(pro, personas))
  {
  }

  lemma IdsPermute(a: seq<Seat>, b: seq<Seat>)
    requires DistinctIds(a) && Distinct(b) && (forall s :: s in a <==> s in b)
    ensures DistinctIds(b)
  {
    forall i, j | 0 <= i < j < |b| ensures b[i].id != b[j].id {
      assert b[i] in a && b[j] in a && b[i] != b[j];
      var k :| 0 <= k < |a| && a[k] == b[i];
      var l :| 0 <= l < |a| && a[l] == b[j];
    }
  }

  lemma SameElements<T(!new)>(a: seq<T>, b: seq<T>)
    requires Distinct(a) && Distinct(b) && forall x :: x in a <==> x in b
    ensures multiset(a) == multiset(b)
  {
    DistinctCounts(a);
    DistinctCounts(b);
    forall x ensures multiset(a)[x] == multiset(b)[x] {
      assert x in multiset(a) <==> x in a;
      assert x in multiset(b) <==> x in b;
    }
  }

  lemma ScoredPermutes(pro: Features, a: seq<Persona>, b: seq<Persona>)
    requires multiset(a) == multiset(b) && DistinctPersonas(a)
    ensures DistinctPersonas(b) && multiset(Scored(pro, a)) == multiset(Scored(pro, b))
  {
    hide Fit;
    assert Distinct(a);
    PermutationKeeps(a, b);
    forall i, j | 0 <= i < j < |b| ensures b[i].id != b[j].id {
      assert b[i] in a && b[j] in a && b[i] != b[j];
      var k :| 0 <= k < |a| && a[k] == b[i];
      var l :| 0 <= l < |a| && a[l] == b[j];
    }
    ScoredIds(pro, a);
    ScoredIds(pro, b);
    forall s ensures s in Scored(pro, a) <==> s in Scored(pro, b) { ScoredHas(pro, a, b, s); }
    SameElements(Scored(pro, a), Scored(pro, b));
  }

  lemma ScoredHas(pro: Features, a: seq<Persona>, b: seq<Persona>, s: Seat)
    requires forall p :: p in a <==> p in b
    ensures s in Scored(pro, a) <==> s in Scored(pro, b)
  {
    hide Fit;
    if s in Scored(pro, a) {
      var i :| 0 <= i < |a| && Scored(pro, a)[i] == s;
      assert a[i] in a && a[i] in b;
      var j :| 0 <= j < |b| && b[j] == a[i];
      assert Scored(pro, b)[j] == s;
    }
    if s in Scored(pro, b) {
      var i :| 0 <= i < |b| && Scored(pro, b)[i] == s;
      assert b[i] in a;
      var j :| 0 <= j < |a| && a[j] == b[i];
      assert Scored(pro, a)[j] == s;
    }
  }

  /** The seats do not depend on the order of the pool. */
  lemma OrderDoesNotMatter(pro: Features, a: seq<Persona>, b: seq<Persona>, size: nat)
    requires (size == 3 || size == 5) && multiset(a) == multiset(b) && DistinctPersonas(a)
    ensures Select(pro, a, size) == Select(pro, b, size)
  {
    hide Scored, Chosen, Sort;
    ScoredPermutes(pro, a, b);
    SortPermutes(RankLe, Scored(pro, a));
    SortPermutes(RankLe, Scored(pro, b));
    RankedFacts(pro, a);
    RankedFacts(pro, b);
    RankSeparates(Ranked(pro, a));
    SortedIsUnique(RankLe, Ranked(pro, a), Ranked(pro, b));
  }

  /** Ids break every tie. */
  lemma RankSeparates(ranked: seq<Seat>)
    requires DistinctIds(ranked)
    ensures forall s, t :: s in ranked && t in ranked && RankLe(s, t) && RankLe(t, s) ==> s == t
  {
  }

  // ----- the core --------------------------------------------------------------------

  lemma {:induction false} AtLeastHas(seats: seq<Seat>, floor: real, s: Seat)
    ensures s in AtLeast(seats, floor) <==> s in seats && s.fit >= floor
  {
    if seats != [] {
      var n := |seats| - 1;
      AtLeastHas(seats[..n], floor, s);
      assert seats == seats[..n] + [seats[n]];
    }
  }

  lemma {:induction false} AtLeastDistinct(seats: seq<Seat>, floor: real)
    requires DistinctIds(seats)
    ensures DistinctIds(AtLeast(seats, floor))
  {
    if seats != [] {
      var n := |seats| - 1;
      AtLeastDistinct(seats[..n], floor);
      var before := AtLeast(seats[..n], floor);
      forall i | 0 <= i < |before| ensures before[i].id != seats[n].id {
        AtLeastHas(seats[..n], floor, before[i]);
        assert before[i] in before;
      }
    }
  }

  /** Counterweights bring families nobody on the panel had, and clear the threshold. */
  ghost predicate CountersOk(closest: seq<Seat>, counters: seq<Seat>) {
    forall i :: 0 <= i < |counters| ==>
      && counters[i].role.Counterweight? && counters[i].fit >= FIT_THRESHOLD
      && !HasFamily(closest + counters[..i], counters[i].family)
  }

  lemma {:induction false} CountersAreNew(rest: seq<Seat>, closest: seq<Seat>, count: nat)
    ensures CountersOk(closest, Counters(rest, closest, count))
  {
    if rest != [] {
      var n := |rest| - 1;
      CountersAreNew(rest[..n], closest, count);
      var before := Counters(rest[..n], closest, count);
      var after := Counters(rest, closest, count);
      forall i | 0 <= i < |after|
        ensures after[i].role.Counterweight? && after[i].fit >= FIT_THRESHOLD
        ensures !HasFamily(closest + after[..i], after[i].family)
      {
        if i < |before| { assert after[..i] == before[..i]; } else { assert after[..i] == before; }
      }
    }
  }

  lemma {:induction false} CountersFrom(rest: seq<Seat>, closest: seq<Seat>, count: nat)
    ensures forall i :: 0 <= i < |Counters(rest, closest, count)| ==> FromPool(rest, Counters(rest, closest, count)[i])
    ensures |Counters(rest, closest, count)| <= count
    ensures DistinctIds(rest) ==> DistinctIds(Counters(rest, closest, count))
  {
    if rest != [] {
      var n := |rest| - 1;
      CountersFrom(rest[..n], closest, count);
      var before := Counters(rest[..n], closest, count);
      var after := Counters(rest, closest, count);
      forall i | 0 <= i < |after| ensures FromPool(rest, after[i]) {
        if i < |before| {
          assert FromPool(rest[..n], before[i]);
          var k :| 0 <= k < n && rest[..n][k].(role := before[i].role) == before[i];
          assert rest[k].(role := after[i].role) == after[i];
        } else {
          assert rest[n].(role := after[i].role) == after[i];
        }
      }
      if DistinctIds(rest) && |after| > |before| {
        forall i | 0 <= i < |before| ensures before[i].id != rest[n].id {
          assert FromPool(rest[..n], before[i]);
        }
      }
    }
  }

  /** A persona of the pool in a seat whose floor it clears. */
  ghost predicate SeatOk(ranked: seq<Seat>, s: Seat) {
    FromPool(ranked, s) && s.fit >= if s.role.Backfill? then BACKFILL_FIT_FLOOR else FIT_THRESHOLD
  }

  ghost predicate SeatsOk(ranked: seq<Seat>, seats: seq<Seat>) {
    DistinctIds(seats) && forall i :: 0 <= i < |seats| ==> SeatOk(ranked, seats[i])
  }

  ghost predicate AllClosest(ranked: seq<Seat>) {
    forall i :: 0 <= i < |ranked| ==> ranked[i].role.Closest?
  }

  lemma FromPart(ranked: seq<Seat>, lo: nat, hi: nat, s: Seat)
    requires lo <= hi <= |ranked| && FromPool(ranked[lo..hi], s)
    ensures FromPool(ranked, s) && exists j :: lo <= j < hi && ranked[j].id == s.id
  {
  }

  lemma ClosestAreOk(ranked: seq<Seat>, size: nat, i: nat)
    requires AllClosest(ranked) && i < |ClosestOf(ranked, size)|
    ensures var k := Cut(ranked, ClosestCount(size)); var s := ClosestOf(ranked, size)[i];
      SeatOk(ranked, s) && s.role.Closest? && FromPool(ranked[0..k], s)
  {
    var k := Cut(ranked, ClosestCount(size));
    var s := ClosestOf(ranked, size)[i];
    AtLeastHas(ranked[..k], FIT_THRESHOLD, s);
    assert s in ClosestOf(ranked, size);
    assert ranked[..k] == ranked[0..k];
    var j :| 0 <= j < k && ranked[..k][j] == s;
    assert ranked[0..k][j].(role := s.role) == s;
    FromPart(ranked, 0, k, s);
  }

  lemma CountersAreOk(ranked: seq<Seat>, size: nat, i: nat)
    requires size == 3 || size == 5
    requires var k := Cut(ranked, ClosestCount(size));
      i < |Counters(ranked[k..], ClosestOf(ranked, size), size - ClosestCount(size))|
    ensures var k := Cut(ranked, ClosestCount(size));
      var s := Counters(ranked[k..], ClosestOf(ranked, size), size - ClosestCount(size))[i];
      SeatOk(ranked, s) && s.role.Counterweight? && FromPool(ranked[k..|ranked|], s)
  {
    hide ClosestOf, Counters;
    var k := Cut(ranked, ClosestCount(size));
    var closest := ClosestOf(ranked, size);
    CountersFrom(ranked[k..], closest, size - ClosestCount(size));
    CountersAreNew(ranked[k..], closest, size - ClosestCount(size));
    assert ranked[k..] == ranked[k..|ranked|];
    FromPart(ranked, k, |ranked|, Counters(ranked[k..], closest, size - ClosestCount(size))[i]);
  }

  lemma ApartDiffer(ranked: seq<Seat>, k: nat, s: Seat, t: Seat)
    requires k <= |ranked| && DistinctIds(ranked) && FromPool(ranked[0..k], s) && FromPool(ranked[k..|ranked|], t)
    ensures s.id != t.id
  {
  }

  /** The core: distinct threshold-clearing personas of the pool, none of them backfilled. */
  lemma CoreIsOk(ranked: seq<Seat>, size: nat)
    requires (size == 3 || size == 5) && DistinctIds(ranked) && AllClosest(ranked)
    ensures SeatsOk(ranked, Core(ranked, size)) && |Core(ranked, size)| <= size
    ensures forall i :: 0 <= i < |Core(ranked, size)| ==> !Core(ranked, size)[i].role.Backfill?
  {
    hide SeatOk, FromPool, Counters, AtLeast;
    var k := Cut(ranked, ClosestCount(size));
    var closest := ClosestOf(ranked, size);
    var counters := Counters(ranked[k..], closest, size - ClosestCount(size));
    AtLeastDistinct(ranked[..k], FIT_THRESHOLD);
    AtLeastShorter(ranked[..k], FIT_THRESHOLD);
    CountersFrom(ranked[k..], closest, size - ClosestCount(size));
    forall i | 0 <= i < |closest|
      ensures SeatOk(ranked, closest[i]) && closest[i].role.Closest? && FromPool(ranked[0..k], closest[i])
    {
      ClosestAreOk(ranked, size, i);
    }
    forall i | 0 <= i < |counters|
      ensures SeatOk(ranked, counters[i]) && counters[i].role.Counterweight? && FromPool(ranked[k..|ranked|], counters[i])
    {
      CountersAreOk(ranked, size, i);
    }
    forall i, j | 0 <= i < |closest| && 0 <= j < |counters| ensures closest[i].id != counters[j].id {
      ApartDiffer(ranked, k, closest[i], counters[j]);
    }
  }

  lemma {:induction false} AtLeastShorter(seats: seq<Seat>, floor: real)
    ensures |AtLeast(seats, floor)| <= |seats|
  {
    if seats != [] { AtLeastShorter(seats[..|seats| - 1], floor); }
  }

  // ----- backfill --------------------------------------------------------------------

  lemma {:induction false} FillIsOk(ranked: seq<Seat>, items: seq<Seat>, pool: seq<Seat>, size: nat, newFamily: bool)
    requires SeatsOk(ranked, items) && |items| <= size
    requires forall i :: 0 <= i < |pool| ==> pool[i] in ranked && pool[i].fit >= BACKFILL_FIT_FLOOR
    ensures var r := Fill(items, pool, size, newFamily);
      && SeatsOk(ranked, r) && items <= r && |r| <= size
      && (forall i :: |items| <= i < |r| ==> r[i].role.Backfill?)
  {
    if pool != [] {
      var n := |pool| - 1;
      assert forall i :: 0 <= i < n ==> pool[..n][i] == pool[i];
      FillIsOk(ranked, items, pool[..n], size, newFamily);
      var before := Fill(items, pool[..n], size, newFamily);
      var after := Fill(items, pool, size, newFamily);
      if |after| > |before| {
        var j :| 0 <= j < |ranked| && ranked[j] == pool[n];
        assert ranked[j].(role := Backfill) == after[|before|];
        forall i | 0 <= i < |before| ensures before[i].id != pool[n].id { assert !HasId(before, pool[n].id); }
      }
    }
  }

  /** The second pass leaves a seat empty only when the whole pool is seated. */
  lemma {:induction false} FillSeatsPool(items: seq<Seat>, pool: seq<Seat>, size: nat, i: nat)
    requires i < |pool| && |Fill(items, pool, size, false)| < size
    ensures HasId(Fill(items, pool, size, false), pool[i].id)
  {
    var n := |pool| - 1;
    var before := Fill(items, pool[..n], size, false);
    var after := Fill(items, pool, size, false);
    if i < n {
      FillSeatsPool(items, pool[..n], size, i);
      var k :| 0 <= k < |before| && before[k].id == pool[..n][i].id;
      assert after[k].id == pool[i].id;
    } else if !HasId(before, pool[n].id) {
      assert after[|before|].id == pool[n].id;
    }
  }

  // ----- the guarantees --------------------------------------------------------------

  /** Everything a panel promises about its seats. */
  ghost predicate PanelOk(ranked: seq<Seat>, seats: seq<Seat>, size: nat)
    requires size == 3 || size == 5
  {
    && SeatsOk(ranked, seats) && MIN_PANEL_SIZE <= |seats| <= size
    && (forall i :: 0 <= i < |Core(ranked, size)| ==> i < |seats| && seats[i] == Core(ranked, size)[i])
    && (forall i :: |Core(ranked, size)| <= i < |seats| ==> seats[i].role.Backfill?)
    && (|seats| < size ==> forall i :: 0 <= i < |ranked| && ranked[i].fit >= BACKFILL_FIT_FLOOR ==> HasId(seats, ranked[i].id))
  }

  lemma SeatsAreOk(ranked: seq<Seat>, size: nat)
    requires (size == 3 || size == 5) && DistinctIds(ranked) && AllClosest(ranked)
    requires |Core(ranked, size)| >= MIN_PANEL_SIZE
    ensures PanelOk(ranked, Seats(ranked, size), size)
  {
    hide Core, Fill, SeatsOk;
    CoreIsOk(ranked, size);
    var core := Core(ranked, size);
    if |core| < size {
      var pool := AtLeast(ranked, BACKFILL_FIT_FLOOR);
      forall i | 0 <= i < |pool| ensures pool[i] in ranked && pool[i].fit >= BACKFILL_FIT_FLOOR {
        AtLeastHas(ranked, BACKFILL_FIT_FLOOR, pool[i]);
        assert pool[i] in pool;
      }
      FillIsOk(ranked, core, pool, size, true);
      var first := Fill(core, pool, size, true);
      FillIsOk(ranked, first, pool, size, false);
      var seats := Fill(first, pool, size, false);
      if |seats| < size {
        forall i | 0 <= i < |ranked| && ranked[i].fit >= BACKFILL_FIT_FLOOR ensures HasId(seats, ranked[i].id) {
          AtLeastHas(ranked, BACKFILL_FIT_FLOOR, ranked[i]);
          var k :| 0 <= k < |pool| && pool[k] == ranked[i];
          FillSeatsPool(first, pool, size, k);
        }
      }
    }
  }

  lemma ScoredAreClosest(pro: Features, personas: seq<Persona>)
    requires DistinctPersonas(personas)
    ensures AllClosest(Ranked(pro, personas))
  {
    RankedFacts(pro, personas);
    var ranked := Ranked(pro, personas);
    forall i | 0 <= i < |ranked| ensures ranked[i].role.Closest? {
      assert ranked[i] in Scored(pro, personas);
    }
  }

  /** A panel repeats nobody, has at least two members that clear the threshold, seats only
      personas above their floor, and leaves a seat empty only when nobody unseated reaches the
      backfill floor; it is degraded exactly when the threshold-clearing members do not fill it. */
  lemma EveryPanelIsOk(pro: Features, personas: seq<Persona>, size: nat)
    requires (size == 3 || size == 5) && DistinctPersonas(personas)
    ensures var r := Select(pro, personas, size); var ranked := Ranked(pro, personas);
      && (r.Insufficient? <==> |Core(ranked, size)| < MIN_PANEL_SIZE)
      && (r.Panel? ==> PanelOk(ranked, r.seats, size) && (r.degraded <==> |Core(ranked, size)| < size))
  {
    hide Core, Seats, SeatsOk;
    var ranked := Ranked(pro, personas);
    RankedFacts(pro, personas);
    ScoredAreClosest(pro, personas);
    CoreIsOk(ranked, size);
    var core := Core(ranked, size);
    if |core| >= MIN_PANEL_SIZE {
      SeatsAreOk(ranked, size);
      var seats := Seats(ranked, size);
      var last := |core| - 1;
      assert core[last] == Core(ranked, size)[last];
      assert last < |seats| && seats[last] == core[last];
      if |core| == size {
        assert forall i :: 0 <= i < |seats| ==> seats[i] == core[i];
      } else if |seats| == size {
        assert seats[|core|].role.Backfill?;
      }
    }
  }

  /** Counterweights: each of a family no earlier member of the core has. */
  lemma CounterweightsDissent(pro: Features, personas: seq<Persona>, size: nat)
    requires size == 3 || size == 5
    ensures var ranked := Ranked(pro, personas); var closest := ClosestOf(ranked, size); var core := Core(ranked, size);
      && closest <= core && CountersOk(closest, core[|closest|..])
  {
    var ranked := Ranked(pro, personas);
    var k := Cut(ranked, ClosestCount(size));
    var closest := ClosestOf(ranked, size);
    CountersAreNew(ranked[k..], closest, size - ClosestCount(size));
    assert Core(ranked, size)[|closest|..] == Counters(ranked[k..], closest, size - ClosestCount(size));
  }

  // ----- who gets a panel at all -----------------------------------------------------

  lemma AtLeastFront(seats: seq<Seat>, floor: real)
    requires |seats| >= 2 && seats[0].fit >= floor && seats[1].fit >= floor
    ensures |AtLeast(seats, floor)| >= 2
  {
  }

  lemma {:induction false} AtLeastFew(seats: seq<Seat>, floor: real)
    requires forall i :: 1 <= i < |seats| ==> seats[i].fit < floor
    ensures |AtLeast(seats, floor)| <= 1
  {
    if seats != [] {
      AtLeastFew(seats[..|seats| - 1], floor);
      if |seats| == 1 { assert seats[..0] == []; }
    }
  }

  lemma {:induction false} CountersNone(rest: seq<Seat>, closest: seq<Seat>, count: nat)
    requires forall i :: 0 <= i < |rest| ==> rest[i].fit < FIT_THRESHOLD
    ensures Counters(rest, closest, count) == []
  {
    if rest != [] { CountersNone(rest[..|rest| - 1], closest, count); }
  }

  /** The Pro gets a panel exactly when two personas of the pool clear the threshold. */
  lemma PanelExactlyWhenTwoQualify(pro: Features, personas: seq<Persona>, size: nat)
    requires (size == 3 || size == 5) && DistinctPersonas(personas)
    ensures Select(pro, personas, size).Panel? <==>
      exists i, j :: 0 <= i < j < |personas| && Fit(pro, personas[i].features) >= FIT_THRESHOLD
        && Fit(pro, personas[j].features) >= FIT_THRESHOLD
  {
    hide Fit;
    var ranked := Ranked(pro, personas);
    RankedFacts(pro, personas);
    TwoQualify(pro, personas);
    var k := Cut(ranked, ClosestCount(size));
    var closest := ClosestOf(ranked, size);
    if |ranked| >= 2 && ranked[1].fit >= FIT_THRESHOLD {
      assert RankLe(ranked[0], ranked[1]);
      AtLeastFront(ranked[..k], FIT_THRESHOLD);
    } else {
      forall i | 1 <= i < |ranked| ensures ranked[i].fit < FIT_THRESHOLD {
        assert i > 1 ==> RankLe(ranked[1], ranked[i]);
      }
      AtLeastFew(ranked[..k], FIT_THRESHOLD);
      CountersNone(ranked[k..], closest, size - ClosestCount(size));
    }
  }

  lemma TwoQualify(pro: Features, personas: seq<Persona>)
    requires DistinctPersonas(personas)
    ensures var ranked := Ranked(pro, personas);
      (|ranked| >= 2 && ranked[1].fit >= FIT_THRESHOLD) <==>
        exists i, j :: 0 <= i < j < |personas| && Fit(pro, personas[i].features) >= FIT_THRESHOLD
          && Fit(pro, personas[j].features) >= FIT_THRESHOLD
  {
    hide Fit, Sort;
    var ranked := Ranked(pro, personas);
    var scored := Scored(pro, personas);
    RankedFacts(pro, personas);
    if |ranked| >= 2 && ranked[1].fit >= FIT_THRESHOLD {
      assert RankLe(ranked[0], ranked[1]);
      assert ranked[0] in scored && ranked[1] in scored && ranked[0].id != ranked[1].id;
      var i :| 0 <= i < |scored| && scored[i] == ranked[0];
      var j :| 0 <= j < |scored| && scored[j] == ranked[1];
      var lo, hi := if i < j then i else j, if i < j then j else i;
      assert Fit(pro, personas[lo].features) >= FIT_THRESHOLD && Fit(pro, personas[hi].features) >= FIT_THRESHOLD;
    }
    if i, j :| (&& 0 <= i < j < |personas|
                && Fit(pro, personas[i].features) >= FIT_THRESHOLD
                && Fit(pro, personas[j].features) >= FIT_THRESHOLD) {
      assert scored[i] in ranked && scored[j] in ranked && scored[i].id != scored[j].id;
      var a :| 0 <= a < |ranked| && ranked[a] == scored[i];
      var b :| 0 <= b < |ranked| && ranked[b] == scored[j];
      var hi := if a < b then b else a;
      assert hi >= 1 && ranked[hi].fit >= FIT_THRESHOLD;
      assert hi > 1 ==> RankLe(ranked[1], ranked[hi]);
    }
  }
}
