/** What a fit measures, who sits closest, and when a seat for a dissenter or a backfill stays empty. */
module PanelRules {
  import opened Common
  import opened Sorting
  import opened Panel
  import opened PanelProofs

  // ----- fit -------------------------------------------------------------------------

  /** The eight named features are permitted, and no other. */
  lemma PermittedAre(f: Feature)
    ensures f in PERMITTED <==> !f.Unmatched?
  {
  }

  function Both(keys: seq<Feature>, pro: Features, persona: Features): set<Feature> {
    set f | f in keys && f in pro && f in persona
  }

  function Same(keys: seq<Feature>, pro: Features, persona: Features): set<Feature> {
    set f | f in keys && f in pro && f in persona && pro[f] == persona[f]
  }

  lemma {:induction false} SharedCount(keys: seq<Feature>, pro: Features, persona: Features)
    requires Distinct(keys)
    ensures Shared(keys, pro, persona) == |Both(keys, pro, persona)|
  {
    if keys != [] {
      var k, rest := keys[0], Both(keys[1..], pro, persona);
      SharedCount(keys[1..], pro, persona);
      assert forall f :: f in keys <==> f == k || f in keys[1..];
      assert k !in keys[1..];
      if k in pro && k in persona {
        assert Both(keys, pro, persona) == rest + {k};
      } else {
        assert Both(keys, pro, persona) == rest;
      }
    }
  }

  lemma {:induction false} MatchedCount(keys: seq<Feature>, pro: Features, persona: Features)
    requires Distinct(keys)
    ensures Matched(keys, pro, persona) == |Same(keys, pro, persona)|
  {
    if keys != [] {
      var k, rest := keys[0], Same(keys[1..], pro, persona);
      MatchedCount(keys[1..], pro, persona);
      assert forall f :: f in keys <==> f == k || f in keys[1..];
      assert k !in keys[1..];
      if k in pro && k in persona && pro[k] == persona[k] {
        assert Same(keys, pro, persona) == rest + {k};
      } else {
        assert Same(keys, pro, persona) == rest;
      }
    }
  }

  /** A fit is the share of the permitted features both have on which they agree, and zero when they
      have none in common. */
  lemma FitMeans(pro: Features, persona: Features)
    ensures var both := set f | f in pro && f in persona && !f.Unmatched?;
      var same := set f | f in pro && f in persona && !f.Unmatched? && pro[f] == persona[f];
      Fit(pro, persona) == if both == {} then 0.0 else |same| as real / |both| as real
  {
    forall f: Feature ensures f in PERMITTED <==> !f.Unmatched? { PermittedAre(f); }
    assert Both(PERMITTED, pro, persona) == set f | f in pro && f in persona && !f.Unmatched?;
    assert Same(PERMITTED, pro, persona) == set f | f in pro && f in persona && !f.Unmatched? && pro[f] == persona[f];
    assert Distinct(PERMITTED);
    SharedCount(PERMITTED, pro, persona);
    MatchedCount(PERMITTED, pro, persona);
  }

  // ----- the ranking -----------------------------------------------------------------

  /** The whole pool, best fit first, and of equal fits the smaller id first. */
  lemma RankedMeans(pro: Features, personas: seq<Persona>)
    requires DistinctPersonas(personas)
    ensures var ranked := Ranked(pro, personas);
      && |ranked| == |personas|
      && (forall p :: p in personas ==> Seat(p.id, p.family, Fit(pro, p.features), Closest) in ranked)
      && forall i, j :: 0 <= i < j < |ranked| ==>
           ranked[i].fit > ranked[j].fit || (ranked[i].fit == ranked[j].fit && ranked[i].id < ranked[j].id)
  {
    hide Fit;
    var ranked := Ranked(pro, personas);
    RankedFacts(pro, personas);
    forall i, j | 0 <= i < j < |ranked|
      ensures ranked[i].fit > ranked[j].fit || (ranked[i].fit == ranked[j].fit && ranked[i].id < ranked[j].id)
    {
      assert RankLe(ranked[i], ranked[j]) && ranked[i].id != ranked[j].id;
    }
    forall p | p in personas ensures Seat(p.id, p.family, Fit(pro, p.features), Closest) in ranked {
      var k :| 0 <= k < |personas| && personas[k] == p;
      assert Scored(pro, personas)[k] in ranked;
    }
  }

  // ----- the closest -----------------------------------------------------------------

  /** The closest seats go to exactly those of the first two personas, or three on a panel of five,
      that reach a fit of one half. */
  lemma ClosestMeans(pro: Features, personas: seq<Persona>, size: nat, i: nat)
    requires (size == 3 || size == 5) && DistinctPersonas(personas) && i < |Ranked(pro, personas)|
    ensures var ranked := Ranked(pro, personas);
      ranked[i] in Core(ranked, size) <==> i < (if size == 3 then 2 else 3) && ranked[i].fit >= 0.5
  {
    hide Fit, Counters;
    var ranked := Ranked(pro, personas);
    RankedFacts(pro, personas);
    ScoredAreClosest(pro, personas);
    var k := Cut(ranked, ClosestCount(size));
    var closest := ClosestOf(ranked, size);
    var counters := Counters(ranked[k..], closest, size - ClosestCount(size));
    AtLeastHas(ranked[..k], FIT_THRESHOLD, ranked[i]);
    CountersAreNew(ranked[k..], closest, size - ClosestCount(size));
    if i < k { assert ranked[..k][i] == ranked[i]; }
    if ranked[i] in ranked[..k] {
      var j :| 0 <= j < k && ranked[..k][j] == ranked[i];
      assert j == i;
    }
    assert forall j :: 0 <= j < |counters| ==> counters[j].role.Counterweight?;
  }

  // ----- the dissenters --------------------------------------------------------------

  lemma {:induction false} NoDissenterLeft(rest: seq<Seat>, closest: seq<Seat>, count: nat, s: Seat)
    requires |Counters(rest, closest, count)| < count && s in rest && s.fit >= FIT_THRESHOLD
    ensures HasFamily(closest + Counters(rest, closest, count), s.family)
  {
    var n := |rest| - 1;
    var before := Counters(rest[..n], closest, count);
    var after := Counters(rest, closest, count);
    assert rest == rest[..n] + [rest[n]];
    assert before <= after;
    if s == rest[n] {
      if !HasFamily(closest + before, s.family) { assert (closest + after)[|closest| + |before|].family == s.family; }
      else { FamilyStays(closest + before, closest + after, s.family); }
    } else {
      NoDissenterLeft(rest[..n], closest, count, s);
      FamilyStays(closest + before, closest + after, s.family);
    }
  }

  lemma FamilyStays(some: seq<Seat>, all: seq<Seat>, family: string)
    requires some <= all && HasFamily(some, family)
    ensures HasFamily(all, family)
  {
  }

  /** A core below its size has heard every family: nobody who reaches one half and comes after the
      closest ranks brings one that is not on it. */
  lemma DissentIsHeard(pro: Features, personas: seq<Persona>, size: nat, i: nat)
    requires (size == 3 || size == 5) && i < |Ranked(pro, personas)|
    requires var ranked := Ranked(pro, personas);
      && (if size == 3 then 2 else 3) <= i && ranked[i].fit >= 0.5
      && |Core(ranked, size)| < |ClosestOf(ranked, size)| + size - (if size == 3 then 2 else 3)
    ensures HasFamily(Core(Ranked(pro, personas), size), Ranked(pro, personas)[i].family)
  {
    hide Fit, Sort;
    var ranked := Ranked(pro, personas);
    var k := Cut(ranked, ClosestCount(size));
    assert ranked[k..][i - k] == ranked[i];
    NoDissenterLeft(ranked[k..], ClosestOf(ranked, size), size - ClosestCount(size), ranked[i]);
  }

  // ----- the backfill ----------------------------------------------------------------

  /** Nobody below three tenths is seated, and a seat stays empty only when everybody else is below. */
  lemma BackfillMeans(pro: Features, personas: seq<Persona>, size: nat)
    requires (size == 3 || size == 5) && DistinctPersonas(personas)
    ensures var r := Select(pro, personas, size); var ranked := Ranked(pro, personas);
      r.Panel? ==>
        && (forall i :: 0 <= i < |r.seats| ==> r.seats[i].fit >= if r.seats[i].role.Backfill? then 0.3 else 0.5)
        && (|r.seats| < size ==> forall s :: s in ranked && s.fit >= 0.3 ==> HasId(r.seats, s.id))
  {
    hide Fit, Core, Sort, Seats;
    EveryPanelIsOk(pro, personas, size);
    var r := Select(pro, personas, size);
    if r.Panel? {
      forall i | 0 <= i < |r.seats| ensures r.seats[i].fit >= if r.seats[i].role.Backfill? then 0.3 else 0.5 {
        assert SeatOk(Ranked(pro, personas), r.seats[i]);
      }
    }
  }

  /** The first pass seats only new families, and skips one only when the panel is full. */
  lemma {:induction false} NewFamiliesFirst(items: seq<Seat>, pool: seq<Seat>, size: nat)
    ensures var first := Fill(items, pool, size, true);
      && items <= first
      && (forall i :: |items| <= i < |first| ==> !HasFamily(first[..i], first[i].family))
      && (|first| < size ==> forall s :: s in pool ==> HasFamily(first, s.family) || HasId(first, s.id))
  {
    if pool != [] {
      var n := |pool| - 1;
      NewFamiliesFirst(items, pool[..n], size);
      var before := Fill(items, pool[..n], size, true);
      var first := Fill(items, pool, size, true);
      assert pool == pool[..n] + [pool[n]] && before <= first;
      forall i | |items| <= i < |first| ensures !HasFamily(first[..i], first[i].family) {
        if i < |before| { assert first[..i] == before[..i]; } else { assert first[..i] == before; }
      }
      forall s | |first| < size && s in pool ensures HasFamily(first, s.family) || HasId(first, s.id) {
        if s in pool[..n] {
          if HasFamily(before, s.family) { FamilyStays(before, first, s.family); } else { IdStays(before, first, s.id); }
        } else if |first| > |before| {
          assert first[|before|].id == s.id;
        }
      }
    }
  }

  lemma IdStays(some: seq<Seat>, all: seq<Seat>, id: nat)
    requires some <= all && HasId(some, id)
    ensures HasId(all, id)
  {
  }

  lemma RepeatsComeLater(core: seq<Seat>, first: seq<Seat>, seats: seq<Seat>, i: nat)
    requires core <= first <= seats && |core| <= i < |seats| && HasFamily(seats[..i], seats[i].family)
    requires forall k :: |core| <= k < |first| ==> !HasFamily(first[..k], first[k].family)
    ensures first <= seats[..i]
  {
  }

  /** The seats of a panel that is short of its core are those of the two passes. */
  lemma SeatsFilled(ranked: seq<Seat>, size: nat)
    requires (size == 3 || size == 5) && |Core(ranked, size)| < size
    ensures var core := Core(ranked, size); var pool := AtLeast(ranked, BACKFILL_FIT_FLOOR);
      var first := Fill(core, pool, size, true); var seats := Seats(ranked, size);
      && core <= first <= seats && |first| <= size
      && (forall k :: |core| <= k < |first| ==> !HasFamily(first[..k], first[k].family))
      && (|first| < size ==> forall s :: s in pool ==> HasFamily(first, s.family) || HasId(first, s.id))
  {
    hide Core, Fill, AtLeast;
    var core := Core(ranked, size);
    var pool := AtLeast(ranked, BACKFILL_FIT_FLOOR);
    NewFamiliesFirst(core, pool, size);
    FillWithin(core, pool, size, true);
    FillWithin(Fill(core, pool, size, true), pool, size, false);
  }

  /** A backfilled seat repeats a family of an earlier seat only after every persona at three tenths
      or above is seated or has its family on the panel. */
  lemma BackfillBringsNewFamilies(pro: Features, personas: seq<Persona>, size: nat, i: nat, s: Seat)
    requires (size == 3 || size == 5) && DistinctPersonas(personas)
    requires var r := Select(pro, personas, size); r.Panel? && i < |r.seats| && r.seats[i].role.Backfill?
    requires HasFamily(Select(pro, personas, size).seats[..i], Select(pro, personas, size).seats[i].family)
    requires s in Ranked(pro, personas) && s.fit >= 0.3
    ensures var seats := Select(pro, personas, size).seats[..i]; HasFamily(seats, s.family) || HasId(seats, s.id)
  {
    hide Fit, Core, Sort, Fill, Seats, HasFamily, HasId, SeatsOk;
    var ranked := Ranked(pro, personas);
    var core := Core(ranked, size);
    var seats := Select(pro, personas, size).seats;
    RankedFacts(pro, personas);
    ScoredAreClosest(pro, personas);
    CoreIsOk(ranked, size);
    EveryPanelIsOk(pro, personas, size);
    AtLeastHas(ranked, BACKFILL_FIT_FLOOR, s);
    SeatsFilled(ranked, size);
    var first := Fill(core, AtLeast(ranked, BACKFILL_FIT_FLOOR), size, true);
    RepeatsComeLater(core, first, seats, i);
    if HasFamily(first, s.family) { FamilyStays(first, seats[..i], s.family); } else { IdStays(first, seats[..i], s.id); }
  }

  // ----- too few -----------------------------------------------------------------------

  lemma CoreSeatsQualified(pro: Features, personas: seq<Persona>, size: nat)
    requires (size == 3 || size == 5) && DistinctPersonas(personas)
    requires exists p :: p in personas && Fit(pro, p.features) >= 0.5
    ensures Core(Ranked(pro, personas), size) != []
  {
    hide Fit, Core, Sort;
    var ranked := Ranked(pro, personas);
    RankedMeans(pro, personas);
    var p :| p in personas && Fit(pro, p.features) >= 0.5;
    var i :| 0 <= i < |ranked| && ranked[i] == Seat(p.id, p.family, Fit(pro, p.features), Closest);
    assert ranked[0].fit >= ranked[i].fit;
    ClosestMeans(pro, personas, size, 0);
  }

  lemma CoreIsQualified(pro: Features, personas: seq<Persona>, size: nat)
    requires (size == 3 || size == 5) && DistinctPersonas(personas) && Core(Ranked(pro, personas), size) != []
    ensures exists p :: p in personas && Fit(pro, p.features) >= 0.5
  {
    hide Fit, Core, Sort;
    var ranked := Ranked(pro, personas);
    RankedFacts(pro, personas);
    ScoredAreClosest(pro, personas);
    CoreIsOk(ranked, size);
    var first := Core(ranked, size)[0];
    assert SeatOk(ranked, first);
    var k :| 0 <= k < |ranked| && ranked[k].(role := first.role) == first;
    assert ranked[k] in Scored(pro, personas);
    var j :| 0 <= j < |personas| && Scored(pro, personas)[j] == ranked[k];
    assert personas[j] in personas && Fit(pro, personas[j].features) >= 0.5;
  }

  /** A refused panel reports how many of the pool reach one half: one or none. */
  lemma RefusalCounts(pro: Features, personas: seq<Persona>, size: nat)
    requires (size == 3 || size == 5) && DistinctPersonas(personas) && Select(pro, personas, size).Insufficient?
    ensures var r := Select(pro, personas, size);
      && r.size == size && r.available <= 1
      && (r.available == 1 <==> exists p :: p in personas && Fit(pro, p.features) >= 0.5)
  {
    hide Fit, Core, Sort;
    if Core(Ranked(pro, personas), size) != [] { CoreIsQualified(pro, personas, size); }
    if exists p :: p in personas && Fit(pro, p.features) >= 0.5 { CoreSeatsQualified(pro, personas, size); }
  }
}
