/** Persona panel selection: the closest matches, counterweights of new families, and ranked
    backfill above a floor. Persona ids are numbered in text order. */
module Panel {
  import opened Common
  import opened Sorting

  const FIT_THRESHOLD := 0.5
  const MIN_PANEL_SIZE := 2
  const BACKFILL_FIT_FLOOR := 0.3

  datatype Feature =
    | Segment | Plan | TenureBucket | OrgSizeBucket | TradeBucket | OpenArBand | LifecycleStage | FeaturesActiveCount
    | Unmatched(name: string)

  /** The only features matching may see. */
  const PERMITTED: seq<Feature> :=
    [Segment, Plan, TenureBucket, OrgSizeBucket, TradeBucket, OpenArBand, LifecycleStage, FeaturesActiveCount]

  type Features = map<Feature, string>

  datatype Persona = Persona(id: nat, family: string, features: Features)

  datatype Role = Closest | Counterweight | Backfill

  datatype Seat = Seat(id: nat, family: string, fit: real, role: Role)

  datatype Selection = Insufficient(size: nat, available: nat) | Panel(seats: seq<Seat>, degraded: bool)

  // ----- fit -------------------------------------------------------------------------

  function Shared(keys: seq<Feature>, pro: Features, persona: Features): nat {
    if keys == [] then 0
    else Shared(keys[1..], pro, persona) + if keys[0] in pro && keys[0] in persona then 1 else 0
  }

  function Matched(keys: seq<Feature>, pro: Features, persona: Features): nat {
    if keys == [] then 0
    else Matched(keys[1..], pro, persona)
         + if keys[0] in pro && keys[0] in persona && pro[keys[0]] == persona[keys[0]] then 1 else 0
  }

  /** _fit: the fraction of permitted shared features that match exactly. */
  function Fit(pro: Features, persona: Features): real {
    var shared := Shared(PERMITTED, pro, persona);
    if shared == 0 then 0.0 else Matched(PERMITTED, pro, persona) as real / shared as real
  }

  lemma {:induction false} MatchedWithinShared(keys: seq<Feature>, pro: Features, persona: Features)
    ensures Matched(keys, pro, persona) <= Shared(keys, pro, persona)
  {
    if keys != [] { MatchedWithinShared(keys[1..], pro, persona); }
  }

  lemma FitIsFraction(pro: Features, persona: Features)
    ensures 0.0 <= Fit(pro, persona) <= 1.0
  {
    MatchedWithinShared(PERMITTED, pro, persona);
  }

  lemma {:induction false} SeesOnly(keys: seq<Feature>, a: Features, b: Features, persona: Features)
    requires forall k :: k in keys ==> (k in a <==> k in b) && (k in a && k in b ==> a[k] == b[k])
    ensures Shared(keys, a, persona) == Shared(keys, b, persona) && Matched(keys, a, persona) == Matched(keys, b, persona)
  {
    if keys != [] {
      assert keys[0] in keys && forall k :: k in keys[1..] ==> k in keys;
      SeesOnly(keys[1..], a, b, persona);
    }
  }

  /** Features that are not permitted never enter matching. */
  lemma FitIgnoresTheRest(a: Features, b: Features, persona: Features)
    requires forall k :: k in PERMITTED ==> (k in a <==> k in b) && (k in a && k in b ==> a[k] == b[k])
    ensures Fit(a, persona) == Fit(b, persona)
  {
    SeesOnly(PERMITTED, a, b, persona);
  }

  // ----- selection -------------------------------------------------------------------

  function SeatOf(pro: Features, p: Persona): Seat {
    Seat(p.id, p.family, Fit(pro, p.features), Closest)
  }

  function Scored(pro: Features, personas: seq<Persona>): (r: seq<Seat>)
    ensures |r| == |personas|
  {
    seq(|personas|, i requires 0 <= i < |personas| => SeatOf(pro, personas[i]))
  }

  /** By fit, best first; ties by id. */
  function RankLe(a: Seat, b: Seat): bool {
    a.fit > b.fit || (a.fit == b.fit && a.id <= b.id)
  }

  function Ranked(pro: Features, personas: seq<Persona>): seq<Seat> {
    Sort(RankLe, Scored(pro, personas))
  }

  predicate HasFamily(seats: seq<Seat>, family: string) {
    exists i :: 0 <= i < |seats| && seats[i].family == family
  }

  predicate HasId(seats: seq<Seat>, id: nat) {
    exists i :: 0 <= i < |seats| && seats[i].id == id
  }

  function AtLeast(seats: seq<Seat>, floor: real): seq<Seat> {
    if seats == [] then []
    else AtLeast(seats[..|seats| - 1], floor) + if seats[|seats| - 1].fit >= floor then [seats[|seats| - 1]] else []
  }

  /** Threshold-clearing personas of families not on the panel yet, at most `count`. */
  function Counters(rest: seq<Seat>, closest: seq<Seat>, count: nat): seq<Seat> {
    if rest == [] then []
    else
      var before := Counters(rest[..|rest| - 1], closest, count);
      var item := rest[|rest| - 1];
      if |before| < count && item.fit >= FIT_THRESHOLD && !HasFamily(closest + before, item.family)
      then before + [item.(role := Counterweight)] else before
  }

  /** One backfill pass. */
  function Fill(items: seq<Seat>, pool: seq<Seat>, size: nat, newFamily: bool): seq<Seat> {
    if pool == [] then items
    else
      var before := Fill(items, pool[..|pool| - 1], size, newFamily);
      var item := pool[|pool| - 1];
      if |before| < size && !HasId(before, item.id) && !(newFamily && HasFamily(before, item.family))
      then before + [item.(role := Backfill)] else before
  }

  function ClosestCount(size: nat): nat {
    if size == 3 then 2 else 3
  }

  function Cut(ranked: seq<Seat>, k: nat): nat {
    if k <= |ranked| then k else |ranked|
  }

  function ClosestOf(ranked: seq<Seat>, size: nat): seq<Seat> {
    AtLeast(ranked[..Cut(ranked, ClosestCount(size))], FIT_THRESHOLD)
  }

  /** The threshold-clearing members. */
  function Core(ranked: seq<Seat>, size: nat): seq<Seat>
    requires size == 3 || size == 5
  {
    var k := Cut(ranked, ClosestCount(size));
    var closest := ClosestOf(ranked, size);
    closest + Counters(ranked[k..], closest, size - ClosestCount(size))
  }

  function Seats(ranked: seq<Seat>, size: nat): seq<Seat>
    requires size == 3 || size == 5
  {
    var core := Core(ranked, size);
    if |core| >= size then core
    else
      var pool := AtLeast(ranked, BACKFILL_FIT_FLOOR);
      Fill(Fill(core, pool, size, true), pool, size, false)
  }

  function Chosen(ranked: seq<Seat>, size: nat): Selection
    requires size == 3 || size == 5
  {
    if |Core(ranked, size)| < MIN_PANEL_SIZE then Insufficient(size, |Core(ranked, size)|)
    else
      var seats := Seats(ranked, size);
      Panel(seats, |seats| < size || exists i :: 0 <= i < |seats| && seats[i].role.Backfill?)
  }

  function Select(pro: Features, personas: seq<Persona>, size: nat): Selection
    requires size == 3 || size == 5
  {
    Chosen(Ranked(pro, personas), size)
  }

  // ----- the loops -------------------------------------------------------------------

  method Keep(seats: seq<Seat>, floor: real) returns (r: seq<Seat>)
    ensures r == AtLeast(seats, floor)
  {
    r := [];
    for i := 0 to |seats|
      invariant r == AtLeast(seats[..i], floor)
    {
      assert seats[..i + 1][..i] == seats[..i];
      if seats[i].fit >= floor {
        r := r + [seats[i]];
      }
    }
    assert seats[..|seats|] == seats;
  }

  method PickCounters(rest: seq<Seat>, closest: seq<Seat>, count: nat) returns (r: seq<Seat>)
    ensures r == Counters(rest, closest, count)
  {
    r := [];
    for i := 0 to |rest|
      invariant r == Counters(rest[..i], closest, count)
    {
      if |r| == count {
        FullCounters(rest, closest, count, i);
        return;
      }
      assert rest[..i + 1][..i] == rest[..i];
      CountersWithin(rest[..i], closest, count);
      if rest[i].fit >= FIT_THRESHOLD && !HasFamily(closest + r, rest[i].family) {
        r := r + [rest[i].(role := Counterweight)];
      }
    }
    assert rest[..|rest|] == rest;
  }

  lemma {:induction false} CountersWithin(rest: seq<Seat>, closest: seq<Seat>, count: nat)
    ensures |Counters(rest, closest, count)| <= count
  {
    if rest != [] { CountersWithin(rest[..|rest| - 1], closest, count); }
  }

  /** Once all counterweights are seated the rest of the ranking changes nothing. */
  lemma {:induction false} FullCounters(rest: seq<Seat>, closest: seq<Seat>, count: nat, i: nat)
    requires i <= |rest| && |Counters(rest[..i], closest, count)| == count
    ensures Counters(rest, closest, count) == Counters(rest[..i], closest, count)
    decreases |rest|
  {
    if i == |rest| {
      assert rest[..i] == rest;
    } else {
      var n := |rest| - 1;
      assert rest[..n][..i] == rest[..i];
      FullCounters(rest[..n], closest, count, i);
    }
  }

  method FillPass(items: seq<Seat>, pool: seq<Seat>, size: nat, newFamily: bool) returns (r: seq<Seat>)
    requires |items| <= size
    ensures r == Fill(items, pool, size, newFamily)
  {
    r := items;
    for i := 0 to |pool|
      invariant r == Fill(items, pool[..i], size, newFamily) && |r| <= size
    {
      if |r| == size {
        FullPanel(items, pool, size, newFamily, i);
        return;
      }
      assert pool[..i + 1][..i] == pool[..i];
      if !HasId(r, pool[i].id) && !(newFamily && HasFamily(r, pool[i].family)) {
        r := r + [pool[i].(role := Backfill)];
      }
    }
    assert pool[..|pool|] == pool;
  }

  lemma {:induction false} FullPanel(items: seq<Seat>, pool: seq<Seat>, size: nat, newFamily: bool, i: nat)
    requires i <= |pool| && |Fill(items, pool[..i], size, newFamily)| == size
    ensures Fill(items, pool, size, newFamily) == Fill(items, pool[..i], size, newFamily)
    decreases |pool|
  {
    if i == |pool| {
      assert pool[..i] == pool;
    } else {
      var n := |pool| - 1;
      assert pool[..n][..i] == pool[..i];
      FullPanel(items, pool[..n], size, newFamily, i);
    }
  }

  /** select_panel; Insufficient is InsufficientPanelFit. */
  method SelectPanel(pro: Features, personas: seq<Persona>, size: nat) returns (r: Selection)
    requires size == 3 || size == 5
    ensures r == Select(pro, personas, size)
  {
    var ranked := Ranked(pro, personas);
    var k := Cut(ranked, ClosestCount(size));
    var closest := Keep(ranked[..k], FIT_THRESHOLD);
    var counters := PickCounters(ranked[k..], closest, size - ClosestCount(size));
    var items := closest + counters;
    if |items| < MIN_PANEL_SIZE {
      return Insufficient(size, |items|);
    }
    if |items| < size {
      var pool := Keep(ranked, BACKFILL_FIT_FLOOR);
      FillWithin(items, pool, size, true);
      items := FillPass(items, pool, size, true);
      items := FillPass(items, pool, size, false);
    }
    r := Panel(items, |items| < size || exists i :: 0 <= i < |items| && items[i].role.Backfill?);
  }

  lemma {:induction false} FillWithin(items: seq<Seat>, pool: seq<Seat>, size: nat, newFamily: bool)
    requires |items| <= size
    ensures |Fill(items, pool, size, newFamily)| <= size && items <= Fill(items, pool, size, newFamily)
  {
    if pool != [] { FillWithin(items, pool[..|pool| - 1], size, newFamily); }
  }
}
