/** Warm-start eligibility as a function of the evidence, over every run of ingests,
    registrations and sweeps. */
module WarmStart {
  import opened Common
  import opened Outcomes
  import opened OutcomesRows

  // ----- what _promote_warm_start decides --------------------------------------------

  ghost predicate SomeObserved(rows: seq<Row>, arm: Option<Arm>, positive: bool) {
    exists r :: r in rows && Observed(r) && r.arm == arm && (positive ==> Positive(r))
  }

  /** The decision, from the unlabelled measured rows alone: arm-tagged evidence needs a measured
      control and a positive treatment; untagged evidence needs one positive. */
  ghost predicate EligibleBy(rows: seq<Row>) {
    if SomeObserved(rows, Some(A), false) || SomeObserved(rows, Some(B), false)
    then SomeObserved(rows, Some(B), false) && SomeObserved(rows, Some(A), true)
    else SomeObserved(rows, None, true)
  }

  lemma {:induction false} FilterHas(p: Row -> bool, rows: seq<Row>, r: Row)
    ensures r in Filter(p, rows) <==> r in rows && p(r)
  {
    if rows != [] {
      var n := |rows| - 1;
      FilterHas(p, rows[..n], r);
      assert rows == rows[..n] + [rows[n]];
    }
  }

  lemma FilterEmpty(p: Row -> bool, rows: seq<Row>)
    ensures Filter(p, rows) == [] <==> forall r :: r in rows ==> !p(r)
  {
  }

  /** Some row passes both filters. */
  ghost predicate Some2(rows: seq<Row>, p: Row -> bool, q: Row -> bool) {
    exists r :: r in rows && p(r) && q(r)
  }

  lemma FilterTwice(rows: seq<Row>, p: Row -> bool, q: Row -> bool)
    ensures Filter(q, Filter(p, rows)) != [] <==> Some2(rows, p, q)
  {
    forall r ensures r in Filter(p, rows) <==> r in rows && p(r) { FilterHas(p, rows, r); }
    FilterEmpty(q, Filter(p, rows));
  }

  lemma FilterThrice(rows: seq<Row>, q: Row -> bool)
    requires forall r :: q(r) ==> Tagged(r)
    ensures Filter(q, Filter(Tagged, Filter(Observed, rows))) != [] <==> Some2(rows, Observed, q)
  {
    var observed := Filter(Observed, rows);
    forall r ensures r in observed <==> r in rows && Observed(r) { FilterHas(Observed, rows, r); }
    FilterTwice(observed, Tagged, q);
  }

  /** The four lists the algorithm builds, as questions about the rows. */
  lemma ListsMean(rows: seq<Row>)
    ensures var observed := Filter(Observed, rows); var tagged := Filter(Tagged, observed);
      && (observed == [] <==> forall r :: r in rows ==> !Observed(r))
      && (tagged != [] <==> SomeObserved(rows, Some(A), false) || SomeObserved(rows, Some(B), false))
      && (Filter(TreatedPositive, tagged) != [] <==> SomeObserved(rows, Some(A), true))
      && (Filter(Control, tagged) != [] <==> SomeObserved(rows, Some(B), false))
      && (tagged == [] ==> (Filter(Positive, observed) != [] <==> SomeObserved(rows, None, true)))
  {
    hide Filter;
    FilterEmpty(Observed, rows);
    FilterTwice(rows, Observed, Tagged);
    FilterThrice(rows, TreatedPositive);
    FilterThrice(rows, Control);
    FilterTwice(rows, Observed, Positive);
    TaggedMeans(rows);
    assert Some2(rows, Observed, TreatedPositive) <==> SomeObserved(rows, Some(A), true) by {
      if Some2(rows, Observed, TreatedPositive) {
        var r :| r in rows && Observed(r) && TreatedPositive(r);
        assert r.arm == Some(A);
      }
    }
    assert Some2(rows, Observed, Control) <==> SomeObserved(rows, Some(B), false);
    assert !Some2(rows, Observed, Tagged) ==> (Some2(rows, Observed, Positive) <==> SomeObserved(rows, None, true));
  }

  lemma TaggedMeans(rows: seq<Row>)
    ensures Some2(rows, Observed, Tagged) <==> SomeObserved(rows, Some(A), false) || SomeObserved(rows, Some(B), false)
  {
    if Some2(rows, Observed, Tagged) {
      var r :| r in rows && Observed(r) && Tagged(r);
      assert r.arm == Some(A) || r.arm == Some(B) by {
        match r.arm.value { case A => case B => }
      }
    }
  }

  /** The list algorithm decides by the evidence, for whatever rows in whatever order. */
  lemma PromotedIsEligibleBy(rows: seq<Row>, w: Winner)
    requires w.genuine
    ensures Promoted(rows, w).eligible <==> EligibleBy(rows)
  {
    hide Filter, SomeObserved, LeastSource;
    ListsMean(rows);
    if forall r :: r in rows ==> !Observed(r) { NoneObserved(rows); }
  }

  lemma NoneObserved(rows: seq<Row>)
    requires forall r :: r in rows ==> !Observed(r)
    ensures forall arm, positive :: !SomeObserved(rows, arm, positive)
  {
  }

  /** What the status records: without evidence nothing, on a supported or refuted winner which of
      the two, and on treatment-only evidence "directional" if positive, else what it was. */
  lemma StatusFollowsEvidence(rows: seq<Row>, w: Winner)
    requires w.genuine
    ensures var p := Promoted(rows, w);
      && (p.eligible ==> p.validation == Some(Validated))
      && (!p.eligible && p.validation == Some(Validated) ==> TreatmentOnly(rows) && w.validation == Some(Validated))
      && ((forall r :: r in rows ==> !Observed(r)) ==> p.validation.None? && p.evidence.None?)
      && (TreatmentOnly(rows) && !SomeObserved(rows, Some(A), true) ==> p == w.(eligible := false))
  {
    hide Filter, SomeObserved, LeastSource;
    ListsMean(rows);
    if forall r :: r in rows ==> !Observed(r) { NoneObserved(rows); }
  }

  ghost predicate TreatmentOnly(rows: seq<Row>) {
    SomeObserved(rows, Some(A), false) && !SomeObserved(rows, Some(B), false)
  }

  /** Only the unlabelled measured rows matter, as a set: order, repetition, labelled rows and
      unmeasured rows change nothing. */
  lemma EvidenceDecides(a: seq<Row>, b: seq<Row>)
    requires forall r :: Observed(r) ==> (r in a <==> r in b)
    ensures EligibleBy(a) == EligibleBy(b)
  {
  }

  /** Permuting or repeating rows, and appending labelled ones, leaves the verdict alone. */
  lemma OrderAndLabelsAreIrrelevant(a: seq<Row>, b: seq<Row>, labelled: seq<Row>, w: Winner)
    requires w.genuine && (forall r :: r in a <==> r in b) && (forall r :: r in labelled ==> r.limitation.Some?)
    ensures Promoted(a, w).eligible == Promoted(b + labelled, w).eligible
  {
    PromotedIsEligibleBy(a, w);
    PromotedIsEligibleBy(b + labelled, w);
    EvidenceDecides(a, b + labelled);
  }

  /** Once no unlabelled positive is left, eligibility is revoked whatever it was. */
  lemma NoPositiveRevokes(rows: seq<Row>, w: Winner)
    requires w.genuine && forall r :: r in rows && Observed(r) ==> !Positive(r)
    ensures !Promoted(rows, w).eligible
  {
    PromotedIsEligibleBy(rows, w);
  }

  // ----- what promotion records ------------------------------------------------------

  lemma {:induction false} NameTransitive(a: string, b: string, c: string)
    requires !NameBefore(b, a) && !NameBefore(c, b)
    ensures !NameBefore(c, a)
    decreases |a|
  {
    if a != [] && b != [] && c != [] && a[0] == b[0] == c[0] {
      NameTransitive(a[1..], b[1..], c[1..]);
    }
  }

  lemma {:induction false} NameTotal(a: string, b: string)
    ensures NameBefore(a, b) || NameBefore(b, a) || a == b
    ensures !(NameBefore(a, b) && NameBefore(b, a))
    decreases |a|
  {
    if a != [] && b != [] && a[0] == b[0] {
      NameTotal(a[1..], b[1..]);
      assert a == [a[0]] + a[1..] && b == [b[0]] + b[1..];
    }
  }

  /** No row of the list has a name before the chosen one's. */
  lemma {:induction false} LeastIsLeast(rows: seq<Row>, r: Row)
    requires r in rows
    ensures !NameBefore(NameOf(r.source), NameOf(LeastSource(rows).source))
  {
    hide NameBefore;
    var n := |rows| - 1;
    var best := NameOf(LeastSource(rows).source);
    NameTotal(best, best);
    if n > 0 {
      assert rows == rows[..n] + [rows[n]];
      var least := NameOf(LeastSource(rows[..n]).source);
      NameTotal(least, NameOf(rows[n].source));
      if r in rows[..n] {
        LeastIsLeast(rows[..n], r);
        NameTransitive(best, least, NameOf(r.source));
      }
    }
  }

  lemma SameLeastName(a: seq<Row>, b: seq<Row>)
    requires a != [] && b != [] && forall r :: r in a <==> r in b
    ensures NameOf(LeastSource(a).source) == NameOf(LeastSource(b).source)
  {
    hide NameBefore, LeastSource;
    LeastIsLeast(a, LeastSource(b));
    LeastIsLeast(b, LeastSource(a));
    NameTotal(NameOf(LeastSource(a).source), NameOf(LeastSource(b).source));
  }

  lemma SameFilters(p: Row -> bool, a: seq<Row>, b: seq<Row>)
    requires forall r :: r in a <==> r in b
    ensures forall r :: r in Filter(p, a) <==> r in Filter(p, b)
    ensures Filter(p, a) == [] <==> Filter(p, b) == []
  {
    forall r ensures r in Filter(p, a) <==> r in Filter(p, b) { FilterHas(p, a, r); FilterHas(p, b, r); }
    FilterEmpty(p, a);
    FilterEmpty(p, b);
  }

  ghost predicate SameRows(a: seq<Row>, b: seq<Row>) {
    forall r :: r in a <==> r in b
  }

  /** A measured comparison without a positive treatment whose least-named rows disagree about the
      return: which of them `min` picks depends on the order. */
  ghost predicate Ambiguous(rows: seq<Row>) {
    && SomeObserved(rows, Some(B), false) && !SomeObserved(rows, Some(A), true)
    && var observed := Filter(Observed, rows);
    observed != [] && exists r :: r in observed && Disputes(r, LeastSource(observed))
  }

  predicate Disputes(r: Row, least: Row) {
    NameOf(r.source) == NameOf(least.source) && Positive(r) != Positive(least)
  }

  /** What the recorded evidence says of a list: the least name, and whether that row is positive. */
  lemma SameEvidenceFrom(a: seq<Row>, b: seq<Row>, kind: Option<EvidenceKind>)
    requires a != [] && b != [] && SameRows(a, b)
    requires forall r :: r in a ==> !Disputes(r, LeastSource(a))
    ensures EvidenceFrom(LeastSource(a), kind) == EvidenceFrom(LeastSource(b), kind)
  {
    hide LeastSource, NameOf, NameBefore;
    SameLeastName(a, b);
    assert LeastSource(b) in a;
  }

  lemma AllPositiveAgree(rows: seq<Row>)
    requires rows != [] && forall r, s :: r in rows && s in rows ==> Positive(r) == Positive(s)
    ensures forall r :: r in rows ==> !Disputes(r, LeastSource(rows))
  {
  }

  lemma SupportedConverges(w: Winner, a: seq<Row>, b: seq<Row>, x: seq<Row>, y: seq<Row>, kind: Option<EvidenceKind>)
    requires a != [] && b != [] && SameRows(a, b) && SameRows(x, y) && (x == [] <==> y == [])
    requires forall r :: r in x ==> Positive(r)
    requires x == [] ==> forall r :: r in a ==> !Disputes(r, LeastSource(a))
    ensures Supported(w, a, x, kind) == Supported(w, b, y, kind)
  {
    hide LeastSource, Disputes;
    if x != [] {
      AllPositiveAgree(x);
      SameEvidenceFrom(x, y, kind);
    } else {
      SameEvidenceFrom(a, b, kind);
    }
  }

  /** Whatever the order and repetition of the rows, promotion records the same values, unless
      the comparison is ambiguous. */
  lemma PromotionConverges(a: seq<Row>, b: seq<Row>, w: Winner)
    requires SameRows(a, b) && !Ambiguous(a)
    ensures Promoted(a, w) == Promoted(b, w)
  {
    hide Filter, LeastSource, Disputes, Supported, SomeObserved;
    if w.genuine {
      var observed := Filter(Observed, a);
      SameFilters(Observed, a, b);
      SameFilters(Tagged, observed, Filter(Observed, b));
      var tagged := Filter(Tagged, observed);
      SameFilters(Positive, observed, Filter(Observed, b));
      SameFilters(TreatedPositive, tagged, Filter(Tagged, Filter(Observed, b)));
      SameFilters(Control, tagged, Filter(Tagged, Filter(Observed, b)));
      ListsMean(a);
      FilteredAre(Positive, observed);
      FilteredAre(TreatedPositive, tagged);
      if observed == [] {
      } else if tagged == [] {
        UntaggedAgree(observed);
        SupportedConverges(w, observed, Filter(Observed, b), Filter(Positive, observed),
                           Filter(Positive, Filter(Observed, b)), None);
      } else if Filter(Control, tagged) == [] {
        if Filter(TreatedPositive, tagged) != [] {
          AllPositiveAgree(Filter(TreatedPositive, tagged));
          SameEvidenceFrom(Filter(TreatedPositive, tagged),
                           Filter(TreatedPositive, Filter(Tagged, Filter(Observed, b))), Some(DirectionalOnly));
        }
      } else {
        SupportedConverges(w, observed, Filter(Observed, b), Filter(TreatedPositive, tagged),
                           Filter(TreatedPositive, Filter(Tagged, Filter(Observed, b))), Some(Causal));
      }
    }
  }

  lemma FilteredAre(p: Row -> bool, rows: seq<Row>)
    ensures forall r :: r in Filter(p, rows) ==> p(r) && r in rows
  {
    forall r | r in Filter(p, rows) ensures p(r) && r in rows { FilterHas(p, rows, r); }
  }

  lemma UntaggedAgree(observed: seq<Row>)
    requires observed != []
    ensures Filter(Positive, observed) == [] ==> forall r :: r in observed ==> !Disputes(r, LeastSource(observed))
  {
    FilterEmpty(Positive, observed);
    if Filter(Positive, observed) == [] { AllPositiveAgree(observed); }
  }

  lemma {:induction false} FilterCons(p: Row -> bool, s: Row, rows: seq<Row>)
    requires p(s)
    ensures Filter(p, [s] + rows) == [s] + Filter(p, rows)
  {
    var all := [s] + rows;
    if rows == [] {
      assert all == [s] && [s][..0] == [];
    } else {
      var n := |rows| - 1;
      FilterCons(p, s, rows[..n]);
      assert all[..n + 1] == [s] + rows[..n] && all[n + 1] == rows[n];
    }
  }

  lemma {:induction false} LeastCons(s: Row, rows: seq<Row>)
    requires forall r :: r in rows ==> !NameBefore(NameOf(r.source), NameOf(s.source))
    ensures LeastSource([s] + rows) == s
  {
    var all := [s] + rows;
    if rows != [] {
      var n := |rows| - 1;
      LeastCons(s, rows[..n]);
      assert all[..n + 1] == [s] + rows[..n] && all[n + 1] == rows[n] && rows[n] in rows;
    }
  }

  lemma SameQuestions(a: seq<Row>, b: seq<Row>)
    requires SameRows(a, b)
    ensures forall arm, positive :: SomeObserved(a, arm, positive) == SomeObserved(b, arm, positive)
  {
  }

  lemma AmbiguousPromotion(rows: seq<Row>, w: Winner)
    requires w.genuine && SomeObserved(rows, Some(B), false) && !SomeObserved(rows, Some(A), true)
    ensures Filter(Observed, rows) != []
    ensures Promoted(rows, w).evidence == Some(EvidenceFrom(LeastSource(Filter(Observed, rows)), Some(Causal)))
  {
    hide Filter, LeastSource;
    ListsMean(rows);
  }

  lemma PermutationHas(a: seq<Row>, b: seq<Row>)
    requires multiset(a) == multiset(b)
    ensures SameRows(a, b)
  {
    forall r ensures r in a <==> r in b {
      assert r in a <==> r in multiset(a);
      assert r in b <==> r in multiset(b);
    }
  }

  function Fronted(a: seq<Row>, k: nat): seq<Row>
    requires k < |a|
  {
    [a[k]] + (a[..k] + a[k + 1..])
  }

  lemma FrontedPermutes(a: seq<Row>, k: nat)
    requires k < |a|
    ensures multiset(Fronted(a, k)) == multiset(a) && SameRows(a, Fronted(a, k))
  {
    assert a == a[..k] + [a[k]] + a[k + 1..];
    PermutationHas(a, Fronted(a, k));
  }

  /** Of the rows that share the least name, the one moved to the front is picked. */
  lemma FrontIsPicked(a: seq<Row>, k: nat)
    requires k < |a| && Observed(a[k])
    requires forall x :: x in Filter(Observed, a) ==> !NameBefore(NameOf(x.source), NameOf(a[k].source))
    ensures Filter(Observed, Fronted(a, k)) != [] && LeastSource(Filter(Observed, Fronted(a, k))) == a[k]
  {
    hide NameOf, NameBefore, Filter, LeastSource;
    var rest := a[..k] + a[k + 1..];
    FilterCons(Observed, a[k], rest);
    forall x | x in Filter(Observed, rest) ensures !NameBefore(NameOf(x.source), NameOf(a[k].source)) {
      FilterHas(Observed, rest, x);
      FilterHas(Observed, a, x);
    }
    LeastCons(a[k], Filter(Observed, rest));
  }

  lemma AmbiguousDependsOnOrder(a: seq<Row>, w: Winner)
    requires w.genuine && Ambiguous(a)
    ensures exists b :: multiset(b) == multiset(a) && Promoted(b, w) != Promoted(a, w)
  {
    hide Promoted, Filter, LeastSource, NameOf, NameBefore, SomeObserved, Fronted;
    var observed := Filter(Observed, a);
    var r :| r in observed && Disputes(r, LeastSource(observed));
    FilteredAre(Observed, a);
    var k :| 0 <= k < |a| && a[k] == r;
    forall x | x in observed ensures !NameBefore(NameOf(x.source), NameOf(r.source)) { LeastIsLeast(observed, x); }
    FrontedPermutes(a, k);
    SameQuestions(a, Fronted(a, k));
    FrontIsPicked(a, k);
    AmbiguousPromotion(a, w);
    AmbiguousPromotion(Fronted(a, k), w);
  }

  /** What promotion records is the same for every order of the rows exactly when the comparison
      is not ambiguous; otherwise another order records the opposite return. */
  lemma PromotionConvergesExactly(a: seq<Row>, w: Winner)
    requires w.genuine
    ensures (forall b :: multiset(b) == multiset(a) ==> Promoted(b, w) == Promoted(a, w)) <==> !Ambiguous(a)
  {
    hide Promoted, Ambiguous;
    if Ambiguous(a) {
      AmbiguousDependsOnOrder(a, w);
    } else {
      forall b | multiset(b) == multiset(a) ensures Promoted(b, w) == Promoted(a, w) {
        PermutationHas(a, b);
        PromotionConverges(a, b, w);
      }
    }
  }

  // ----- evidence in the tables ------------------------------------------------------

  lemma {:induction false} OwnedHas(db: Db, w: Id, rows: seq<Row>, r: Row)
    ensures r in OwnedRows(db, w, rows) <==> r in rows && Owns(db, w, r)
  {
    if rows != [] {
      var n := |rows| - 1;
      OwnedHas(db, w, rows[..n], r);
      assert rows == rows[..n] + [rows[n]];
    }
  }

  ghost predicate Evident(db: Db, w: Id)
    requires w in db.winners
  {
    db.winners[w].eligible <==> EligibleBy(OwnedRows(db, w, db.rows))
  }

  /** Every winner's eligibility is what its evidence says. */
  ghost predicate AllEvident(db: Db) {
    forall w: Id :: IsReal(db, w) ==> Evident(db, w)
  }

  /** The rows that count for w are the same in both tables. */
  ghost predicate SameEvidence(before: Db, after: Db, w: Id) {
    forall r :: Observed(r) ==>
      (r in before.rows && Owns(before, w, r) <==> r in after.rows && Owns(after, w, r))
  }

  lemma SameEvidenceSameVerdict(before: Db, after: Db, w: Id)
    requires SameEvidence(before, after, w)
    ensures EligibleBy(OwnedRows(before, w, before.rows)) == EligibleBy(OwnedRows(after, w, after.rows))
  {
    forall r | Observed(r)
      ensures r in OwnedRows(before, w, before.rows) <==> r in OwnedRows(after, w, after.rows)
    {
      OwnedHas(before, w, before.rows, r);
      OwnedHas(after, w, after.rows, r);
    }
    EvidenceDecides(OwnedRows(before, w, before.rows), OwnedRows(after, w, after.rows));
  }

  lemma {:induction false} PromoteAllFacts(db: Db, ids: seq<Id>)
    ensures var d := PromoteAll(db, ids);
      && d.rows == db.rows && d.exposures == db.exposures && d.winners.Keys == db.winners.Keys
      && (forall w :: w in db.winners ==>
            d.winners[w].genuine == db.winners[w].genuine && d.winners[w].pro == db.winners[w].pro)
      && (forall w :: w in db.winners && w !in ids ==> d.winners[w] == db.winners[w])
  {
    hide Promoted;
    if ids != [] {
      var n := |ids| - 1;
      PromoteAllFacts(db, ids[..n]);
      var before := PromoteAll(db, ids[..n]);
      if ids[n] in before.winners {
        PromotedKeeps(OwnedRows(before, ids[n], before.rows), before.winners[ids[n]]);
      }
      assert forall w :: w in ids[..n] ==> w in ids;
      assert ids[n] in ids;
    }
  }

  lemma PromotedKeeps(rows: seq<Row>, w: Winner)
    ensures Promoted(rows, w).genuine == w.genuine && Promoted(rows, w).pro == w.pro
  {
  }

  lemma OwnedRowsFrame(a: Db, b: Db, w: Id, rows: seq<Row>)
    requires a.exposures == b.exposures
    ensures OwnedRows(a, w, rows) == OwnedRows(b, w, rows)
  {
  }

  /** After promotion, every promoted winner is eligible exactly by its evidence. */
  lemma {:induction false} PromotedAreEvident(db: Db, ids: seq<Id>, w: Id)
    requires IsReal(db, w) && (w in ids || Evident(db, w))
    ensures w in PromoteAll(db, ids).winners && Evident(PromoteAll(db, ids), w)
  {
    hide Promoted, EligibleBy;
    PromoteAllFacts(db, ids);
    if ids != [] {
      var n := |ids| - 1;
      var before := PromoteAll(db, ids[..n]);
      PromoteAllFacts(db, ids[..n]);
      var after := PromoteAll(db, ids);
      assert ids == ids[..n] + [ids[n]];
      OwnedRowsFrame(before, after, w, db.rows);
      if ids[n] == w {
        PromotedIsEligibleBy(OwnedRows(before, w, before.rows), before.winners[w]);
      } else {
        PromotedAreEvident(db, ids[..n], w);
      }
    }
  }
}
