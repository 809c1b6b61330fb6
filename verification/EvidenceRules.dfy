/** What the evidence readers count: which records are read, how they are grouped, and what a pattern's
    numbers and a failed mechanism stand for. */
module EvidenceRules {
  import opened Common
  import opened Outcomes
  import opened Evidence

  // ----- which records are read ------------------------------------------------------

  predicate Wanted(r: Record, windows: set<Id>, channels: set<Id>) {
    r.window in windows && r.channel in channels && r.row.limitation == None
  }

  /** Only wanted records are read, at most the limit of them, and below the limit all of them. */
  lemma {:induction false} SliceMeans(records: seq<Record>, windows: set<Id>, channels: set<Id>, limit: nat)
    ensures var s := Slice(records, windows, channels, limit);
      && |s| <= limit
      && (forall r :: r in s ==> r in records && Wanted(r, windows, channels))
      && (|s| < limit ==> forall r :: r in records && Wanted(r, windows, channels) ==> r in s)
  {
    if records != [] && limit > 0 {
      assert records == [records[0]] + records[1..];
      if Wanted(records[0], windows, channels) {
        SliceMeans(records[1..], windows, channels, limit - 1);
      } else {
        SliceMeans(records[1..], windows, channels, limit);
      }
    }
  }

  // ----- grouping --------------------------------------------------------------------

  function ByKey(records: seq<Record>, key: Id): seq<Record> {
    if records == [] then []
    else ByKey(records[..|records| - 1], key) + if records[|records| - 1].key == key then [records[|records| - 1]] else []
  }

  ghost predicate HasKey(groups: Groups, key: Id) {
    exists i :: 0 <= i < |groups| && groups[i].0 == key
  }

  ghost predicate DistinctKeys(groups: Groups) {
    forall i, j :: 0 <= i < j < |groups| ==> groups[i].0 != groups[j].0
  }

  ghost predicate Partitions(groups: Groups, records: seq<Record>) {
    && DistinctKeys(groups)
    && (forall i :: 0 <= i < |groups| ==> groups[i].1 == ByKey(records, groups[i].0))
    && (forall r :: r in records ==> HasKey(groups, r.key))
  }

  /** One record joins the group of its key, or starts it. */
  lemma {:induction false} AddMeans(groups: Groups, r: Record)
    requires DistinctKeys(groups)
    ensures var after := Add(groups, r);
      && |groups| <= |after| && (forall i :: 0 <= i < |groups| ==>
            after[i] == (groups[i].0, if groups[i].0 == r.key then groups[i].1 + [r] else groups[i].1))
      && (if HasKey(groups, r.key) then |after| == |groups| else |after| == |groups| + 1 && after[|groups|] == (r.key, [r]))
  {
    if groups != [] && groups[0].0 != r.key {
      assert forall i :: 0 <= i < |groups[1..]| ==> groups[1..][i] == groups[i + 1];
      AddMeans(groups[1..], r);
      assert HasKey(groups, r.key) <==> HasKey(groups[1..], r.key);
      var after := Add(groups, r);
      forall i | 0 < i < |after| ensures after[i] == Add(groups[1..], r)[i - 1] { }
    }
  }

  lemma ByKeyNone(records: seq<Record>, key: Id)
    requires forall r :: r in records ==> r.key != key
    ensures ByKey(records, key) == []
  {
  }

  lemma ByKeySnoc(records: seq<Record>, r: Record, key: Id)
    ensures ByKey(records + [r], key) == if r.key == key then ByKey(records, key) + [r] else ByKey(records, key)
  {
  }

  lemma AddKeepsGroups(groups: Groups, records: seq<Record>, r: Record)
    requires Partitions(groups, records)
    ensures var after := Add(groups, r); forall i :: 0 <= i < |after| ==> after[i].1 == ByKey(records + [r], after[i].0)
  {
    hide ByKey, Add;
    AddMeans(groups, r);
    var after := Add(groups, r);
    forall i | 0 <= i < |after| ensures after[i].1 == ByKey(records + [r], after[i].0) {
      ByKeySnoc(records, r, after[i].0);
      if i == |groups| {
        assert !HasKey(groups, r.key);
        ByKeyNone(records, r.key);
      }
    }
  }

  lemma AddKeepsKeys(groups: Groups, records: seq<Record>, r: Record)
    requires Partitions(groups, records)
    ensures DistinctKeys(Add(groups, r)) && forall x :: x in records + [r] ==> HasKey(Add(groups, r), x.key)
  {
    hide ByKey, Add;
    AddMeans(groups, r);
    var after := Add(groups, r);
    forall x | x in records + [r] ensures HasKey(after, x.key) {
      if HasKey(groups, x.key) {
        var i :| 0 <= i < |groups| && groups[i].0 == x.key;
        assert after[i].0 == x.key;
      } else {
        assert after[|groups|].0 == x.key;
      }
    }
  }

  /** The groups partition the records: one group for each key that occurs, holding its records in order. */
  lemma {:induction false} GroupedMeans(records: seq<Record>)
    ensures Partitions(Grouped(records), records)
  {
    hide ByKey, Add;
    if records != [] {
      var n := |records| - 1;
      GroupedMeans(records[..n]);
      AddKeepsGroups(Grouped(records[..n]), records[..n], records[n]);
      AddKeepsKeys(Grouped(records[..n]), records[..n], records[n]);
      assert records == records[..n] + [records[n]];
    }
  }

  // ----- counting --------------------------------------------------------------------

  function Positions(records: seq<Record>, key: Id, p: Record -> bool): set<int> {
    set i | 0 <= i < |records| && records[i].key == key && p(records[i])
  }

  lemma PositionsGrow(records: seq<Record>, key: Id, p: Record -> bool)
    requires records != []
    ensures var n := |records| - 1; var before := Positions(records[..n], key, p);
      && n !in before
      && Positions(records, key, p) == if records[n].key == key && p(records[n]) then before + {n} else before
  {
  }

  lemma CountSnoc(group: seq<Record>, r: Record, p: Record -> bool)
    ensures CountIf(p, group + [r]) == CountIf(p, group) + if p(r) then 1 else 0
  {
  }

  lemma {:induction false} CountOfKey(records: seq<Record>, key: Id, p: Record -> bool)
    ensures CountIf(p, ByKey(records, key)) == |Positions(records, key, p)|
  {
    hide CountIf, Positions;
    if records == [] {
      NothingCounted(key, p);
    } else {
      var n := |records| - 1;
      CountOfKey(records[..n], key, p);
      PositionsGrow(records, key, p);
      CountSnoc(ByKey(records[..n], key), records[n], p);
      assert ByKey(records[..n], key) + [] == ByKey(records[..n], key);
    }
  }

  lemma NothingCounted(key: Id, p: Record -> bool)
    ensures CountIf(p, []) == 0 && Positions([], key, p) == {}
  {
  }

  lemma {:induction false} PatternHas(groups: Groups, p: Pattern)
    requires p in Patterns(groups)
    ensures exists i :: 0 <= i < |groups| && p == PatternOf(groups[i])
  {
    var n := |groups| - 1;
    if p in Patterns(groups[..n]) {
      PatternHas(groups[..n], p);
      var i :| 0 <= i < n && p == PatternOf(groups[..n][i]);
      assert p == PatternOf(groups[i]);
    } else {
      assert p == PatternOf(groups[n]);
    }
  }

  lemma {:induction false} PatternFor(groups: Groups, i: nat)
    requires i < |groups| && CountIf(Evidence.Treated, groups[i].1) > 0
    ensures PatternOf(groups[i]) in Patterns(groups)
  {
    if i < |groups| - 1 { PatternFor(groups[..|groups| - 1], i); }
  }

  /** The records of the pattern that were not held back as controls. */
  function Touches(s: seq<Record>, key: Id): set<int> {
    set i | 0 <= i < |s| && s[i].key == key && s[i].row.arm != Some(B)
  }

  /** A pattern counts the treated records of its key among those read: all of them, those measured and
      those returned at one day and at seven, and those that opted out. */
  lemma PatternMeans(records: seq<Record>, windows: set<Id>, channels: set<Id>, limit: nat, p: Pattern)
    requires p in Summaries(records, windows, channels, limit)
    ensures var s := Slice(records, windows, channels, limit); var t := Touches(s, p.key);
      && p.sent == |t|
      && p.measured1 == |set i | i in t && s[i].row.returned.day1.Some?|
      && p.returned1 == |set i | i in t && s[i].row.returned.day1 == Some(true)|
      && p.measured7 == |set i | i in t && s[i].row.returned.day7.Some?|
      && p.returned7 == |set i | i in t && s[i].row.returned.day7 == Some(true)|
      && p.unsubscribed == |set i | i in t && Unsubscribed in s[i].row.flags && s[i].row.flags[Unsubscribed]|
  {
    hide CountIf, Grouped, Slice, Patterns;
    var s := Slice(records, windows, channels, limit);
    var t := Touches(s, p.key);
    var groups := Grouped(s);
    GroupedMeans(s);
    PatternHas(groups, p);
    CountOfKey(s, p.key, Evidence.Treated);
    CountOfKey(s, p.key, Measured1);
    CountOfKey(s, p.key, Returned1);
    CountOfKey(s, p.key, Measured7);
    CountOfKey(s, p.key, Returned7);
    CountOfKey(s, p.key, OptedOut);
    assert Positions(s, p.key, Evidence.Treated) == t;
    assert Positions(s, p.key, Measured1) == set i | i in t && s[i].row.returned.day1.Some?;
    assert Positions(s, p.key, Returned1) == set i | i in t && s[i].row.returned.day1 == Some(true);
    assert Positions(s, p.key, Measured7) == set i | i in t && s[i].row.returned.day7.Some?;
    assert Positions(s, p.key, Returned7) == set i | i in t && s[i].row.returned.day7 == Some(true);
    assert Positions(s, p.key, OptedOut) == set i | i in t && Unsubscribed in s[i].row.flags && s[i].row.flags[Unsubscribed];
  }

  /** Every key with a treated record among those read has its pattern. */
  lemma TouchedKeysHavePatterns(records: seq<Record>, windows: set<Id>, channels: set<Id>, limit: nat, r: Record)
    requires r in Slice(records, windows, channels, limit) && r.row.arm != Some(B)
    ensures exists p :: p in Summaries(records, windows, channels, limit) && p.key == r.key
  {
    hide CountIf, Grouped, Slice, Patterns;
    var s := Slice(records, windows, channels, limit);
    var groups := Grouped(s);
    GroupedMeans(s);
    var i :| 0 <= i < |groups| && groups[i].0 == r.key;
    CountOfKey(s, r.key, Evidence.Treated);
    var k :| 0 <= k < |s| && s[k] == r;
    assert k in Positions(s, r.key, Evidence.Treated);
    PatternFor(groups, i);
    assert PatternOf(groups[i]).key == r.key;
  }

  // ----- what failed -----------------------------------------------------------------

  /** A mechanism failed for a Pro exactly when a recent treated record of it that counts as evidence
      shows an opt-out or a measured seven-day miss. */
  lemma FailedMeans(records: seq<Record>, pro: Id, cutoff: int, m: Id)
    ensures m in Evidence.Failed(records, pro, cutoff) <==> exists r ::
      && r in records && r.mechanism == Some(m) && r.row.pro == pro && r.createdAt >= cutoff
      && r.row.limitation == None && r.row.arm != Some(B)
      && ((Unsubscribed in r.row.flags && r.row.flags[Unsubscribed]) || r.row.returned.day7 == Some(false))
  {
    if r :| && r in records && r.mechanism == Some(m) && r.row.pro == pro && r.createdAt >= cutoff
            && r.row.limitation == None && r.row.arm != Some(B)
            && ((Unsubscribed in r.row.flags && r.row.flags[Unsubscribed]) || r.row.returned.day7 == Some(false)) {
      var i :| 0 <= i < |records| && records[i] == r;
      assert Fails(records[i], pro, cutoff);
    }
    if m in Evidence.Failed(records, pro, cutoff) {
      var i :| 0 <= i < |records| && Fails(records[i], pro, cutoff) && records[i].mechanism.value == m;
      assert records[i] in records;
    }
  }
}
