/** The evidence readers: patterns per channel and canonical item, and what failed for a Pro. */
module Evidence {
  import opened Common
  import opened Outcomes

  /** The columns the readers use beside the row: `key` is the channel with the canonical item,
      or with the mechanism of a legacy row. */
  datatype Record = Record(row: Row, key: Id, channel: Id, mechanism: Option<Id>, window: Id, createdAt: int)

  /** Treated rows and, per learning horizon, returned against measured. */
  datatype Pattern = Pattern(key: Id, sent: nat, returned1: nat, measured1: nat, returned7: nat, measured7: nat,
                             unsubscribed: nat)

  type Groups = seq<(Id, seq<Record>)>

  predicate Readable(r: Record, windows: set<Id>, channels: set<Id>) {
    r.window in windows && r.channel in channels && r.row.limitation.None?
  }

  /** The query, newest first, cut to the limit. */
  function Slice(records: seq<Record>, windows: set<Id>, channels: set<Id>, limit: nat): seq<Record> {
    if records == [] || limit == 0 then []
    else if Readable(records[0], windows, channels) then [records[0]] + Slice(records[1..], windows, channels, limit - 1)
    else Slice(records[1..], windows, channels, limit)
  }

  /** grouped.setdefault(key, []).append(row). */
  function Add(groups: Groups, r: Record): Groups {
    if groups == [] then [(r.key, [r])]
    else if groups[0].0 == r.key then [(r.key, groups[0].1 + [r])] + groups[1..]
    else [groups[0]] + Add(groups[1..], r)
  }

  function Grouped(records: seq<Record>): Groups {
    if records == [] then [] else Add(Grouped(records[..|records| - 1]), records[|records| - 1])
  }

  predicate Treated(r: Record) {
    r.row.arm != Some(B)
  }

  function CountIf(p: Record -> bool, records: seq<Record>): nat {
    if records == [] then 0 else CountIf(p, records[..|records| - 1]) + if p(records[|records| - 1]) then 1 else 0
  }

  predicate Measured1(r: Record) { Treated(r) && r.row.returned.day1.Some? }

  predicate Returned1(r: Record) { Treated(r) && r.row.returned.day1 == Some(true) }

  predicate Measured7(r: Record) { Treated(r) && r.row.returned.day7.Some? }

  predicate Returned7(r: Record) { Treated(r) && r.row.returned.day7 == Some(true) }

  predicate OptedOut(r: Record) { Treated(r) && Unsubscribed in r.row.flags && r.row.flags[Unsubscribed] }

  function PatternOf(group: (Id, seq<Record>)): Pattern {
    Pattern(group.0, CountIf(Treated, group.1), CountIf(Returned1, group.1), CountIf(Measured1, group.1),
            CountIf(Returned7, group.1), CountIf(Measured7, group.1), CountIf(OptedOut, group.1))
  }

  /** A group without treated rows is a comparison, not a pattern. */
  function Patterns(groups: Groups): seq<Pattern> {
    if groups == [] then []
    else Patterns(groups[..|groups| - 1])
         + if CountIf(Treated, groups[|groups| - 1].1) > 0 then [PatternOf(groups[|groups| - 1])] else []
  }

  function Summaries(records: seq<Record>, windows: set<Id>, channels: set<Id>, limit: nat): seq<Pattern> {
    Patterns(Grouped(Slice(records, windows, channels, limit)))
  }

  method PatternSummaries(records: seq<Record>, windows: set<Id>, channels: set<Id>, limit: nat)
    returns (patterns: seq<Pattern>)
    ensures patterns == Summaries(records, windows, channels, limit)
  {
    var rows := Slice(records, windows, channels, limit);
    var grouped: Groups := [];
    for i := 0 to |rows|
      invariant grouped == Grouped(rows[..i])
    {
      assert rows[..i + 1][..i] == rows[..i];
      grouped := Add(grouped, rows[i]);
    }
    assert rows[..|rows|] == rows;
    patterns := [];
    for i := 0 to |grouped|
      invariant patterns == Patterns(grouped[..i])
    {
      assert grouped[..i + 1][..i] == grouped[..i];
      if CountIf(Treated, grouped[i].1) > 0 {
        patterns := patterns + [PatternOf(grouped[i])];
      }
    }
    assert grouped[..|grouped|] == grouped;
  }

  // ----- nothing labelled is read, nothing read is lost ------------------------------

  function Unlabelled(records: seq<Record>): seq<Record> {
    if records == [] then []
    else (if records[0].row.limitation.None? then [records[0]] else []) + Unlabelled(records[1..])
  }

  /** Labelled rows change no pattern and take no place under the limit. */
  lemma {:induction false} LabelledRowsAreInvisible(records: seq<Record>, windows: set<Id>, channels: set<Id>, limit: nat)
    ensures Slice(records, windows, channels, limit) == Slice(Unlabelled(records), windows, channels, limit)
    ensures Summaries(records, windows, channels, limit) == Summaries(Unlabelled(records), windows, channels, limit)
  {
    if records != [] && limit > 0 {
      var rest := Unlabelled(records[1..]);
      if records[0].row.limitation.None? { assert ([records[0]] + rest)[1..] == rest; } else { assert [] + rest == rest; }
      LabelledRowsAreInvisible(records[1..], windows, channels, limit);
      LabelledRowsAreInvisible(records[1..], windows, channels, limit - 1);
    }
  }

  function Sent(patterns: seq<Pattern>): nat {
    if patterns == [] then 0 else Sent(patterns[..|patterns| - 1]) + patterns[|patterns| - 1].sent
  }

  function TreatedIn(groups: Groups): nat {
    if groups == [] then 0 else CountIf(Treated, groups[0].1) + TreatedIn(groups[1..])
  }

  lemma {:induction false} AddCounts(groups: Groups, r: Record)
    ensures TreatedIn(Add(groups, r)) == TreatedIn(groups) + if Treated(r) then 1 else 0
  {
    if groups == [] {
      assert [r][..0] == [] && CountIf(Treated, [r]) == if Treated(r) then 1 else 0;
      assert Add(groups, r)[1..] == [] && Add(groups, r)[0].1 == [r];
    } else if groups[0].0 == r.key {
      var g := groups[0].1;
      assert (g + [r])[..|g|] == g;
      assert Add(groups, r)[1..] == groups[1..] && Add(groups, r)[0].1 == g + [r];
    } else {
      AddCounts(groups[1..], r);
      assert Add(groups, r)[1..] == Add(groups[1..], r) && Add(groups, r)[0] == groups[0];
    }
  }

  lemma {:induction false} GroupedCounts(records: seq<Record>)
    ensures TreatedIn(Grouped(records)) == CountIf(Treated, records)
  {
    if records != [] {
      var n := |records| - 1;
      GroupedCounts(records[..n]);
      AddCounts(Grouped(records[..n]), records[n]);
    }
  }

  lemma {:induction false} TreatedSnoc(groups: Groups, g: (Id, seq<Record>))
    ensures TreatedIn(groups + [g]) == TreatedIn(groups) + CountIf(Treated, g.1)
  {
    if groups == [] {
      assert [g][1..] == [];
    } else {
      TreatedSnoc(groups[1..], g);
      assert (groups + [g])[1..] == groups[1..] + [g];
    }
  }

  lemma {:induction false} PatternsCount(groups: Groups)
    ensures Sent(Patterns(groups)) == TreatedIn(groups)
  {
    if groups != [] {
      var n := |groups| - 1;
      PatternsCount(groups[..n]);
      assert groups == groups[..n] + [groups[n]];
      TreatedSnoc(groups[..n], groups[n]);
      var before := Patterns(groups[..n]);
      var p := PatternOf(groups[n]);
      assert (before + [p])[..|before|] == before && before + [] == before;
    }
  }

  /** The patterns account for every treated row that was read, each exactly once. */
  lemma PatternsConserveRows(records: seq<Record>, windows: set<Id>, channels: set<Id>, limit: nat)
    ensures Sent(Summaries(records, windows, channels, limit)) == CountIf(Treated, Slice(records, windows, channels, limit))
  {
    var rows := Slice(records, windows, channels, limit);
    GroupedCounts(rows);
    PatternsCount(Grouped(rows));
  }

  ghost predicate Counted(p: Pattern) {
    p.returned1 <= p.measured1 <= p.sent && p.returned7 <= p.measured7 <= p.sent && p.unsubscribed <= p.sent && p.sent > 0
  }

  lemma {:induction false} CountWithin(p: Record -> bool, q: Record -> bool, records: seq<Record>)
    requires forall r :: p(r) ==> q(r)
    ensures CountIf(p, records) <= CountIf(q, records)
  {
    if records != [] { CountWithin(p, q, records[..|records| - 1]); }
  }

  /** Rates are rates: returned within measured within sent. */
  lemma {:induction false} RatesAreBounded(groups: Groups, i: nat)
    requires i < |Patterns(groups)|
    ensures Counted(Patterns(groups)[i])
  {
    var n := |groups| - 1;
    if i < |Patterns(groups[..n])| {
      RatesAreBounded(groups[..n], i);
    } else {
      var g := groups[n].1;
      CountWithin(Returned1, Measured1, g);
      CountWithin(Measured1, Treated, g);
      CountWithin(Returned7, Measured7, g);
      CountWithin(Measured7, Treated, g);
      CountWithin(OptedOut, Treated, g);
    }
  }

  /** failed_mechanisms: an unsubscribe or a measured seven-day miss, recent, never a control and
      never a labelled row. */
  function Failed(records: seq<Record>, pro: Id, cutoff: int): set<Id> {
    set i | 0 <= i < |records| && Fails(records[i], pro, cutoff) :: records[i].mechanism.value
  }

  predicate Fails(r: Record, pro: Id, cutoff: int) {
    && r.row.pro == pro && r.row.limitation.None? && r.mechanism.Some? && r.createdAt >= cutoff && Treated(r)
    && (OptedOut(r) || r.row.returned.day7 == Some(false))
  }

  /** A mechanism leaves the failed set when its last failing row is labelled: the set is that of
      the unlabelled rows. */
  lemma {:induction false} FailedIgnoresLabelled(records: seq<Record>, pro: Id, cutoff: int)
    ensures Failed(records, pro, cutoff) == Failed(Unlabelled(records), pro, cutoff)
  {
    forall m ensures m in Failed(records, pro, cutoff) <==> m in Failed(Unlabelled(records), pro, cutoff) {
      if m in Failed(records, pro, cutoff) {
        var i :| 0 <= i < |records| && Fails(records[i], pro, cutoff) && records[i].mechanism.value == m;
        UnlabelledHas(records, records[i]);
        var j :| 0 <= j < |Unlabelled(records)| && Unlabelled(records)[j] == records[i];
      }
      if m in Failed(Unlabelled(records), pro, cutoff) {
        var kept := Unlabelled(records);
        var i :| 0 <= i < |kept| && Fails(kept[i], pro, cutoff) && kept[i].mechanism.value == m;
        UnlabelledHas(records, kept[i]);
        var j :| 0 <= j < |records| && records[j] == kept[i];
      }
    }
  }

  lemma {:induction false} UnlabelledHas(records: seq<Record>, r: Record)
    ensures r in Unlabelled(records) <==> r in records && r.row.limitation.None?
  {
    if records != [] { UnlabelledHas(records[1..], r); }
  }
}
