/** How a submitted outcome names its touch: by recommendation, by exposure, or by run and Pro. */
module Naming {
  import opened Common

  datatype Submitted = Submitted(recommendation: string, exposure: Option<string>, run: string, pro: string)

  /** str.isspace() for one character. */
  predicate Space(c: char) {
    || '\U{9}' <= c <= '\U{d}' || '\U{1c}' <= c <= ' ' || '\U{2000}' <= c <= '\U{200a}'
    || c in {'\U{85}', '\U{a0}', '\U{1680}', '\U{2028}', '\U{2029}', '\U{202f}', '\U{205f}', '\U{3000}'}
  }

  /** str.strip() leaves nothing. */
  predicate Blank(s: string) {
    forall i :: 0 <= i < |s| ==> Space(s[i])
  }

  datatype Named = Refused | Accepted(recommendation: string)

  /** _names_a_touch: the recommendation id the record is keyed by, "" when the pair names it. */
  function Validate(s: Submitted): Named {
    if s.recommendation != "" then Accepted(s.recommendation)
    else if s.exposure.Some? && s.exposure.value != "" then Accepted(s.exposure.value)
    else if Blank(s.run) || Blank(s.pro) then Refused
    else if ':' in s.run || ':' in s.pro then Refused
    else Accepted("")
  }

  function Unresolved(run: string, pro: string): string {
    "unresolved:" + run + ":" + pro
  }

  /** _resolve_run_pro for one record. */
  function KeyOf(s: Submitted, winners: map<(string, string), string>): Option<string> {
    match Validate(s)
    case Refused => None
    case Accepted(rec) =>
      if rec != "" then Some(rec)
      else if (s.run, s.pro) in winners then Some(winners[(s.run, s.pro)])
      else Some(Unresolved(s.run, s.pro))
  }

  /** No record is keyed by the empty text, which every such record would share. */
  lemma KeysAreNamed(s: Submitted, winners: map<(string, string), string>)
    requires forall p :: p in winners ==> winners[p] != ""
    ensures KeyOf(s, winners).Some? ==> KeyOf(s, winners).value != ""
    ensures KeyOf(s, winners).None? <==>
      s.recommendation == "" && (s.exposure.None? || s.exposure.value == "")
      && ((forall c :: c in s.run ==> Space(c)) || (forall c :: c in s.pro ==> Space(c)) || ':' in s.run || ':' in s.pro)
  {
  }

  /** The recommendation names a record before its exposure, its exposure before its run and Pro, and
      those by their winner where there is one. */
  lemma NamesInOrder(s: Submitted, winners: map<(string, string), string>)
    ensures s.recommendation != "" ==> KeyOf(s, winners) == Some(s.recommendation)
    ensures s.recommendation == "" && s.exposure.Some? && s.exposure.value != "" ==> KeyOf(s, winners) == s.exposure
    ensures s.recommendation == "" && (s.exposure.None? || s.exposure.value == "") && KeyOf(s, winners).Some? ==>
      KeyOf(s, winners).value ==
        if (s.run, s.pro) in winners then winners[(s.run, s.pro)] else "unresolved:" + s.run + ":" + s.pro
  {
  }

  lemma {:induction false} SplitAtColon(a: string, b: string, x: string, y: string)
    requires ':' !in a && ':' !in x && a + ":" + b == x + ":" + y
    ensures a == x && b == y
    decreases |a|
  {
    var left := a + ":" + b;
    var right := x + ":" + y;
    assert left[0] == (if a == [] then ':' else a[0]) && right[0] == (if x == [] then ':' else x[0]);
    assert (a == [] || a[0] in a) && (x == [] || x[0] in x);
    assert a == [] <==> x == [];
    if a == [] {
      assert left[1..] == b && right[1..] == y;
    } else {
      assert left[1..] == a[1..] + ":" + b && right[1..] == x[1..] + ":" + y;
      SplitAtColon(a[1..], b, x[1..], y);
      assert a == [a[0]] + a[1..] && x == [x[0]] + x[1..];
    }
  }

  /** Two different accepted pairs never share the key of an unresolved record. */
  lemma UnresolvedKeysDoNotCollide(s: Submitted, t: Submitted)
    requires Validate(s) == Accepted("") && Validate(t) == Accepted("")
    ensures Unresolved(s.run, s.pro) == Unresolved(t.run, t.pro) <==> s.run == t.run && s.pro == t.pro
  {
    if Unresolved(s.run, s.pro) == Unresolved(t.run, t.pro) {
      var p := "unresolved:";
      assert p + s.run + ":" + s.pro == p + (s.run + ":" + s.pro);
      assert p + t.run + ":" + t.pro == p + (t.run + ":" + t.pro);
      assert (p + (s.run + ":" + s.pro))[|p|..] == s.run + ":" + s.pro;
      assert (p + (t.run + ":" + t.pro))[|p|..] == t.run + ":" + t.pro;
      SplitAtColon(s.run, s.pro, t.run, t.pro);
    }
  }

  /** Without the refusal they would. */
  lemma ColonsWouldAlias(a: string, b: string, c: string)
    ensures Unresolved(a + ":" + b, c) == Unresolved(a, b + ":" + c)
    ensures Validate(Submitted("", None, a + ":" + b, c)) == Refused
    ensures Validate(Submitted("", None, a, b + ":" + c)) == Refused
  {
  }
}
