/** What each step of a resolver decides: reuse, bump or create, and what its write leaves behind. */
module ItemsRules {
  import opened Common
  import opened Items

  predicate HasKey(o: Oracle, item: Item, r: Request) {
    item.mechanism == r.mechanism && item.channel == r.channel && o.hash(item.concept) == o.hash(r.concept)
  }

  ghost predicate KeyTaken(o: Oracle, items: seq<Item>, r: Request) {
    exists i :: 0 <= i < |items| && HasKey(o, items[i], r)
  }

  /** An active item of the mechanism and channel, at least that close. */
  predicate Near(o: Oracle, items: seq<Item>, r: Request, i: nat, floor: real) {
    && i < |items| && items[i].mechanism == r.mechanism && items[i].channel == r.channel && items[i].active
    && o.similarity(r.concept, items[i].concept) >= floor
  }

  ghost predicate AnyNear(o: Oracle, items: seq<Item>, r: Request, floor: real) {
    exists i: nat :: Near(o, items, r, i, floor)
  }

  /** No active item of the mechanism and channel is closer. */
  ghost predicate Nearest(o: Oracle, items: seq<Item>, r: Request, id: nat, floor: real) {
    && Near(o, items, r, id, floor)
    && forall i: nat :: Near(o, items, r, i, floor) ==>
         o.similarity(r.concept, items[i].concept) <= o.similarity(r.concept, items[id].concept)
  }

  /** The step answered the resolver with a row as it now is, and ended its work. */
  ghost predicate Answered(w: World, v: World, p: nat, r: Request, id: nat, created: bool) {
    && p !in v.resolvers && v.resolvers == w.resolvers - {p}
    && id < |v.items| && v.answers == w.answers + [(r, Resolved(id, v.items[id].version, created))]
  }

  // ----- the look-ups ----------------------------------------------------------------

  /** A request whose key is taken is answered with its owner at once. */
  lemma LookDecides(o: Oracle, w: World, p: nat, r: Request)
    requires p !in w.resolvers
    ensures var v := Step(o, w, Look(p, r));
      && v.items == w.items
      && if KeyTaken(o, w.items, r)
         then exists i: nat :: i < |w.items| && HasKey(o, w.items[i], r) && Answered(w, v, p, r, i, false)
         else v.answers == w.answers && v.resolvers == w.resolvers[p := Resolver(r, Looked)]
  {
  }

  lemma NearestFound(o: Oracle, items: seq<Item>, r: Request, floor: real)
    requires floor > 0.0
    ensures var c := ClosestOf(o, items, r); c.id.Some? && c.score >= floor <==> AnyNear(o, items, r, floor)
    ensures var c := ClosestOf(o, items, r); c.id.Some? && c.score >= floor ==> Nearest(o, items, r, c.id.value, floor)
  {
    var c := ClosestOf(o, items, r);
    ClosestScore(o, items, r);
    forall i: nat | Near(o, items, r, i, floor)
      ensures o.similarity(r.concept, items[i].concept) <= c.score
      ensures c.id.Some? ==> c.score == o.similarity(r.concept, items[c.id.value].concept)
    {
      ClosestIsClosest(o, items, r, i);
    }
    if c.id.Some? && c.score >= floor { assert Near(o, items, r, c.id.value, floor); }
  }

  /** An item at 0.9 or closer is reused as it is, one between 0.6 and 0.9 is to be bumped, and
      without one a new item is to be created; it is always a closest one. */
  lemma ScanDecides(o: Oracle, w: World, p: nat)
    requires Enabled(w, Scan(p))
    ensures var v := Step(o, w, Scan(p)); var r := w.resolvers[p].request;
      && v.items == w.items
      && (AnyNear(o, w.items, r, 0.9) ==> exists id: nat :: Nearest(o, w.items, r, id, 0.9) && Answered(w, v, p, r, id, false))
      && (!AnyNear(o, w.items, r, 0.9) ==> v.answers == w.answers && p in v.resolvers && v.resolvers[p].request == r)
      && (!AnyNear(o, w.items, r, 0.9) && AnyNear(o, w.items, r, 0.6) ==>
            && v.resolvers[p].phase.Bumping? && Nearest(o, w.items, r, v.resolvers[p].phase.id, 0.6)
            && v.resolvers[p].phase.seen == w.items[v.resolvers[p].phase.id])
      && (!AnyNear(o, w.items, r, 0.6) ==> !AnyNear(o, w.items, r, 0.9) && v.resolvers[p].phase == Creating)
  {
    var r := w.resolvers[p].request;
    NearestFound(o, w.items, r, 0.9);
    NearestFound(o, w.items, r, 0.6);
    if i: nat :| Near(o, w.items, r, i, 0.9) { assert Near(o, w.items, r, i, 0.6); }
  }

  // ----- the write -------------------------------------------------------------------

  /** A bump that finds its row as it read it, and its key free or its own, stores the new concept one
      version on and the old one in the history; otherwise it stores nothing and answers with the row
      that won. */
  lemma BumpDecides(o: Oracle, w: World, p: nat)
    requires Enabled(w, Write(p)) && w.resolvers[p].phase.Bumping? && w.resolvers[p].phase.id < |w.items|
    requires var r := w.resolvers[p].request;
      forall i, j :: 0 <= i < j < |w.items| ==> !(HasKey(o, w.items[i], r) && HasKey(o, w.items[j], r))
    ensures var v := Step(o, w, Write(p)); var r := w.resolvers[p].request;
      var id := w.resolvers[p].phase.id; var seen := w.resolvers[p].phase.seen; var row := w.items[id];
      && (row.version != seen.version ==> v.items == w.items && Answered(w, v, p, r, id, false))
      && (row.version == seen.version ==> forall i: nat :: i < |w.items| && i != id && HasKey(o, w.items[i], r) ==>
            v.items == w.items && Answered(w, v, p, r, i, false))
      && (row.version == seen.version && (forall i: nat :: i < |w.items| && i != id ==> !HasKey(o, w.items[i], r)) ==>
            && v.items == w.items[id := Item(row.mechanism, row.channel, r.concept, seen.version + 1,
                                              seen.history + [Version(seen.version, seen.concept)], row.active)]
            && Answered(w, v, p, r, id, false))
  {
  }

  /** A creation stores one active item at version 1, unless its key was taken meanwhile. */
  lemma CreationDecides(o: Oracle, w: World, p: nat)
    requires Enabled(w, Write(p)) && w.resolvers[p].phase.Creating?
    ensures var v := Step(o, w, Write(p)); var r := w.resolvers[p].request;
      if KeyTaken(o, w.items, r)
      then v.items == w.items && exists i: nat :: i < |w.items| && HasKey(o, w.items[i], r) && Answered(w, v, p, r, i, false)
      else && v.items == w.items + [Item(r.mechanism, r.channel, r.concept, 1, [], true)]
           && Answered(w, v, p, r, |w.items|, true)
  {
  }

  /** A retired item is reused and bumped no more; only its own key still finds it. */
  lemma RetiredIsNeverNear(o: Oracle, w: World, id: nat, r: Request, floor: real)
    requires id < |w.items|
    ensures var v := Step(o, w, Retire(id));
      && !Near(o, v.items, r, id, floor)
      && (forall i: nat :: i != id ==> Near(o, v.items, r, i, floor) == Near(o, w.items, r, i, floor))
      && (forall i: nat :: i < |v.items| ==> HasKey(o, v.items[i], r) == HasKey(o, w.items[i], r))
      && |v.items| == |w.items|
  {
  }
}
