/** Canonical item resolution by concurrent resolvers: an exact look-up, a scan for the closest
    active item, and one guarded write. Hash and similarity are opaque functions. */
module Items {
  import opened Common

  const EXACT_THRESHOLD := 0.9
  const DRIFT_THRESHOLD := 0.6

  type Concept = string

  datatype Oracle = Oracle(hash: Concept -> int, similarity: (Concept, Concept) -> real)

  /** One entry of item_metadata's versions. */
  datatype Version = Version(version: nat, concept: Concept)

  datatype Item = Item(mechanism: string, channel: string, concept: Concept, version: nat, history: seq<Version>, active: bool)

  datatype Request = Request(mechanism: string, channel: string, concept: Concept)

  datatype Resolved = Resolved(id: nat, version: nat, created: bool)

  // ----- the queries -----------------------------------------------------------------

  /** The unique key (mechanism, channel, hash). */
  predicate Matches(o: Oracle, item: Item, r: Request) {
    item.mechanism == r.mechanism && item.channel == r.channel && o.hash(item.concept) == o.hash(r.concept)
  }

  /** The owner of the request's key, whatever its status. */
  function Owner(o: Oracle, items: seq<Item>, r: Request): (id: Option<nat>)
    ensures id.Some? ==> id.value < |items| && Matches(o, items[id.value], r)
    ensures id.None? ==> forall i :: 0 <= i < |items| ==> !Matches(o, items[i], r)
  {
    if items == [] then None
    else
      var n := |items| - 1;
      if Matches(o, items[n], r) then Some(n) else Owner(o, items[..n], r)
  }

  predicate Candidate(item: Item, r: Request) {
    item.mechanism == r.mechanism && item.channel == r.channel && item.active
  }

  datatype Closest = Closest(id: Option<nat>, score: real)

  /** The best match so far, strictly better ones replacing it; nothing scores above zero at first. */
  function ClosestOf(o: Oracle, items: seq<Item>, r: Request): (c: Closest)
    ensures c.id.Some? ==> c.id.value < |items| && Candidate(items[c.id.value], r)
    ensures c.score >= 0.0
  {
    if items == [] then Closest(None, 0.0)
    else
      var n := |items| - 1;
      var best := ClosestOf(o, items[..n], r);
      if Candidate(items[n], r) && o.similarity(r.concept, items[n].concept) > best.score
      then Closest(Some(n), o.similarity(r.concept, items[n].concept)) else best
  }

  method BestMatch(o: Oracle, items: seq<Item>, r: Request) returns (best: Closest)
    ensures best == ClosestOf(o, items, r)
  {
    best := Closest(None, 0.0);
    for i := 0 to |items|
      invariant best == ClosestOf(o, items[..i], r)
    {
      assert items[..i + 1][..i] == items[..i];
      if Candidate(items[i], r) {
        var score := o.similarity(r.concept, items[i].concept);
        if score > best.score {
          best := Closest(Some(i), score);
        }
      }
    }
    assert items[..|items|] == items;
  }

  /** No active item of the mechanism and channel is closer than the one chosen, and of equally
      close ones it is the first. */
  lemma {:induction false} ClosestIsClosest(o: Oracle, items: seq<Item>, r: Request, i: nat)
    requires i < |items| && Candidate(items[i], r)
    ensures var c := ClosestOf(o, items, r);
      && o.similarity(r.concept, items[i].concept) <= c.score
      && (c.id.Some? ==> c.score == o.similarity(r.concept, items[c.id.value].concept))
      && (c.id.Some? && i < c.id.value ==> o.similarity(r.concept, items[i].concept) < c.score)
  {
    var n := |items| - 1;
    ClosestScore(o, items[..n], r);
    if i < n { ClosestIsClosest(o, items[..n], r, i); }
  }

  lemma {:induction false} ClosestScore(o: Oracle, items: seq<Item>, r: Request)
    ensures var c := ClosestOf(o, items, r);
      if c.id.Some? then c.score == o.similarity(r.concept, items[c.id.value].concept) && c.score > 0.0 else c.score == 0.0
  {
    if items != [] { ClosestScore(o, items[..|items| - 1], r); }
  }

  // ----- a resolver ------------------------------------------------------------------

  /** Where a resolver stands: after the exact query, or about to write what its scan chose. The
      item it means to bump is held as it was read. */
  datatype Phase = Looked | Bumping(id: nat, seen: Item) | Creating

  datatype Resolver = Resolver(request: Request, phase: Phase)

  /** The corpus, the resolvers at work, and every answer given so far. */
  datatype World = World(items: seq<Item>, resolvers: map<nat, Resolver>, answers: seq<(Request, Resolved)>)

  datatype Event = Look(resolver: nat, request: Request) | Scan(resolver: nat) | Write(resolver: nat) | Retire(id: nat)

  predicate Enabled(w: World, e: Event) {
    match e
    case Look(p, _) => p !in w.resolvers
    case Scan(p) => p in w.resolvers && w.resolvers[p].phase.Looked?
    case Write(p) => p in w.resolvers && !w.resolvers[p].phase.Looked?
    case Retire(id) => id < |w.items|
  }

  function Answer(w: World, p: nat, r: Request, id: nat, created: bool): World
    requires id < |w.items|
  {
    World(w.items, w.resolvers - {p}, w.answers + [(r, Resolved(id, w.items[id].version, created))])
  }

  /** The version bump: the prior concept moves into the history. */
  function Bumped(seen: Item, current: Item, concept: Concept): Item {
    current.(version := seen.version + 1, concept := concept, history := seen.history + [Version(seen.version, seen.concept)])
  }

  function Fresh(r: Request): Item {
    Item(r.mechanism, r.channel, r.concept, 1, [], true)
  }

  /** The guarded UPDATE or the INSERT, with what a lost race or a taken key degrades to. */
  function WriteStep(o: Oracle, w: World, p: nat): World
    requires p in w.resolvers && !w.resolvers[p].phase.Looked?
  {
    var r := w.resolvers[p].request;
    var owner := Owner(o, w.items, r);
    match w.resolvers[p].phase
    case Looked => w
    case Bumping(id, seen) =>
      if id >= |w.items| then w
      else if w.items[id].version != seen.version then Answer(w, p, r, id, false)
      else if owner.Some? && owner.value != id then Answer(w, p, r, owner.value, false)
      else Answer(w.(items := w.items[id := Bumped(seen, w.items[id], r.concept)]), p, r, id, false)
    case Creating =>
      if owner.Some? then Answer(w, p, r, owner.value, false)
      else Answer(w.(items := w.items + [Fresh(r)]), p, r, |w.items|, true)
  }

  function Step(o: Oracle, w: World, e: Event): World
    requires Enabled(w, e)
  {
    match e
    case Look(p, r) =>
      var owner := Owner(o, w.items, r);
      if owner.Some? then Answer(w, p, r, owner.value, false)
      else w.(resolvers := w.resolvers[p := Resolver(r, Looked)])
    case Scan(p) =>
      var r := w.resolvers[p].request;
      var best := ClosestOf(o, w.items, r);
      if best.id.Some? && best.score >= EXACT_THRESHOLD then Answer(w, p, r, best.id.value, false)
      else if best.id.Some? && best.score >= DRIFT_THRESHOLD then
        w.(resolvers := w.resolvers[p := Resolver(r, Bumping(best.id.value, w.items[best.id.value]))])
      else w.(resolvers := w.resolvers[p := Resolver(r, Creating)])
    case Write(p) => WriteStep(o, w, p)
    case Retire(id) => w.(items := w.items[id := w.items[id].(active := false)])
  }

  /** The corpus table and its two writes. */
  class Corpus {
    var items: seq<Item>

    constructor ()
      ensures items == []
    {
      items := [];
    }

    /** The optimistic UPDATE inside its SAVEPOINT, and the insert inside its own: the outcome of
        one resolver's write against whatever is committed by now. */
    method Commit(o: Oracle, r: Request, phase: Phase) returns (answer: Resolved)
      requires !phase.Looked? && (phase.Bumping? ==> phase.id < |items|)
      modifies this
      ensures var w := WriteStep(o, World(old(items), map[0 := Resolver(r, phase)], []), 0);
        items == w.items && w.answers == [(r, answer)]
    {
      var owner := Owner(o, items, r);
      if phase.Bumping? {
        var id := phase.id;
        if items[id].version == phase.seen.version {
          if owner.Some? && owner.value != id {
            return Resolved(owner.value, items[owner.value].version, false);
          }
          items := items[id := Bumped(phase.seen, items[id], r.concept)];
          return Resolved(id, phase.seen.version + 1, false);
        }
        return Resolved(id, items[id].version, false);
      }
      if owner.Some? {
        return Resolved(owner.value, items[owner.value].version, false);
      }
      items := items + [Fresh(r)];
      answer := Resolved(|items| - 1, 1, true);
    }
  }
}
