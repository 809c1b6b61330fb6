/** No canonical concept is lost, whatever resolvers race. */
module ItemsProofs {
  import opened Common
  import opened Items

  /** The history holds versions 1 to version - 1, in order. */
  predicate HistoryOk(item: Item) {
    && item.version == |item.history| + 1
    && forall k :: 0 <= k < |item.history| ==> item.history[k].version == k + 1
  }

  ghost predicate UniqueKeys(o: Oracle, items: seq<Item>) {
    forall i, j :: 0 <= i < j < |items| ==>
      !(items[i].mechanism == items[j].mechanism && items[i].channel == items[j].channel
        && o.hash(items[i].concept) == o.hash(items[j].concept))
  }

  /** b is a later state of a: the same version with the same contents, or a later version whose
      history extends a's and records the concept a had. */
  predicate Later(a: Item, b: Item) {
    && b.mechanism == a.mechanism && b.channel == a.channel
    && a.history <= b.history
    && (if b.version == a.version then b.concept == a.concept && b.history == a.history
        else b.version > a.version && |b.history| >= a.version >= 1
             && b.history[a.version - 1] == Version(a.version, a.concept))
  }

  ghost predicate AllLater(before: seq<Item>, after: seq<Item>) {
    |before| <= |after| && forall i :: 0 <= i < |before| ==> Later(before[i], after[i])
  }

  /** What a resolver holds is an earlier state of the row it will write. */
  ghost predicate ResolverOk(items: seq<Item>, x: Resolver) {
    x.phase.Bumping? ==>
      && x.phase.id < |items| && Later(x.phase.seen, items[x.phase.id]) && HistoryOk(x.phase.seen)
      && x.phase.seen.mechanism == x.request.mechanism && x.phase.seen.channel == x.request.channel
  }

  predicate AnswerOk(items: seq<Item>, a: (Request, Resolved)) {
    && a.1.id < |items| && items[a.1.id].mechanism == a.0.mechanism && items[a.1.id].channel == a.0.channel
    && 1 <= a.1.version <= items[a.1.id].version
  }

  ghost predicate Inv(o: Oracle, w: World) {
    && (forall i :: 0 <= i < |w.items| ==> HistoryOk(w.items[i]))
    && UniqueKeys(o, w.items)
    && (forall p :: p in w.resolvers ==> ResolverOk(w.items, w.resolvers[p]))
    && (forall k :: 0 <= k < |w.answers| ==> AnswerOk(w.items, w.answers[k]))
  }

  /** Rows only move forward, so whatever was held or answered stays true of them. */
  lemma ForwardKeepsRest(o: Oracle, w: World, after: World)
    requires Inv(o, w) && AllLater(w.items, after.items) && UniqueKeys(o, after.items)
    requires forall i :: 0 <= i < |after.items| ==> HistoryOk(after.items[i])
    requires forall p :: p in after.resolvers ==> p in w.resolvers && after.resolvers[p] == w.resolvers[p]
    requires |after.answers| >= |w.answers| && after.answers[..|w.answers|] == w.answers
    requires forall k :: |w.answers| <= k < |after.answers| ==> AnswerOk(after.items, after.answers[k])
    ensures Inv(o, after)
  {
  }

  lemma Unmoved(items: seq<Item>)
    ensures AllLater(items, items)
  {
  }

  lemma LookKeepsInv(o: Oracle, w: World, p: nat, r: Request)
    requires Inv(o, w) && p !in w.resolvers
    ensures Inv(o, Step(o, w, Look(p, r))) && AllLater(w.items, Step(o, w, Look(p, r)).items)
  {
  }

  lemma ScanKeepsInv(o: Oracle, w: World, p: nat)
    requires Inv(o, w) && Enabled(w, Scan(p))
    ensures Inv(o, Step(o, w, Scan(p))) && AllLater(w.items, Step(o, w, Scan(p)).items)
  {
  }

  lemma RetireKeepsInv(o: Oracle, w: World, id: nat)
    requires Inv(o, w) && id < |w.items|
    ensures Inv(o, Step(o, w, Retire(id))) && AllLater(w.items, Step(o, w, Retire(id)).items)
  {
  }

  lemma BumpKeepsRows(o: Oracle, items: seq<Item>, x: Resolver)
    requires UniqueKeys(o, items) && (forall i :: 0 <= i < |items| ==> HistoryOk(items[i]))
    requires ResolverOk(items, x) && x.phase.Bumping? && items[x.phase.id].version == x.phase.seen.version
    requires forall i :: 0 <= i < |items| && i != x.phase.id ==> !Matches(o, items[i], x.request)
    ensures var after := items[x.phase.id := Bumped(x.phase.seen, items[x.phase.id], x.request.concept)];
      AllLater(items, after) && UniqueKeys(o, after) && forall i :: 0 <= i < |after| ==> HistoryOk(after[i])
  {
  }

  /** At most one other row owns a key, so when the owner is the bumped row itself nobody else does. */
  lemma OnlyOwner(o: Oracle, items: seq<Item>, r: Request, id: nat, i: nat)
    requires UniqueKeys(o, items) && id < |items| && i < |items| && i != id
    requires Owner(o, items, r).None? || Owner(o, items, r) == Some(id)
    ensures !Matches(o, items[i], r)
  {
  }

  lemma CreateKeepsRows(o: Oracle, items: seq<Item>, r: Request)
    requires UniqueKeys(o, items) && (forall i :: 0 <= i < |items| ==> HistoryOk(items[i])) && Owner(o, items, r).None?
    ensures var after := items + [Fresh(r)];
      AllLater(items, after) && UniqueKeys(o, after) && forall i :: 0 <= i < |after| ==> HistoryOk(after[i])
  {
  }

  lemma WriteKeepsInv(o: Oracle, w: World, p: nat)
    requires Inv(o, w) && Enabled(w, Write(p))
    ensures Inv(o, Step(o, w, Write(p))) && AllLater(w.items, Step(o, w, Write(p)).items)
  {
    hide HistoryOk, UniqueKeys, Later, Bumped, Matches;
    var x := w.resolvers[p];
    assert ResolverOk(w.items, x);
    WriteMoves(o, w, p);
    ForwardKeepsRest(o, w, Step(o, w, Write(p)));
  }

  /** The write answers with a row of the asked mechanism and channel. */
  lemma WriteMoves(o: Oracle, w: World, p: nat)
    requires Inv(o, w) && Enabled(w, Write(p))
    ensures var after := Step(o, w, Write(p));
      && AllLater(w.items, after.items) && UniqueKeys(o, after.items)
      && (forall i :: 0 <= i < |after.items| ==> HistoryOk(after.items[i]))
      && after.resolvers == w.resolvers - {p}
      && |after.answers| == |w.answers| + 1 && after.answers[..|w.answers|] == w.answers
      && AnswerOk(after.items, after.answers[|w.answers|])
  {
    hide UniqueKeys;
    var x := w.resolvers[p];
    assert ResolverOk(w.items, x);
    Unmoved(w.items);
    if x.phase.Bumping? {
      var id := x.phase.id;
      var owner := Owner(o, w.items, x.request);
      if w.items[id].version == x.phase.seen.version && (owner.None? || owner.value == id) {
        forall i | 0 <= i < |w.items| && i != id ensures !Matches(o, w.items[i], x.request) {
          OnlyOwner(o, w.items, x.request, id, i);
        }
        BumpKeepsRows(o, w.items, x);
      }
    } else if Owner(o, w.items, x.request).None? {
      CreateKeepsRows(o, w.items, x.request);
    }
  }

  lemma StepKeepsInv(o: Oracle, w: World, e: Event)
    requires Inv(o, w) && Enabled(w, e)
    ensures Inv(o, Step(o, w, e)) && AllLater(w.items, Step(o, w, e).items)
  {
    hide Inv, AllLater, Step;
    match e
    case Look(p, r) => LookKeepsInv(o, w, p, r);
    case Scan(p) => ScanKeepsInv(o, w, p);
    case Write(p) => WriteKeepsInv(o, w, p);
    case Retire(id) => RetireKeepsInv(o, w, id);
  }

  ghost predicate Runs(o: Oracle, w: World, events: seq<Event>)
    decreases |events|
  {
    events == [] || (Enabled(w, events[0]) && Runs(o, Step(o, w, events[0]), events[1..]))
  }

  function Exec(o: Oracle, w: World, events: seq<Event>): World
    requires Runs(o, w, events)
    decreases |events|
  {
    if events == [] then w else Exec(o, Step(o, w, events[0]), events[1..])
  }

  lemma AllLaterTwice(o: Oracle, a: World, b: World, c: World)
    requires Inv(o, a) && Inv(o, b) && Inv(o, c) && AllLater(a.items, b.items) && AllLater(b.items, c.items)
    ensures AllLater(a.items, c.items)
  {
  }

  /** In every interleaving, a row that was canonical at some version still is, or its concept is
      in the history at that version; nothing already in a history is ever rewritten. */
  lemma {:induction false} NoConceptIsLost(o: Oracle, w: World, events: seq<Event>)
    requires Inv(o, w) && Runs(o, w, events)
    ensures Inv(o, Exec(o, w, events)) && AllLater(w.items, Exec(o, w, events).items)
    decreases |events|
  {
    hide Inv, AllLater, Step, Enabled;
    if events == [] {
      Unmoved(w.items);
    } else {
      var next := Step(o, w, events[0]);
      StepKeepsInv(o, w, events[0]);
      NoConceptIsLost(o, next, events[1..]);
      AllLaterTwice(o, w, next, Exec(o, next, events[1..]));
    }
  }

  const Empty := World([], map[], [])

  /** From an empty corpus: every history is complete and in order, no two items share a
      mechanism, channel and concept hash, and every answer named an item of the mechanism and
      channel that were asked for, at a version it has reached. */
  lemma CorpusStaysCanonical(o: Oracle, events: seq<Event>)
    requires Runs(o, Empty, events)
    ensures var w := Exec(o, Empty, events);
      && UniqueKeys(o, w.items)
      && (forall i :: 0 <= i < |w.items| ==> HistoryOk(w.items[i]))
      && (forall k :: 0 <= k < |w.answers| ==> AnswerOk(w.items, w.answers[k]))
  {
    NoConceptIsLost(o, Empty, events);
  }

  /** The guard is what makes the stale copy safe: when the version read is still current, the copy
      holds the row's own concept and history. */
  lemma GuardMeansUnchanged(o: Oracle, w: World, p: nat)
    requires Inv(o, w) && p in w.resolvers && w.resolvers[p].phase.Bumping?
    requires w.resolvers[p].phase.id < |w.items|
    requires w.items[w.resolvers[p].phase.id].version == w.resolvers[p].phase.seen.version
    ensures var seen := w.resolvers[p].phase.seen; var current := w.items[w.resolvers[p].phase.id];
      seen.concept == current.concept && seen.history == current.history
  {
  }
}
