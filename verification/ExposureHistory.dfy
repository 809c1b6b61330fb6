/** What an exposure holds after any run: the arm it was first registered with, the first winner it
    was linked to, and the fold of every routing claim registered for it. */
module ExposureHistory {
  import opened Common
  import opened Outcomes
  import opened OutcomesRows
  import opened WarmStart
  import opened WarmStartRuns
  import opened RowRuns

  /** The registration is stored: it names no winner, or one that exists. */
  predicate Accepted(db: Db, item: Registration) {
    item.rec.None? || item.rec.value in db.winners
  }

  function EventRegisters(db: Db, e: Event, id: Id): seq<Registration> {
    if e.Registered? && e.item.id == id && Accepted(db, e.item) then [e.item] else []
  }

  /** Every stored registration of an exposure in a run, in order. */
  function RunRegisters(db: Db, events: seq<Event>, id: Id): seq<Registration>
    decreases |events|
  {
    if events == [] then [] else EventRegisters(db, events[0], id) + RunRegisters(Step(db, events[0]), events[1..], id)
  }

  function Claims(regs: seq<Registration>): seq<Routing> {
    seq(|regs|, i requires 0 <= i < |regs| => regs[i].routing)
  }

  /** The first winner named. */
  function FirstLink(regs: seq<Registration>): Option<Id> {
    if regs == [] then None
    else
      var before := FirstLink(regs[..|regs| - 1]);
      if before.Some? then before else regs[|regs| - 1].rec
  }

  /** Up to the first that confirms, each registration states what it states; nothing after it counts. */
  function StatusOf(regs: seq<Registration>): SendStatus {
    if regs == [] then Unknown
    else
      var before := StatusOf(regs[..|regs| - 1]);
      if before.Confirmed? || regs[|regs| - 1].status.Unknown? then before else regs[|regs| - 1].status
  }

  function SentOf(regs: seq<Registration>): Option<int> {
    if regs == [] then None
    else
      var before := regs[..|regs| - 1];
      if StatusOf(before).Confirmed? || regs[|regs| - 1].sentAt.None? then SentOf(before) else regs[|regs| - 1].sentAt
  }

  ghost predicate Describes(db: Db, id: Id, regs: seq<Registration>) {
    && (id in db.exposures <==> regs != [])
    && (regs != [] ==>
          var e := db.exposures[id];
          && e.arm == regs[0].arm && e.winner == FirstLink(regs) && e.routing == Folded(NoClaim, Claims(regs))
          && e.status == StatusOf(regs) && e.sentAt == SentOf(regs))
  }

  lemma ClaimsGrow(regs: seq<Registration>, item: Registration)
    ensures Claims(regs + [item]) == Claims(regs) + [item.routing]
  {
  }

  lemma RegistrationDescribes(db: Db, item: Registration, id: Id, regs: seq<Registration>)
    requires Describes(db, id, regs)
    ensures Describes(Register(db, item), id, regs + if item.id == id && Accepted(db, item) then [item] else [])
  {
    hide Folded, Claims;
    if item.id == id && Accepted(db, item) {
      var all := regs + [item];
      assert all[..|all| - 1] == regs;
      ClaimsGrow(regs, item);
      FoldedGrows(NoClaim, Claims(regs), item.routing);
      if regs == [] { NoClaims(); assert FirstLink(regs).None? && StatusOf(regs).Unknown? && SentOf(regs).None?; }
      assert all[|regs|] == item && (regs != [] ==> all[0] == regs[0]);
    } else {
      assert regs + [] == regs;
    }
  }

  lemma NoClaims()
    ensures Claims([]) == [] && Folded(NoClaim, Claims([])) == NoClaim
  {
  }

  lemma StepDescribes(db: Db, e: Event, id: Id, regs: seq<Registration>)
    requires Describes(db, id, regs) && Queried(db, e)
    ensures Describes(Step(db, e), id, regs + EventRegisters(db, e, id))
  {
    hide Describes, Register, ApplyItems, Affected, PromoteAll, Synthesize, ResolveAll, Reached, AllSilent, Picked;
    assert regs + [] == regs;
    match e
    case Registered(item) => RegistrationDescribes(db, item, id, regs);
    case Ingested(items) =>
      if Ingest(db, items).Some? {
        IngestFrame(db, items);
        SameExposures(db, Step(db, e), id, regs);
      }
    case Swept(now, gated, silent, picked) =>
      SweepFrame(db, now, gated, silent, picked);
      SameExposures(db, Step(db, e), id, regs);
    case WinnerAdded(_, _, _) => SameExposures(db, Step(db, e), id, regs);
    case Stamped(other, at) => StampDescribes(db, other, at, id, regs);
  }

  lemma SameExposures(a: Db, b: Db, id: Id, regs: seq<Registration>)
    requires Describes(a, id, regs) && a.exposures == b.exposures
    ensures Describes(b, id, regs)
  {
  }

  lemma StampDescribes(db: Db, other: Id, at: int, id: Id, regs: seq<Registration>)
    requires Describes(db, id, regs)
    ensures Describes(Step(db, Stamped(other, at)), id, regs)
  {
    hide Folded, Claims;
  }

  lemma {:induction false} ItemsKeepExposures(db: Db, items: seq<Item>)
    requires ApplyItems(db, items).Some?
    ensures ApplyItems(db, items).value.exposures == db.exposures
  {
    if items != [] { ItemsKeepExposures(db, items[..|items| - 1]); }
  }

  lemma IngestFrame(db: Db, items: seq<Item>)
    requires Ingest(db, items).Some?
    ensures Ingest(db, items).value.exposures == db.exposures
  {
    hide ApplyItems, PromoteAll, Affected;
    ItemsKeepExposures(db, items);
    PromoteAllFacts(ApplyItems(db, items).value, Affected(db, items));
  }

  lemma {:induction false} SynthesizeKeepsExposures(db: Db, ids: seq<Id>)
    ensures Synthesize(db, ids).exposures == db.exposures
  {
    if ids != [] { SynthesizeKeepsExposures(db, ids[..|ids| - 1]); }
  }

  lemma SweepFrame(db: Db, now: int, gated: bool, silent: seq<Id>, picked: seq<nat>)
    ensures Sweep(db, now, gated, silent, picked).exposures == db.exposures
  {
    hide Synthesize, ResolveAll, PromoteAll, Reached;
    SynthesizeKeepsExposures(db, silent);
    var s := Synthesize(db, silent);
    ResolveRows(s, picked, now, gated);
    var d := ResolveAll(s, picked, now, gated);
    PromoteAllFacts(d, Reached(s, d, picked));
  }

  lemma {:induction false} RunDescribes(db: Db, events: seq<Event>, id: Id, regs: seq<Registration>)
    requires Describes(db, id, regs) && AllQueried(db, events)
    ensures Describes(Exec(db, events), id, regs + RunRegisters(db, events, id))
    decreases |events|
  {
    hide Describes, Queried, Step, EventRegisters;
    if events == [] {
      assert regs + [] == regs;
    } else {
      var e := events[0];
      StepDescribes(db, e, id, regs);
      RunDescribes(Step(db, e), events[1..], id, regs + EventRegisters(db, e, id));
      assert regs + EventRegisters(db, e, id) + RunRegisters(Step(db, e), events[1..], id) == regs + RunRegisters(db, events, id);
    }
  }

  /** After any run an exposure is there exactly when a registration of it was stored, and holds what
      its registrations say in order; its routing is a proven real send exactly when every claim that
      was not empty says so, and one did. */
  lemma ExposureMeans(events: seq<Event>, id: Id)
    requires AllQueried(Empty, events)
    ensures var d := Exec(Empty, events); var regs := RunRegisters(Empty, events, id);
      && Describes(d, id, regs)
      && (regs != [] ==>
            (d.exposures[id].routing == RouteToPro <==> RouteToPro in Claims(regs) && AllAgree(Claims(regs), RouteToPro)))
  {
    hide Step, Queried, Claims, Folded;
    RunDescribes(Empty, events, id, []);
    var regs := RunRegisters(Empty, events, id);
    assert [] + regs == regs;
    RouteToProMeans(Claims(regs));
  }
}
