/** Which sends of a window are registered, held, ignored or unusable, and where the first window begins. */
module IterableFates {
  import opened Common
  import opened Iterable

  /** The send's run has decided for its Pro. */
  predicate Decided(s: Send, winners: Winners) {
    s.run.Some? && s.pro.Some? && (s.run.value, s.pro.value) in winners
  }

  /** A send without a run is not Waypoint's. One that is stamped and names its Pro is registered with
      the winner of its run and Pro as soon as there is one, held for at most a day while there is
      none, and then registered without; the rest cannot be used. */
  lemma FateMeans(s: Send, winners: Winners, now: int)
    ensures var fate := FateOf(s, winners, now); var dated := s.createdAt.Some?;
      && (fate.Ignored? <==> s.run.None?)
      && (fate.Deferred? <==> s.run.Some? && s.pro.Some? && !Decided(s, winners) && dated && now - s.createdAt.value < 24 * 3600)
      && (fate.Registered? <==>
            && s.run.Some? && s.pro.Some? && s.message.Some? && dated
            && (Decided(s, winners) || now - s.createdAt.value >= 24 * 3600))
      && (fate.Registered? ==>
            fate.exposure == Exposure(s.message.value,
                                      if Decided(s, winners) then Some(winners[(s.run.value, s.pro.value)]) else None,
                                      s.pro, s.createdAt.value))
  {
  }

  ghost predicate BeganAt(polls: seq<Poll>, w: Window) {
    exists k :: 0 <= k < |polls| && polls[k].fetch.Some? && w == Window(polls[k].now - 24 * 3600, polls[k].now - 15 * 60)
  }

  /** A poller without a cursor begins a day before the first tick that gets through. */
  lemma {:induction false} FirstWindowLooksBack(polls: seq<Poll>)
    requires After(polls).passed != []
    ensures BeganAt(polls, After(polls).passed[0])
    decreases |polls|
  {
    hide Fates, Count;
    var n := |polls| - 1;
    var before := After(polls[..n]);
    if before.passed == [] {
      NothingPassed(polls[..n]);
      assert polls[n].fetch.Some?;
    } else {
      FirstWindowLooksBack(polls[..n]);
      var k :| 0 <= k < n && polls[..n][k].fetch.Some?
        && before.passed[0] == Window(polls[..n][k].now - 24 * 3600, polls[..n][k].now - 15 * 60);
      assert polls[k] == polls[..n][k];
    }
  }

  lemma {:induction false} NothingPassed(polls: seq<Poll>)
    requires After(polls).passed == []
    ensures After(polls).cursor == None
  {
    hide Fates, Count;
    if polls != [] { NothingPassed(polls[..|polls| - 1]); }
  }
}
