/** Replayed submissions: what a receiver does with the same item twice. */
module OutcomesReplay {
  import opened Common
  import opened Outcomes
  import opened OutcomesRows

  /** Registering the same exposure again changes nothing. */
  lemma RegistrationReplays(db: Db, item: Registration)
    ensures Register(Register(db, item), item) == Register(db, item)
  {
  }

  /** The submission claims no send state of its own against an exposure whose send is not
      confirmed yet. */
  predicate DefersToExposure(db: Db, item: Item) {
    var e := ExposureOf(db, item);
    e.Some? && !e.value.status.Confirmed? ==>
      (item.sentAt.None? || item.sentAt == e.value.sentAt) && (item.status.Unknown? || item.status == e.value.status)
  }

  /** Updating a stored row twice with one item is updating it once. */
  lemma UpdateReplays(db: Db, item: Item, row: Row)
    ensures Updated(db, item, Updated(db, item, row)) == Updated(db, item, row)
  {
  }

  /** A row stored once and then submitted again: the same row exactly when the submission did not
      carry its own send state past an unconfirmed exposure. */
  lemma NewRowReplays(db: Db, item: Item)
    ensures Updated(db, item, NewRow(db, item)) == NewRow(db, item) <==> DefersToExposure(db, item)
  {
  }

  /** A replayed submission is safe exactly when its row already exists or it defers to its
      exposure; otherwise the second copy overwrites the send state the first took from the
      exposure. */
  lemma ReplayedItemIsSafe(db: Db, item: Item)
    requires UniqueKeys(db.rows) && ApplyItem(db, item).Some?
    ensures ApplyItem(ApplyItem(db, item).value, item) == ApplyItem(db, item)
      <==> Find(db.rows, item.rec, item.source).Some? || DefersToExposure(db, item)
  {
    hide Updated, NewRow, DefersToExposure;
    ApplyItemWrites(db, item);
    var once := ApplyItem(db, item).value;
    var at := Find(db.rows, item.rec, item.source);
    var i := if at.Some? then at.value else |db.rows|;
    UpdatedFrame(db, once, item, once.rows[i]);
    var twice := ApplyItem(once, item).value;
    assert twice.rows == once.rows[i := Updated(db, item, once.rows[i])];
    if at.Some? {
      UpdateReplays(db, item, db.rows[i]);
      assert twice.rows == once.rows;
    } else {
      NewRowReplays(db, item);
      if DefersToExposure(db, item) {
        assert twice.rows == once.rows;
      } else {
        assert twice.rows[i] != once.rows[i];
      }
    }
  }

  lemma UpdatedFrame(a: Db, b: Db, item: Item, row: Row)
    requires a.exposures == b.exposures && a.winners == b.winners
    ensures Updated(a, item, row) == Updated(b, item, row)
  {
  }

  /** What the two pollers submit always defers, so a replayed window is safe. */
  lemma PollersReplaySafely(db: Db, item: Item)
    requires UniqueKeys(db.rows) && ApplyItem(db, item).Some? && item.sentAt.None? && item.status.Unknown?
    ensures ApplyItem(ApplyItem(db, item).value, item) == ApplyItem(db, item)
  {
    ReplayedItemIsSafe(db, item);
  }
}
