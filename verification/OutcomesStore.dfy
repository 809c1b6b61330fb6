/** The learning tables and the methods that write them, each against its specification. */
module OutcomesStore {
  import opened Common
  import opened Outcomes

  class Store {
    var rows: seq<Row>
    var exposures: map<Id, Exposure>
    var winners: map<Id, Winner>

    ghost function Contents(): Db
      reads this
    {
      Db(rows, exposures, winners)
    }

    constructor ()
      ensures Contents() == Db([], map[], map[])
    {
      rows, exposures, winners := [], map[], map[];
    }

    method FindRow(rec: Id, source: Source) returns (at: Option<nat>)
      ensures at == Find(rows, rec, source)
    {
      at := None;
      for i := 0 to |rows|
        invariant at == Find(rows[..i], rec, source)
      {
        assert rows[..i + 1][..i] == rows[..i];
        if rows[i].rec == rec && rows[i].source == source {
          at := Some(i);
        }
      }
      assert rows[..|rows|] == rows;
    }

    /** _apply_flags, on a row read from the table. */
    method ApplyFlags(row: Row, item: Item) returns (r: Row)
      ensures r == WithFlags(row, item)
    {
      r := row.(flags := row.flags + item.flags);
      if !r.status.Confirmed? {
        if item.sentAt.Some? {
          r := r.(sentAt := item.sentAt);
        }
        if !item.status.Unknown? {
          r := r.(status := item.status);
        }
      }
      if r.confirmedAt.None? {
        r := r.(confirmedAt := item.confirmedAt);
      }
      if item.firstReturn.Some? && (r.firstReturn.None? || item.firstReturn.value < r.firstReturn.value) {
        r := r.(firstReturn := item.firstReturn);
      }
      if r.status.Confirmed? && r.sentAt.Some? && r.firstReturn.Some? {
        r := r.(returned := Fill(r.returned, Derive(r.sentAt, r.firstReturn)));
      }
    }

    /** _apply_item; false is the violated foreign key. */
    method Apply(item: Item) returns (ok: bool)
      modifies `rows
      ensures ok <==> ApplyItem(old(Contents()), item).Some?
      ensures Contents() == if ok then ApplyItem(old(Contents()), item).value else old(Contents())
    {
      var at := FindRow(item.rec, item.source);
      if at.None? {
        if item.exposure.Some? && item.exposure.value !in exposures {
          return false;
        }
        rows := rows + [NewRow(Db(rows, exposures, winners), item)];
        return true;
      }
      var db := Db(rows, exposures, winners);
      var row := Refreshed(db, item, rows[at.value]);
      row := ApplyFlags(row, item);
      // After the flags: the verdict must see what this submission just measured.
      row := row.(limitation := Limitation(Attributed(db, item), row.routing, DeliveredOf(row.flags)));
      rows := rows[at.value := row];
      ok := true;
    }

    /** promote_winners: eligibility is recomputed from every row the winner owns. */
    method Promote(ids: seq<Id>)
      modifies `winners
      ensures Contents() == PromoteAll(old(Contents()), ids)
    {
      for k := 0 to |ids|
        modifies `winners
        invariant Contents() == PromoteAll(old(Contents()), ids[..k])
      {
        assert ids[..k + 1][..k] == ids[..k];
        if ids[k] in winners {
          var owned := Collect(ids[k]);
          winners := winners[ids[k] := Promoted(owned, winners[ids[k]])];
        }
      }
      assert ids[..|ids|] == ids;
    }

    method Collect(w: Id) returns (owned: seq<Row>)
      ensures owned == OwnedRows(Contents(), w, rows)
    {
      owned := [];
      for i := 0 to |rows|
        invariant owned == OwnedRows(Contents(), w, rows[..i])
      {
        assert rows[..i + 1][..i] == rows[..i];
        if Owns(Db(rows, exposures, winners), w, rows[i]) {
          owned := owned + [rows[i]];
        }
      }
      assert rows[..|rows|] == rows;
    }

    /** One ingest transaction: all of the batch, or nothing. */
    method IngestBatch(items: seq<Item>) returns (ok: bool)
      modifies `rows, `winners
      ensures ok <==> Ingest(old(Contents()), items).Some?
      ensures Contents() == if ok then Ingest(old(Contents()), items).value else old(Contents())
    {
      ghost var start := Contents();
      var saved := rows;
      var affected: seq<Id> := [];
      for k := 0 to |items|
        modifies `rows
        invariant exposures == start.exposures && winners == start.winners
        invariant ApplyItems(start, items[..k]) == Some(Contents())
        invariant affected == Affected(start, items[..k])
      {
        assert items[..k + 1][..k] == items[..k];
        var w := WinnerOf(Db(rows, exposures, winners), items[k]);
        assert w == WinnerOf(start, items[k]);
        if w.Some? && w.value !in affected {
          affected := affected + [w.value];
        }
        var stored := Apply(items[k]);
        if !stored {
          FailedItemFailsBatch(start, items, k + 1);
          rows := saved;
          return false;
        }
      }
      assert items[..|items|] == items;
      Promote(affected);
      ok := true;
    }

    /** exposures._apply. */
    method RegisterBatch(items: seq<Registration>)
      modifies `exposures
      ensures Contents() == Registered(old(Contents()), items)
    {
      for k := 0 to |items|
        modifies `exposures
        invariant Contents() == Registered(old(Contents()), items[..k])
      {
        assert items[..k + 1][..k] == items[..k];
        var item := items[k];
        if item.rec.None? || item.rec.value in winners {
          var pro := if item.rec.Some? then winners[item.rec.value].pro else item.pro;
          if item.id !in exposures {
            exposures := exposures[item.id :=
              Exposure(item.rec, pro, item.arm, item.routing, item.sentAt, item.status, None)];
          } else {
            var e := exposures[item.id];
            if e.winner.None? && item.rec.Some? {
              e := e.(winner := item.rec, pro := pro);
            }
            if !e.status.Confirmed? {
              if !item.status.Unknown? {
                e := e.(status := item.status);
              }
              if item.sentAt.Some? {
                e := e.(sentAt := item.sentAt);
              }
            }
            exposures := exposures[item.id := e.(routing := MergeRouting(e.routing, item.routing))];
          }
        }
      }
      assert items[..|items|] == items;
    }

    /** _synthesize_exposure_rows, for the exposures its query returned. */
    method SynthesizeRows(ids: seq<Id>)
      modifies `rows
      ensures Contents() == Synthesize(old(Contents()), ids)
    {
      for k := 0 to |ids|
        modifies `rows
        invariant exposures == old(exposures) && Contents() == Synthesize(old(Contents()), ids[..k])
      {
        assert ids[..k + 1][..k] == ids[..k];
        if ids[k] in exposures {
          rows := rows + [SilentRow(ids[k], exposures[ids[k]])];
        }
      }
      assert ids[..|ids|] == ids;
    }

    /** resolve_due_checkpoints, for the exposures and rows its queries returned. */
    method ResolveDue(now: int, gated: bool, silent: seq<Id>, picked: seq<nat>)
      modifies `rows, `winners
      ensures Contents() == Sweep(old(Contents()), now, gated, silent, picked)
    {
      SynthesizeRows(silent);
      ghost var start := Contents();
      var before := rows;
      for k := 0 to |picked|
        modifies `rows
        invariant Contents() == ResolveAll(start, picked[..k], now, gated)
        invariant exposures == start.exposures && winners == start.winners
      {
        assert picked[..k + 1][..k] == picked[..k];
        var i := picked[k];
        if i < |rows| {
          rows := rows[i := Resolved(Db(rows, exposures, winners), rows[i], now, gated)];
        }
      }
      assert picked[..|picked|] == picked;
      var affected: seq<Id> := [];
      for k := 0 to |picked|
        modifies {}
        invariant affected == Reached(start, Contents(), picked[..k])
      {
        assert picked[..k + 1][..k] == picked[..k];
        var i := picked[k];
        if i < |before| && i < |rows| && rows[i] != before[i] {
          affected := affected + (if rows[i].returned.day7.Some? then [rows[i].rec] else [])
            + LinkedWinner(Db(before, exposures, winners), rows[i]);
        }
      }
      Promote(affected);
    }
  }

  function Registered(db: Db, items: seq<Registration>): Db {
    if items == [] then db else Register(Registered(db, items[..|items| - 1]), items[|items| - 1])
  }

  lemma {:induction false} FailedItemFailsBatch(db: Db, items: seq<Item>, k: nat)
    requires k <= |items| && ApplyItems(db, items[..k]).None?
    ensures ApplyItems(db, items).None?
    decreases |items|
  {
    if k == |items| {
      assert items[..k] == items;
    } else {
      var n := |items| - 1;
      assert items[..n][..k] == items[..k];
      FailedItemFailsBatch(db, items[..n], k);
    }
  }
}
