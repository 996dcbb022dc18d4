/** Running a statement keeps the invariant of the transaction that runs it. */
module StoreStatements {
  import opened Documents
  import opened CoSigning
  import opened Authorization
  import opened OwnershipLaws
  import opened Batches
  import opened StoreModel
  import opened StoreDiscipline
  import opened StoreInvariant

  /** The part of Enabled that does not look at other transactions. */
  ghost predicate Runs(t: Tables, p: Pending, stmt: Stmt) {
    match stmt
    case Load(k, row) => k in t.rows && t.rows[k] == row
    case Resolve(r) => r.held ==> PlaylistKey(r.ingested.id) in t.rows
    case CheckTombstones(ks) => ks !! t.tombstones
    case InsertRow(k, _, _) => VisibleRow(t, p, k).None?
    case UpdateRow(k, base, _, _) => MatchesGeneration(t, p, k, base.generation)
    case DeleteRow(k, base, _) => MatchesGeneration(t, p, k, base.generation)
    case _ => true
  }

  lemma SeenKept(t: Tables, v: View, p: Pending, stmt: Stmt)
    requires SeenOk(t, v.seen) && Runs(t, p, stmt)
    ensures SeenOk(t, ViewAfter(v, stmt).seen)
  {
  }

  lemma HeldKept(t: Tables, v: View, p: Pending, stmt: Stmt)
    requires LocksOk(t, v, p) && Runs(t, p, stmt)
    ensures forall id :: id in ViewAfter(v, stmt).held ==> Known(t, PlaylistKey(id))
  {
  }

  lemma CheckedKept(t: Tables, v: View, p: Pending, stmt: Stmt)
    requires LocksOk(t, v, p) && StmtOk(v, stmt) && Runs(t, p, stmt)
    ensures ViewAfter(v, stmt).checked <= ViewAfter(v, stmt).locks && ViewAfter(v, stmt).checked !! t.tombstones
  {
  }

  lemma RowsStayPending(t: Tables, p: Pending, stmt: Stmt, now: nat, k: DocKey)
    requires k in p.rows
    ensures k in PendingAfter(t, p, stmt, now).rows
  {
  }

  lemma NewlyWritten(v: View, stmt: Stmt, k: DocKey)
    requires k in ViewAfter(v, stmt).written && k !in v.written
    ensures (stmt.InsertRow? || stmt.UpdateRow? || stmt.DeleteRow?) && k == stmt.key
  {
  }

  lemma WrittenPends(t: Tables, p: Pending, stmt: Stmt, now: nat)
    requires Runs(t, p, stmt) && (stmt.InsertRow? || stmt.UpdateRow? || stmt.DeleteRow?)
    ensures stmt.key in PendingAfter(t, p, stmt, now).rows
  {
    if stmt.DeleteRow? {
      DeletePendsNone(t, p, stmt, now);
    }
  }

  lemma WritesRecorded(v: View, stmt: Stmt)
    requires v.updates.Keys <= v.written && v.deletes.Keys <= v.written
    ensures ViewAfter(v, stmt).updates.Keys <= ViewAfter(v, stmt).written
    ensures ViewAfter(v, stmt).deletes.Keys <= ViewAfter(v, stmt).written
  {
  }

  lemma WrittenKept(t: Tables, v: View, p: Pending, stmt: Stmt, now: nat)
    requires LocksOk(t, v, p) && Runs(t, p, stmt)
    ensures ViewAfter(v, stmt).written <= PendingAfter(t, p, stmt, now).rows.Keys
  {
    forall k | k in ViewAfter(v, stmt).written
      ensures k in PendingAfter(t, p, stmt, now).rows
    {
      if k in v.written {
        RowsStayPending(t, p, stmt, now, k);
      } else {
        NewlyWritten(v, stmt, k);
        WrittenPends(t, p, stmt, now);
      }
    }
  }

  lemma LocksKept(t: Tables, v: View, p: Pending, stmt: Stmt, now: nat)
    requires LocksOk(t, v, p) && StmtOk(v, stmt) && Runs(t, p, stmt)
    ensures LocksOk(t, ViewAfter(v, stmt), PendingAfter(t, p, stmt, now))
  {
    HeldKept(t, v, p, stmt);
    CheckedKept(t, v, p, stmt);
    WrittenKept(t, v, p, stmt, now);
    WritesRecorded(v, stmt);
  }

  // Pending rows.

  /** Locking, checking, loading and linking more leaves the pending rows standing. */
  lemma RowsStayStanding(t: Tables, v: View, v': View, rows: Rows, tombstones: set<DocKey>)
    requires RowsOk(t, v, rows, tombstones)
    requires v'.written == v.written && v'.updates == v.updates && v'.deletes == v.deletes
    requires v'.tombstoneDue == v.tombstoneDue
    requires v.locks <= v'.locks && v.checked <= v'.checked && v.ensured <= v'.ensured
    requires forall k :: k in v.seen ==> k in v'.seen && v'.seen[k] == v.seen[k]
    ensures RowsOk(t, v', rows, tombstones)
  {
    forall k | k in rows
      ensures RowStands(t, v', rows, tombstones, k)
    {
      assert RowStands(t, v, rows, tombstones, k);
    }
  }

  lemma RowsAfterInsert(t: Tables, v: View, rows: Rows, tombstones: set<DocKey>, k: DocKey, row: Row)
    requires RowsOk(t, v, rows, tombstones)
    requires k !in rows && k !in t.rows && k in v.checked && k !in v.updates
    ensures RowsOk(t, v.(written := v.written + {k}), rows[k := Some(row)], tombstones)
  {
    var v', rows' := v.(written := v.written + {k}), rows[k := Some(row)];
    forall h | h in rows'
      ensures RowStands(t, v', rows', tombstones, h)
    {
      assert h != k ==> RowStands(t, v, rows, tombstones, h);
    }
  }

  lemma RowsAfterUpdate(t: Tables, v: View, rows: Rows, tombstones: set<DocKey>, k: DocKey, row: Row,
                        why: ReplaceRequest)
    requires RowsOk(t, v, rows, tombstones)
    requires k !in rows && UpdateStands(t, v, k, row)
    ensures RowsOk(t, v.(written := v.written + {k}, updates := v.updates[k := why]), rows[k := Some(row)], tombstones)
  {
    var v', rows' := v.(written := v.written + {k}, updates := v.updates[k := why]), rows[k := Some(row)];
    forall h | h in rows'
      ensures RowStands(t, v', rows', tombstones, h)
    {
      assert h != k ==> RowStands(t, v, rows, tombstones, h);
    }
  }

  lemma RowsAfterDelete(t: Tables, v: View, rows: Rows, tombstones: set<DocKey>, k: DocKey, because: DeleteRequest)
    requires RowsOk(t, v, rows, tombstones)
    requires k !in rows && k in v.locks && k in v.seen && k in t.rows && t.rows[k] == v.seen[k] && k !in v.updates
    ensures RowsOk(t, v.(written := v.written + {k}, deletes := v.deletes[k := because],
                         tombstoneDue := v.tombstoneDue + {k}),
                   rows[k := None], tombstones)
  {
    var v', rows' := v.(written := v.written + {k}, deletes := v.deletes[k := because],
                        tombstoneDue := v.tombstoneDue + {k}),
                     rows[k := None];
    forall h | h in rows'
      ensures RowStands(t, v', rows', tombstones, h)
    {
      assert h != k ==> RowStands(t, v, rows, tombstones, h);
    }
  }

  lemma RowsAfterTombstone(t: Tables, v: View, rows: Rows, tombstones: set<DocKey>, k: DocKey)
    requires RowsOk(t, v, rows, tombstones) && k in v.tombstoneDue
    ensures RowsOk(t, v.(tombstoneDue := v.tombstoneDue - {k}), rows, tombstones + {k})
  {
    var v' := v.(tombstoneDue := v.tombstoneDue - {k});
    forall h | h in rows
      ensures RowStands(t, v', rows, tombstones + {k}, h)
    {
      assert RowStands(t, v, rows, tombstones, h);
    }
  }

  lemma RowsAfterMissing(t: Tables, v: View, p: Pending, batch: map<nat, Ingested>, now: nat)
    requires RowsOk(t, v, p.rows, p.tombstones)
    requires forall id :: id in batch ==>
               PlaylistKey(id) !in p.rows && PlaylistKey(id) in v.checked && PlaylistKey(id) !in v.updates
    ensures RowsOk(t, v.(ensured := v.ensured + batch.Keys), p.rows + MissingRows(t, p, batch, now), p.tombstones)
  {
    var v', added := v.(ensured := v.ensured + batch.Keys), MissingRows(t, p, batch, now);
    forall h | h in p.rows + added
      ensures RowStands(t, v', p.rows + added, p.tombstones, h)
    {
      if h in added {
        assert h == PlaylistKey(h.id);
      } else {
        assert RowStands(t, v, p.rows, p.tombstones, h);
      }
    }
  }

  /** A row the transaction has not touched is not among its pending rows. */
  lemma UntouchedIsNotPending(t: Tables, v: View, p: Pending, k: DocKey)
    requires LocksOk(t, v, p) && RowsOk(t, v, p.rows, p.tombstones) && Untouched(v, k)
    ensures k !in p.rows && k !in v.updates && k !in v.deletes
  {
  }

  /** The row an update or delete matches by generation is the very row that was read. */
  lemma MatchedRowIsSeen(t: Tables, v: View, p: Pending, k: DocKey)
    requires SeenOk(t, v.seen) && k in v.seen && k !in p.rows && MatchesGeneration(t, p, k, v.seen[k].generation)
    ensures k in t.rows && t.rows[k] == v.seen[k]
  {
  }

  /** An update that runs meets the row it names, as it is stored. */
  lemma UpdateMeetsRow(t: Tables, v: View, p: Pending, stmt: Stmt)
    requires SeenOk(t, v.seen) && LocksOk(t, v, p) && RowsOk(t, v, p.rows, p.tombstones)
    requires stmt.UpdateRow? && StmtOk(v, stmt) && Runs(t, p, stmt)
    ensures stmt.key !in p.rows && stmt.key in t.rows && t.rows[stmt.key] == stmt.base
  {
    UntouchedIsNotPending(t, v, p, stmt.key);
    MatchedRowIsSeen(t, v, p, stmt.key);
  }

  lemma InsertKeepsRows(t: Tables, v: View, p: Pending, stmt: Stmt, now: nat)
    requires LocksOk(t, v, p) && RowsOk(t, v, p.rows, p.tombstones)
    requires stmt.InsertRow? && StmtOk(v, stmt) && Runs(t, p, stmt)
    ensures RowsOk(t, ViewAfter(v, stmt), PendingAfter(t, p, stmt, now).rows, PendingAfter(t, p, stmt, now).tombstones)
  {
    var k, row := stmt.key, Row(stmt.slug, stmt.body, now, now);
    UntouchedIsNotPending(t, v, p, k);
    RowsAfterInsert(t, v, p.rows, p.tombstones, k, row);
    RowsStayStanding(t, v.(written := v.written + {k}), ViewAfter(v, stmt), p.rows[k := Some(row)], p.tombstones);
  }

  lemma UpdateKeepsRows(t: Tables, v: View, p: Pending, stmt: Stmt, now: nat)
    requires SeenOk(t, v.seen) && LocksOk(t, v, p) && RowsOk(t, v, p.rows, p.tombstones)
    requires stmt.UpdateRow? && StmtOk(v, stmt) && Runs(t, p, stmt)
    ensures RowsOk(t, ViewAfter(v, stmt), PendingAfter(t, p, stmt, now).rows, PendingAfter(t, p, stmt, now).tombstones)
  {
    var k := stmt.key;
    UntouchedIsNotPending(t, v, p, k);
    MatchedRowIsSeen(t, v, p, k);
    var row := UpdatedRow(t.rows[k], stmt.body, now);
    RowsAfterUpdate(t, v, p.rows, p.tombstones, k, row, stmt.why);
    RowsStayStanding(t, v.(written := v.written + {k}, updates := v.updates[k := stmt.why]), ViewAfter(v, stmt),
                     p.rows[k := Some(row)], p.tombstones);
  }

  predicate WritesRows(stmt: Stmt) {
    stmt.InsertRow? || stmt.UpdateRow? || stmt.DeleteRow? || stmt.WriteTombstone? || stmt.InsertMissing?
  }

  lemma DeleteKeepsRows(t: Tables, v: View, p: Pending, stmt: Stmt, now: nat)
    requires SeenOk(t, v.seen) && LocksOk(t, v, p) && RowsOk(t, v, p.rows, p.tombstones)
    requires stmt.DeleteRow? && StmtOk(v, stmt) && Runs(t, p, stmt)
    ensures RowsOk(t, ViewAfter(v, stmt), PendingAfter(t, p, stmt, now).rows, PendingAfter(t, p, stmt, now).tombstones)
  {
    var k := stmt.key;
    UntouchedIsNotPending(t, v, p, k);
    MatchedRowIsSeen(t, v, p, k);
    RowsAfterDelete(t, v, p.rows, p.tombstones, k, stmt.because);
    DeletePendsNone(t, p, stmt, now);
  }

  lemma DeletePendsNone(t: Tables, p: Pending, stmt: Stmt, now: nat)
    requires stmt.DeleteRow?
    ensures PendingAfter(t, p, stmt, now).rows == p.rows[stmt.key := None]
    ensures PendingAfter(t, p, stmt, now).tombstones == p.tombstones
  {
    assert stmt.key.table == Playlists ==> stmt.key == PlaylistKey(stmt.key.id);
  }

  lemma IngestKeepsRows(t: Tables, v: View, p: Pending, stmt: Stmt, now: nat)
    requires LocksOk(t, v, p) && RowsOk(t, v, p.rows, p.tombstones) && stmt.InsertMissing? && StmtOk(v, stmt)
    ensures RowsOk(t, ViewAfter(v, stmt), PendingAfter(t, p, stmt, now).rows, PendingAfter(t, p, stmt, now).tombstones)
  {
    forall id | id in stmt.batch
      ensures PlaylistKey(id) !in p.rows && PlaylistKey(id) in v.checked && PlaylistKey(id) !in v.updates
    {
      UntouchedIsNotPending(t, v, p, PlaylistKey(id));
    }
    RowsAfterMissing(t, v, p, stmt.batch, now);
  }

  /** Locking, checking, loading, reading and linking add to the view and change no pending row. */
  lemma QuietGrows(t: Tables, v: View, p: Pending, stmt: Stmt, now: nat)
    requires StmtOk(v, stmt) && !WritesRows(stmt)
    ensures var v' := ViewAfter(v, stmt);
            && v'.written == v.written && v'.updates == v.updates && v'.deletes == v.deletes
            && v'.tombstoneDue == v.tombstoneDue
            && v.locks <= v'.locks && v.checked <= v'.checked && v.ensured <= v'.ensured
    ensures PendingAfter(t, p, stmt, now).rows == p.rows && PendingAfter(t, p, stmt, now).tombstones == p.tombstones
  {
  }

  lemma SeenGrows(v: View, stmt: Stmt)
    requires StmtOk(v, stmt)
    ensures forall k :: k in v.seen ==> k in ViewAfter(v, stmt).seen && ViewAfter(v, stmt).seen[k] == v.seen[k]
  {
  }

  lemma QuietKeepsRows(t: Tables, v: View, p: Pending, stmt: Stmt, now: nat)
    requires RowsOk(t, v, p.rows, p.tombstones) && StmtOk(v, stmt) && !WritesRows(stmt)
    ensures RowsOk(t, ViewAfter(v, stmt), PendingAfter(t, p, stmt, now).rows, PendingAfter(t, p, stmt, now).tombstones)
  {
    QuietGrows(t, v, p, stmt, now);
    SeenGrows(v, stmt);
    RowsStayStanding(t, v, ViewAfter(v, stmt), p.rows, p.tombstones);
  }

  lemma RowsKept(t: Tables, v: View, p: Pending, stmt: Stmt, now: nat)
    requires SeenOk(t, v.seen) && LocksOk(t, v, p) && RowsOk(t, v, p.rows, p.tombstones)
    requires StmtOk(v, stmt) && Runs(t, p, stmt)
    ensures RowsOk(t, ViewAfter(v, stmt), PendingAfter(t, p, stmt, now).rows, PendingAfter(t, p, stmt, now).tombstones)
  {
    match stmt {
      case InsertRow(_, _, _) => InsertKeepsRows(t, v, p, stmt, now);
      case UpdateRow(_, _, _, _) => UpdateKeepsRows(t, v, p, stmt, now);
      case DeleteRow(_, _, _) => DeleteKeepsRows(t, v, p, stmt, now);
      case WriteTombstone(k) => RowsAfterTombstone(t, v, p.rows, p.tombstones, k);
      case InsertMissing(_, _) => IngestKeepsRows(t, v, p, stmt, now);
      case _ => QuietKeepsRows(t, v, p, stmt, now);
    }
  }

  // Pending index rows.

  lemma ItemsAfterWrite(t: Tables, due: map<nat, ItemsDue>, rows: Rows, cleared: set<nat>, added: map<nat, seq<Item>>,
                        k: DocKey, row: Row, empty: bool)
    requires ItemsOk(t, due, rows, cleared, added) && k !in rows
    requires empty ==> k !in t.rows
    ensures ItemsOk(t, DueItems(due, k, row.body, empty), rows[k := Some(row)], cleared, added)
  {
    var due', rows' := DueItems(due, k, row.body, empty), rows[k := Some(row)];
    forall pl: nat | PlaylistKey(pl) in rows'
      ensures ItemsStand(t, due', rows', cleared, added, pl)
    {
      assert PlaylistKey(pl) in rows ==> ItemsStand(t, due, rows, cleared, added, pl);
    }
  }

  lemma ItemsAfterDrop(t: Tables, due: map<nat, ItemsDue>, rows: Rows, cleared: set<nat>, added: map<nat, seq<Item>>,
                       k: DocKey)
    requires ItemsOk(t, due, rows, cleared, added) && k !in rows
    ensures k.table == Playlists ==> ItemsOk(t, due, rows[k := None], cleared + {k.id}, added - {k.id})
    ensures k.table != Playlists ==> ItemsOk(t, due, rows[k := None], cleared, added)
  {
    var rows' := rows[k := None];
    forall pl: nat | PlaylistKey(pl) in rows'
      ensures k.table == Playlists ==> ItemsStand(t, due, rows', cleared + {k.id}, added - {k.id}, pl)
      ensures k.table != Playlists ==> ItemsStand(t, due, rows', cleared, added, pl)
    {
      assert PlaylistKey(pl) in rows ==> ItemsStand(t, due, rows, cleared, added, pl);
    }
  }

  lemma ItemsAfterClear(t: Tables, due: map<nat, ItemsDue>, rows: Rows, cleared: set<nat>, added: map<nat, seq<Item>>,
                        p: nat)
    requires ItemsOk(t, due, rows, cleared, added) && p in due
    ensures ItemsOk(t, ItemsCleared(due, p), rows, cleared + {p}, added - {p})
  {
    var due' := ItemsCleared(due, p);
    forall pl: nat | PlaylistKey(pl) in rows
      ensures ItemsStand(t, due', rows, cleared + {p}, added - {p}, pl)
    {
      assert ItemsStand(t, due, rows, cleared, added, pl);
    }
  }

  lemma ItemsAfterAdd(t: Tables, due: map<nat, ItemsDue>, rows: Rows, cleared: set<nat>, added: map<nat, seq<Item>>,
                      p: nat, items: seq<Item>)
    requires ItemsOk(t, due, rows, cleared, added)
    requires p in due && due[p] == ItemsDue(items, true)
    ensures ItemsOk(t, due - {p}, rows, cleared, added[p := items])
  {
    forall pl: nat | PlaylistKey(pl) in rows
      ensures ItemsStand(t, due - {p}, rows, cleared, added[p := items], pl)
    {
      assert ItemsStand(t, due, rows, cleared, added, pl);
    }
  }

  lemma ItemsAfterMissing(t: Tables, due: map<nat, ItemsDue>, p: Pending, batch: map<nat, Ingested>, now: nat)
    requires ItemsOk(t, due, p.rows, p.itemsCleared, p.itemsAdded)
    requires forall id :: id in batch ==> PlaylistKey(id) !in p.rows
    ensures ItemsOk(t, due, p.rows + MissingRows(t, p, batch, now), p.itemsCleared,
                    p.itemsAdded + MissingItems(t, p, batch))
  {
    var rows', added' := p.rows + MissingRows(t, p, batch, now), p.itemsAdded + MissingItems(t, p, batch);
    forall pl: nat | PlaylistKey(pl) in rows'
      ensures ItemsStand(t, due, rows', p.itemsCleared, added', pl)
    {
      assert PlaylistKey(pl) in p.rows ==> ItemsStand(t, due, p.rows, p.itemsCleared, p.itemsAdded, pl);
    }
  }

  lemma ItemsKept(t: Tables, v: View, p: Pending, stmt: Stmt, now: nat)
    requires LocksOk(t, v, p) && RowsOk(t, v, p.rows, p.tombstones)
    requires ItemsOk(t, v.itemsDue, p.rows, p.itemsCleared, p.itemsAdded)
    requires StmtOk(v, stmt) && Runs(t, p, stmt)
    ensures var p' := PendingAfter(t, p, stmt, now);
            ItemsOk(t, ViewAfter(v, stmt).itemsDue, p'.rows, p'.itemsCleared, p'.itemsAdded)
  {
    match stmt {
      case InsertRow(k, slug, body) =>
        UntouchedIsNotPending(t, v, p, k);
        ItemsAfterWrite(t, v.itemsDue, p.rows, p.itemsCleared, p.itemsAdded, k, Row(slug, body, now, now), true);
      case UpdateRow(k, _, body, _) =>
        UntouchedIsNotPending(t, v, p, k);
        ItemsAfterWrite(t, v.itemsDue, p.rows, p.itemsCleared, p.itemsAdded, k, UpdatedRow(t.rows[k], body, now),
                        false);
      case DeleteRow(k, _, _) =>
        UntouchedIsNotPending(t, v, p, k);
        ItemsAfterDrop(t, v.itemsDue, p.rows, p.itemsCleared, p.itemsAdded, k);
      case ClearItems(pl) => ItemsAfterClear(t, v.itemsDue, p.rows, p.itemsCleared, p.itemsAdded, pl);
      case AddItems(pl, items) => ItemsAfterAdd(t, v.itemsDue, p.rows, p.itemsCleared, p.itemsAdded, pl, items);
      case InsertMissing(batch, _) =>
        forall id | id in batch
          ensures PlaylistKey(id) !in p.rows
        {
          UntouchedIsNotPending(t, v, p, PlaylistKey(id));
        }
        ItemsAfterMissing(t, v.itemsDue, p, batch, now);
      case _ =>
    }
  }

  // Pending membership rows.

  /** Writing playlists, ensuring more and recording more leaves the pending membership standing. */
  lemma MembersStayStanding(t: Tables, v: View, v': View, rows: Rows, rows': Rows, cleared: set<DocKey>,
                            added: map<DocKey, seq<nat>>)
    requires MembersOk(t, v, rows, cleared, added)
    requires forall c: DocKey :: c.table != Playlists ==>
               (c in rows <==> c in rows') && (c in rows ==> rows'[c] == rows[c])
    requires v'.membersDue == v.membersDue && v'.linked == v.linked && v.ensured <= v'.ensured
    requires v'.sources == v.sources || v.linked == map[]
    ensures MembersOk(t, v', rows', cleared, added)
  {
    forall c | c in rows' && c.table != Playlists
      ensures MembersStand(t, v', rows', cleared, added, c)
    {
      assert MembersStand(t, v, rows, cleared, added, c);
    }
  }

  lemma MembersAfterWrite(t: Tables, v: View, rows: Rows, cleared: set<DocKey>, added: map<DocKey, seq<nat>>,
                          k: DocKey, row: Row, empty: bool)
    requires MembersOk(t, v, rows, cleared, added)
    requires k !in rows && k.table != Playlists && (empty ==> k !in t.rows)
    ensures MembersOk(t, v.(membersDue := v.membersDue[k := empty]), rows[k := Some(row)], cleared, added)
  {
    var v', rows' := v.(membersDue := v.membersDue[k := empty]), rows[k := Some(row)];
    forall c | c in rows' && c.table != Playlists
      ensures MembersStand(t, v', rows', cleared, added, c)
    {
      assert c != k ==> MembersStand(t, v, rows, cleared, added, c);
    }
  }

  lemma MembersAfterDrop(t: Tables, v: View, rows: Rows, cleared: set<DocKey>, added: map<DocKey, seq<nat>>, k: DocKey)
    requires MembersOk(t, v, rows, cleared, added) && k !in rows && k.table != Playlists
    ensures MembersOk(t, v, rows[k := None], cleared + {k}, added - {k})
  {
    var rows' := rows[k := None];
    forall c | c in rows' && c.table != Playlists
      ensures MembersStand(t, v, rows', cleared + {k}, added - {k}, c)
    {
      assert c != k ==> MembersStand(t, v, rows, cleared, added, c);
    }
  }

  lemma MembersAfterClear(t: Tables, v: View, rows: Rows, cleared: set<DocKey>, added: map<DocKey, seq<nat>>, k: DocKey)
    requires MembersOk(t, v, rows, cleared, added) && k in v.membersDue && k.table != Playlists
    ensures MembersOk(t, v.(membersDue := v.membersDue[k := true]), rows, cleared + {k}, added - {k})
  {
    var v' := v.(membersDue := v.membersDue[k := true]);
    forall c | c in rows && c.table != Playlists
      ensures MembersStand(t, v', rows, cleared + {k}, added - {k}, c)
    {
      assert MembersStand(t, v, rows, cleared, added, c);
    }
  }

  lemma MembersAfterAdd(t: Tables, v: View, rows: Rows, cleared: set<DocKey>, added: map<DocKey, seq<nat>>, k: DocKey,
                        refs: seq<Ingested>)
    requires MembersOk(t, v, rows, cleared, added)
    requires k in v.membersDue && v.membersDue[k] && k.table != Playlists
    requires (forall n :: 0 <= n < |refs| ==> refs[n].id in v.ensured) && SourcesCover(v.sources, refs)
    ensures MembersOk(t, v.(membersDue := v.membersDue - {k}, linked := v.linked[k := refs]), rows, cleared,
                      added[k := Ids(refs)])
  {
    var v' := v.(membersDue := v.membersDue - {k}, linked := v.linked[k := refs]);
    forall c | c in rows && c.table != Playlists
      ensures MembersStand(t, v', rows, cleared, added[k := Ids(refs)], c)
    {
      assert MembersStand(t, v, rows, cleared, added, c);
    }
  }

  /** A row written where the transaction had written none. */
  lemma WritePendsOne(t: Tables, v: View, p: Pending, stmt: Stmt, now: nat)
    requires LocksOk(t, v, p) && RowsOk(t, v, p.rows, p.tombstones)
    requires (stmt.InsertRow? || stmt.UpdateRow?) && StmtOk(v, stmt) && Runs(t, p, stmt)
    ensures stmt.key !in p.rows
    ensures var p' := PendingAfter(t, p, stmt, now);
            && stmt.key in p'.rows && p'.rows[stmt.key].Some? && p'.rows == p.rows[stmt.key := p'.rows[stmt.key]]
            && p'.membersCleared == p.membersCleared && p'.membersAdded == p.membersAdded
  {
    UntouchedIsNotPending(t, v, p, stmt.key);
  }

  lemma WriteKeepsMembers(t: Tables, v: View, p: Pending, stmt: Stmt, now: nat)
    requires LocksOk(t, v, p) && RowsOk(t, v, p.rows, p.tombstones)
    requires MembersOk(t, v, p.rows, p.membersCleared, p.membersAdded)
    requires (stmt.InsertRow? || stmt.UpdateRow?) && StmtOk(v, stmt) && Runs(t, p, stmt)
    ensures var p' := PendingAfter(t, p, stmt, now);
            MembersOk(t, ViewAfter(v, stmt), p'.rows, p'.membersCleared, p'.membersAdded)
  {
    var k, v', p' := stmt.key, ViewAfter(v, stmt), PendingAfter(t, p, stmt, now);
    WritePendsOne(t, v, p, stmt, now);
    if k.table == Playlists {
      MembersStayStanding(t, v, v', p.rows, p'.rows, p.membersCleared, p.membersAdded);
    } else {
      MembersAfterWrite(t, v, p.rows, p.membersCleared, p.membersAdded, k, p'.rows[k].value, stmt.InsertRow?);
      MembersStayStanding(t, v.(membersDue := v.membersDue[k := stmt.InsertRow?]), v', p'.rows, p'.rows,
                          p.membersCleared, p.membersAdded);
    }
  }

  lemma DeleteKeepsMembers(t: Tables, v: View, p: Pending, stmt: Stmt, now: nat)
    requires LocksOk(t, v, p) && RowsOk(t, v, p.rows, p.tombstones)
    requires MembersOk(t, v, p.rows, p.membersCleared, p.membersAdded)
    requires stmt.DeleteRow? && StmtOk(v, stmt) && Runs(t, p, stmt)
    ensures var p' := PendingAfter(t, p, stmt, now);
            MembersOk(t, ViewAfter(v, stmt), p'.rows, p'.membersCleared, p'.membersAdded)
  {
    var k, v', p' := stmt.key, ViewAfter(v, stmt), PendingAfter(t, p, stmt, now);
    UntouchedIsNotPending(t, v, p, k);
    if k.table == Playlists {
      MembersStayStanding(t, v, v', p.rows, p'.rows, p.membersCleared, p.membersAdded);
    } else {
      MembersAfterDrop(t, v, p.rows, p.membersCleared, p.membersAdded, k);
      MembersStayStanding(t, v, v', p'.rows, p'.rows, p'.membersCleared, p'.membersAdded);
    }
  }

  predicate WritesMembers(stmt: Stmt) {
    stmt.InsertRow? || stmt.UpdateRow? || stmt.DeleteRow? || stmt.ClearMembers? || stmt.AddMembers?
  }

  lemma IngestKeepsMembers(t: Tables, v: View, p: Pending, batch: map<nat, Ingested>, now: nat)
    requires MembersOk(t, v, p.rows, p.membersCleared, p.membersAdded)
    ensures MembersOk(t, v.(ensured := v.ensured + batch.Keys), p.rows + MissingRows(t, p, batch, now),
                      p.membersCleared, p.membersAdded)
  {
    MembersStayStanding(t, v, v.(ensured := v.ensured + batch.Keys), p.rows, p.rows + MissingRows(t, p, batch, now),
                        p.membersCleared, p.membersAdded);
  }

  lemma QuietKeepsMembers(t: Tables, v: View, p: Pending, stmt: Stmt, now: nat)
    requires MembersOk(t, v, p.rows, p.membersCleared, p.membersAdded)
    requires StmtOk(v, stmt) && !WritesMembers(stmt) && !stmt.InsertMissing?
    ensures var p' := PendingAfter(t, p, stmt, now);
            MembersOk(t, ViewAfter(v, stmt), p'.rows, p'.membersCleared, p'.membersAdded)
  {
    MembersStayStanding(t, v, ViewAfter(v, stmt), p.rows, p.rows, p.membersCleared, p.membersAdded);
  }

  lemma MembersKept(t: Tables, v: View, p: Pending, stmt: Stmt, now: nat)
    requires LocksOk(t, v, p) && RowsOk(t, v, p.rows, p.tombstones)
    requires MembersOk(t, v, p.rows, p.membersCleared, p.membersAdded)
    requires StmtOk(v, stmt) && Runs(t, p, stmt)
    ensures var p' := PendingAfter(t, p, stmt, now);
            MembersOk(t, ViewAfter(v, stmt), p'.rows, p'.membersCleared, p'.membersAdded)
  {
    match stmt {
      case InsertRow(_, _, _) => WriteKeepsMembers(t, v, p, stmt, now);
      case UpdateRow(_, _, _, _) => WriteKeepsMembers(t, v, p, stmt, now);
      case DeleteRow(_, _, _) => DeleteKeepsMembers(t, v, p, stmt, now);
      case ClearMembers(c) => MembersAfterClear(t, v, p.rows, p.membersCleared, p.membersAdded, c);
      case AddMembers(c, refs) => MembersAfterAdd(t, v, p.rows, p.membersCleared, p.membersAdded, c, refs);
      case InsertMissing(batch, _) => IngestKeepsMembers(t, v, p, batch, now);
      case _ => QuietKeepsMembers(t, v, p, stmt, now);
    }
  }

  // Cascades, linked playlists and the recipient read.

  lemma CutAfterWrite(t: Tables, rows: Rows, rows': Rows, cut: map<Slot, nat>, cutSources: map<string, nat>)
    requires CutOk(t, rows, cut, cutSources)
    requires forall pl: nat :: Deletes(rows', pl) <==> Deletes(rows, pl)
    ensures CutOk(t, rows', cut, cutSources)
  {
  }

  lemma CutAfterDrop(t: Tables, rows: Rows, cut: map<Slot, nat>, cutSources: map<string, nat>, id: nat)
    requires CutOk(t, rows, cut, cutSources)
    ensures CutOk(t, rows[PlaylistKey(id) := None], cut + MembersOf(t, id), cutSources + SourcesOf(t, id))
  {
    var rows' := rows[PlaylistKey(id) := None];
    assert forall pl: nat :: Deletes(rows', pl) <==> pl == id || Deletes(rows, pl);
  }

  lemma DeleteKeepsCut(t: Tables, v: View, p: Pending, stmt: Stmt, now: nat)
    requires LocksOk(t, v, p) && RowsOk(t, v, p.rows, p.tombstones) && CutOk(t, p.rows, p.cut, p.cutSources)
    requires stmt.DeleteRow? && StmtOk(v, stmt)
    ensures var p' := PendingAfter(t, p, stmt, now);
            CutOk(t, p'.rows, p'.cut, p'.cutSources)
  {
    var k := stmt.key;
    if k.table == Playlists {
      assert k == PlaylistKey(k.id);
      CutAfterDrop(t, p.rows, p.cut, p.cutSources, k.id);
    } else {
      CutAfterWrite(t, p.rows, p.rows[k := None], p.cut, p.cutSources);
    }
  }

  lemma WriteKeepsCut(t: Tables, v: View, p: Pending, stmt: Stmt, now: nat)
    requires LocksOk(t, v, p) && RowsOk(t, v, p.rows, p.tombstones) && CutOk(t, p.rows, p.cut, p.cutSources)
    requires (stmt.InsertRow? || stmt.UpdateRow?) && StmtOk(v, stmt)
    ensures CutOk(t, PendingAfter(t, p, stmt, now).rows, p.cut, p.cutSources)
  {
    UntouchedIsNotPending(t, v, p, stmt.key);
    CutAfterWrite(t, p.rows, PendingAfter(t, p, stmt, now).rows, p.cut, p.cutSources);
  }

  lemma IngestKeepsCut(t: Tables, v: View, p: Pending, stmt: Stmt, now: nat)
    requires LocksOk(t, v, p) && RowsOk(t, v, p.rows, p.tombstones) && CutOk(t, p.rows, p.cut, p.cutSources)
    requires stmt.InsertMissing? && StmtOk(v, stmt)
    ensures CutOk(t, PendingAfter(t, p, stmt, now).rows, p.cut, p.cutSources)
  {
    forall id | id in stmt.batch
      ensures PlaylistKey(id) !in p.rows
    {
      UntouchedIsNotPending(t, v, p, PlaylistKey(id));
    }
    CutAfterWrite(t, p.rows, PendingAfter(t, p, stmt, now).rows, p.cut, p.cutSources);
  }

  lemma CutKept(t: Tables, v: View, p: Pending, stmt: Stmt, now: nat)
    requires LocksOk(t, v, p) && RowsOk(t, v, p.rows, p.tombstones) && CutOk(t, p.rows, p.cut, p.cutSources)
    requires StmtOk(v, stmt)
    ensures var p' := PendingAfter(t, p, stmt, now);
            CutOk(t, p'.rows, p'.cut, p'.cutSources)
  {
    match stmt {
      case DeleteRow(_, _, _) => DeleteKeepsCut(t, v, p, stmt, now);
      case InsertRow(_, _, _) => WriteKeepsCut(t, v, p, stmt, now);
      case UpdateRow(_, _, _, _) => WriteKeepsCut(t, v, p, stmt, now);
      case InsertMissing(_, _) => IngestKeepsCut(t, v, p, stmt, now);
      case _ =>
    }
  }

  /** After an ingest every id of the batch is visible, and so is everything that was. */
  lemma IngestShows(t: Tables, p: Pending, batch: map<nat, Ingested>, held: set<nat>, now: nat, id: nat)
    requires id in batch || VisibleRow(t, p, PlaylistKey(id)).Some?
    ensures VisibleRow(t, PendingAfter(t, p, InsertMissing(batch, held), now), PlaylistKey(id)).Some?
  {
    assert PlaylistKey(id) in MissingRows(t, p, batch, now) <==> id in MissingFrom(t, p, batch);
  }

  lemma IngestKeepsEnsured(t: Tables, v: View, p: Pending, batch: map<nat, Ingested>, held: set<nat>, now: nat)
    requires LocksOk(t, v, p) && EnsuredOk(t, v, p) && StmtOk(v, InsertMissing(batch, held))
    ensures EnsuredOk(t, v.(ensured := v.ensured + batch.Keys), PendingAfter(t, p, InsertMissing(batch, held), now))
  {
    var p' := PendingAfter(t, p, InsertMissing(batch, held), now);
    forall id | id in v.ensured + batch.Keys
      ensures PlaylistKey(id) in v.locks && VisibleRow(t, p', PlaylistKey(id)).Some?
    {
      IngestShows(t, p, batch, held, now, id);
    }
  }

  lemma OtherRowsStay(t: Tables, p: Pending, stmt: Stmt, now: nat, k: DocKey)
    requires (stmt.InsertRow? || stmt.UpdateRow? || stmt.DeleteRow?) && stmt.key != k
    ensures VisibleRow(t, PendingAfter(t, p, stmt, now), k) == VisibleRow(t, p, k)
  {
  }

  lemma WriteKeepsEnsured(t: Tables, v: View, p: Pending, stmt: Stmt, now: nat)
    requires EnsuredOk(t, v, p) && (stmt.InsertRow? || stmt.UpdateRow? || stmt.DeleteRow?) && Untouched(v, stmt.key)
    ensures var v', p' := ViewAfter(v, stmt), PendingAfter(t, p, stmt, now);
            EnsuredOk(t, v', p')
  {
    var v', p' := ViewAfter(v, stmt), PendingAfter(t, p, stmt, now);
    assert v'.ensured == v.ensured && v'.locks == v.locks && v'.sources == v.sources && p'.sources == p.sources;
    forall id | id in v.ensured
      ensures VisibleRow(t, p', PlaylistKey(id)).Some?
    {
      OtherRowsStay(t, p, stmt, now, PlaylistKey(id));
    }
  }

  lemma EnsuredKept(t: Tables, v: View, p: Pending, stmt: Stmt, now: nat)
    requires LocksOk(t, v, p) && EnsuredOk(t, v, p) && StmtOk(v, stmt)
    ensures EnsuredOk(t, ViewAfter(v, stmt), PendingAfter(t, p, stmt, now))
  {
    match stmt {
      case InsertMissing(batch, held) => IngestKeepsEnsured(t, v, p, batch, held, now);
      case InsertRow(_, _, _) => WriteKeepsEnsured(t, v, p, stmt, now);
      case UpdateRow(_, _, _, _) => WriteKeepsEnsured(t, v, p, stmt, now);
      case DeleteRow(_, _, _) => WriteKeepsEnsured(t, v, p, stmt, now);
      case _ =>
    }
  }

  lemma ReadKept(t: Tables, v: View, read: Read, stmt: Stmt)
    requires ReadOk(t, v, read) && StmtOk(v, stmt)
    requires stmt.AwaitRead? ==> read.Taken?
    ensures ReadOk(t, ViewAfter(v, stmt), ReadAfter(read, stmt))
  {
  }

  // ---------------------------------------------------------------------------------------
  // The transaction as a whole
  // ---------------------------------------------------------------------------------------

  /** All of the invariant but the recipient read, which a timeout treats differently. */
  lemma WorkKept(t: Tables, x: Tx)
    requires x.todo != [] && TxOk(t, x) && StmtOk(x.view, x.todo[0]) && Runs(t, x.pending, x.todo[0])
    ensures TxOk(t, Advance(t, x).(read := NoRead))
  {
    var v, p, stmt := x.view, x.pending, x.todo[0];
    SeenKept(t, v, p, stmt);
    LocksKept(t, v, p, stmt, x.now);
    RowsKept(t, v, p, stmt, x.now);
    ItemsKept(t, v, p, stmt, x.now);
    MembersKept(t, v, p, stmt, x.now);
    CutKept(t, v, p, stmt, x.now);
    EnsuredKept(t, v, p, stmt, x.now);
  }

  lemma TxKept(t: Tables, x: Tx)
    requires x.todo != [] && TxOk(t, x) && StmtOk(x.view, x.todo[0]) && Runs(t, x.pending, x.todo[0])
    requires x.todo[0].AwaitRead? ==> x.read.Taken?
    ensures TxOk(t, Advance(t, x))
  {
    WorkKept(t, x);
    ReadKept(t, x.view, x.read, x.todo[0]);
  }

  lemma DisciplinedTail(v: View, todo: seq<Stmt>)
    requires Disciplined(v, todo) && todo != []
    ensures StmtOk(v, todo[0]) && Disciplined(ViewAfter(v, todo[0]), todo[1..])
  {
  }

  // Authority.

  lemma WritesStayJustified(w: World, v: View, v': View, p: Pending, p': Pending)
    requires WritesJustified(w, v, p) && p'.rows == p.rows
    requires v'.updates == v.updates && v'.deletes == v.deletes
    requires forall k :: k in v.seen ==> k in v'.seen && v'.seen[k] == v.seen[k]
    ensures WritesJustified(w, v', p')
  {
    forall k | k in p'.rows
      ensures WriteJustified(w, v', p', k)
    {
      assert WriteJustified(w, v, p, k);
    }
  }

  lemma IngestJustified(w: World, t: Tables, v: View, p: Pending, batch: map<nat, Ingested>, held: set<nat>, now: nat)
    requires LocksOk(t, v, p) && RowsOk(t, v, p.rows, p.tombstones) && WritesJustified(w, v, p)
    requires StmtOk(v, InsertMissing(batch, held)) && Authorized(w, InsertMissing(batch, held))
    ensures WritesJustified(w, v, PendingAfter(t, p, InsertMissing(batch, held), now))
  {
    var p' := PendingAfter(t, p, InsertMissing(batch, held), now);
    forall k | k in p'.rows
      ensures WriteJustified(w, v, p', k)
    {
      if k in MissingRows(t, p, batch, now) {
        assert k == PlaylistKey(k.id);
        UntouchedIsNotPending(t, v, p, k);
        assert k.id !in held;
      } else {
        assert WriteJustified(w, v, p, k);
      }
    }
  }

  lemma OneMoreJustified(w: World, v: View, v': View, p: Pending, p': Pending, k: DocKey)
    requires WritesJustified(w, v, p) && k !in p.rows
    requires k in p'.rows && p'.rows == p.rows[k := p'.rows[k]] && WriteJustified(w, v', p', k)
    requires v'.seen == v.seen
    requires forall h: DocKey :: h != k ==>
               (h in v'.updates <==> h in v.updates) && (h in v.updates ==> v'.updates[h] == v.updates[h])
    requires forall h: DocKey :: h != k && h in v.deletes ==> h in v'.deletes && v'.deletes[h] == v.deletes[h]
    ensures WritesJustified(w, v', p')
  {
    forall h | h in p'.rows
      ensures WriteJustified(w, v', p', h)
    {
      if h != k {
        assert WriteJustified(w, v, p, h);
      }
    }
  }

  lemma InsertJustified(w: World, t: Tables, v: View, p: Pending, k: DocKey, slug: string, body: Document, now: nat)
    requires WritesJustified(w, v, p) && k !in p.rows && k !in v.updates && Admissible(w, k, slug, body)
    ensures var stmt := InsertRow(k, slug, body);
            WritesJustified(w, ViewAfter(v, stmt), PendingAfter(t, p, stmt, now))
  {
    var stmt := InsertRow(k, slug, body);
    OneMoreJustified(w, v, ViewAfter(v, stmt), p, PendingAfter(t, p, stmt, now), k);
  }

  lemma UpdateJustified(w: World, t: Tables, v: View, p: Pending, stmt: Stmt, now: nat)
    requires WritesJustified(w, v, p) && stmt.UpdateRow? && stmt.key !in p.rows && VisibleRow(t, p, stmt.key).Some?
    requires stmt.key in v.seen && ReplaceJustified(w, stmt.key, v.seen[stmt.key], stmt.body, stmt.why)
    ensures WritesJustified(w, ViewAfter(v, stmt), PendingAfter(t, p, stmt, now))
  {
    var k, v', p' := stmt.key, ViewAfter(v, stmt), PendingAfter(t, p, stmt, now);
    OneMoreJustified(w, v, v', p, p', k);
  }

  lemma DeleteIsJustified(w: World, t: Tables, v: View, p: Pending, stmt: Stmt, now: nat)
    requires WritesJustified(w, v, p) && stmt.DeleteRow? && stmt.key !in p.rows
    requires stmt.key in v.seen && DeleteJustified(w, stmt.key, v.seen[stmt.key], stmt.because)
    ensures WritesJustified(w, ViewAfter(v, stmt), PendingAfter(t, p, stmt, now))
  {
    var k, v', p' := stmt.key, ViewAfter(v, stmt), PendingAfter(t, p, stmt, now);
    DeletePendsNone(t, p, stmt, now);
    OneMoreJustified(w, v, v', p, p', k);
  }

  /** A statement that writes no row leaves pending rows, their grounds and the rows read as they were. */
  lemma QuietChangesNothing(t: Tables, v: View, p: Pending, stmt: Stmt, now: nat)
    requires StmtOk(v, stmt) && (!WritesRows(stmt) || stmt.WriteTombstone?)
    ensures PendingAfter(t, p, stmt, now).rows == p.rows
    ensures ViewAfter(v, stmt).updates == v.updates && ViewAfter(v, stmt).deletes == v.deletes
    ensures forall k :: k in v.seen ==> k in ViewAfter(v, stmt).seen && ViewAfter(v, stmt).seen[k] == v.seen[k]
  {
  }

  lemma QuietJustified(w: World, t: Tables, v: View, p: Pending, stmt: Stmt, now: nat)
    requires WritesJustified(w, v, p) && StmtOk(v, stmt)
    requires !WritesRows(stmt) || stmt.WriteTombstone?
    ensures WritesJustified(w, ViewAfter(v, stmt), PendingAfter(t, p, stmt, now))
  {
    QuietChangesNothing(t, v, p, stmt, now);
    WritesStayJustified(w, v, ViewAfter(v, stmt), p, PendingAfter(t, p, stmt, now));
  }

  lemma RowWriteJustified(w: World, t: Tables, v: View, p: Pending, stmt: Stmt, now: nat)
    requires LocksOk(t, v, p) && RowsOk(t, v, p.rows, p.tombstones) && WritesJustified(w, v, p)
    requires stmt.InsertRow? || stmt.UpdateRow? || stmt.DeleteRow?
    requires StmtOk(v, stmt) && Runs(t, p, stmt) && Authorized(w, stmt)
    ensures WritesJustified(w, ViewAfter(v, stmt), PendingAfter(t, p, stmt, now))
  {
    UntouchedIsNotPending(t, v, p, stmt.key);
    match stmt {
      case InsertRow(k, slug, body) => InsertJustified(w, t, v, p, k, slug, body, now);
      case UpdateRow(_, _, _, _) => UpdateJustified(w, t, v, p, stmt, now);
      case DeleteRow(_, _, _) => DeleteIsJustified(w, t, v, p, stmt, now);
    }
  }

  lemma BatchJustified(w: World, t: Tables, v: View, p: Pending, stmt: Stmt, now: nat)
    requires LocksOk(t, v, p) && RowsOk(t, v, p.rows, p.tombstones) && WritesJustified(w, v, p)
    requires stmt.InsertMissing? && StmtOk(v, stmt) && Authorized(w, stmt)
    ensures WritesJustified(w, ViewAfter(v, stmt), PendingAfter(t, p, stmt, now))
  {
    IngestJustified(w, t, v, p, stmt.batch, stmt.held, now);
    WritesStayJustified(w, v, ViewAfter(v, stmt), PendingAfter(t, p, stmt, now), PendingAfter(t, p, stmt, now));
  }

  lemma JustifiedKept(w: World, t: Tables, v: View, p: Pending, stmt: Stmt, now: nat)
    requires LocksOk(t, v, p) && RowsOk(t, v, p.rows, p.tombstones) && WritesJustified(w, v, p)
    requires StmtOk(v, stmt) && Runs(t, p, stmt) && Authorized(w, stmt)
    ensures WritesJustified(w, ViewAfter(v, stmt), PendingAfter(t, p, stmt, now))
  {
    if stmt.InsertRow? || stmt.UpdateRow? || stmt.DeleteRow? {
      RowWriteJustified(w, t, v, p, stmt, now);
    } else if stmt.InsertMissing? {
      BatchJustified(w, t, v, p, stmt, now);
    } else {
      QuietJustified(w, t, v, p, stmt, now);
    }
  }
}
