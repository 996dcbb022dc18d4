/** No two documents of a kind ever share a slug, committed or pending, and no playlist is indexed with two
    items of one id. */
module StoreSlugs {
  import opened Documents
  import opened CoSigning
  import opened Authorization
  import opened OwnershipLaws
  import opened Batches
  import opened StoreModel
  import opened StoreDiscipline
  import opened StoreInvariant
  import opened StoreStatements
  import opened StoreCommits
  import opened StoreHistory
  import opened StoreRuns

  // ---------------------------------------------------------------------------------------
  // Claims
  // ---------------------------------------------------------------------------------------

  predicate PendsSlug(rows: Rows, k: DocKey, slug: string) {
    k in rows && rows[k].Some? && rows[k].value.slug == slug
  }

  /** Key k has the slug, in the tables or in an open transaction. */
  ghost predicate Claims(s: Store, k: DocKey, slug: string) {
    || (k in s.tables.rows && s.tables.rows[k].slug == slug)
    || exists i :: i in s.txs && PendsSlug(s.txs[i].pending.rows, k, slug)
  }

  ghost predicate SlugsUnique(s: Store) {
    forall k: DocKey, h: DocKey, slug :: k.table == h.table && Claims(s, k, slug) && Claims(s, h, slug) ==> k == h
  }

  lemma FreeIsUnclaimed(s: Store, k: DocKey, slug: string)
    requires SlugFree(s, k.table, slug)
    ensures !Claims(s, k, slug)
  {
    forall i | i in s.txs
      ensures !PendsSlug(s.txs[i].pending.rows, k, slug)
    {
      assert !HoldsSlug(s.txs[i].pending.rows, k.table, slug);
    }
  }

  lemma FewerClaims(s: Store, s': Store)
    requires SlugsUnique(s)
    requires forall k, slug :: Claims(s', k, slug) ==> Claims(s, k, slug)
    ensures SlugsUnique(s')
  {
  }

  // ---------------------------------------------------------------------------------------
  // Statements
  // ---------------------------------------------------------------------------------------

  /** A slug that a statement's pending rows claim was claimed for the same key before, or was free and is
      claimed for no other key by them. */
  ghost predicate Claimable(s: Store, rows: Rows, k: DocKey, slug: string) {
    || Claims(s, k, slug)
    || (SlugFree(s, k.table, slug) && forall h :: PendsSlug(rows, h, slug) && h.table == k.table ==> h == k)
  }

  ghost predicate AllClaimable(s: Store, rows: Rows) {
    forall k, slug :: PendsSlug(rows, k, slug) ==> Claimable(s, rows, k, slug)
  }

  lemma PutClaims(s: Store, s': Store, i: nat, y: Tx, k: DocKey, slug: string)
    requires s' == s.(txs := s.txs[i := y]) && Claims(s', k, slug)
    ensures Claims(s, k, slug) || PendsSlug(y.pending.rows, k, slug)
  {
    if !(k in s.tables.rows && s.tables.rows[k].slug == slug) {
      var j :| j in s'.txs && PendsSlug(s'.txs[j].pending.rows, k, slug);
      assert j != i ==> s'.txs[j] == s.txs[j];
    }
  }

  lemma PutKeepsSlugs(s: Store, s': Store, i: nat, y: Tx)
    requires SlugsUnique(s) && s' == s.(txs := s.txs[i := y]) && AllClaimable(s, y.pending.rows)
    ensures SlugsUnique(s')
  {
    forall k: DocKey, h: DocKey, slug | k.table == h.table && Claims(s', k, slug) && Claims(s', h, slug)
      ensures k == h
    {
      PutClaims(s, s', i, y, k, slug);
      PutClaims(s, s', i, y, h, slug);
      if !Claims(s, k, slug) {
        ClaimedOnce(s, y.pending.rows, k, h, slug);
      } else if !Claims(s, h, slug) {
        ClaimedOnce(s, y.pending.rows, h, k, slug);
      }
    }
  }

  lemma ClaimedOnce(s: Store, rows: Rows, k: DocKey, h: DocKey, slug: string)
    requires PendsSlug(rows, k, slug) && Claimable(s, rows, k, slug) && !Claims(s, k, slug)
    requires h.table == k.table && (Claims(s, h, slug) || PendsSlug(rows, h, slug))
    ensures h == k
  {
    FreeIsUnclaimed(s, h, slug);
  }

  lemma OwnSlugsClaimed(s: Store, i: nat)
    requires i in s.txs
    ensures forall k, slug :: PendsSlug(s.txs[i].pending.rows, k, slug) ==> Claims(s, k, slug)
  {
  }

  lemma InsertClaims(s: Store, i: nat, k: DocKey, row: Row)
    requires i in s.txs && SlugFree(s, k.table, row.slug)
    ensures AllClaimable(s, s.txs[i].pending.rows[k := Some(row)])
  {
    OwnSlugsClaimed(s, i);
    var rows' := s.txs[i].pending.rows[k := Some(row)];
    forall h, slug | PendsSlug(rows', h, slug)
      ensures Claimable(s, rows', h, slug)
    {
      if h == k {
        forall g | PendsSlug(rows', g, slug) && g.table == k.table
          ensures g == k
        {
          FreeIsUnclaimed(s, g, slug);
        }
      } else {
        assert PendsSlug(s.txs[i].pending.rows, h, slug);
      }
    }
  }

  lemma UpdateClaims(s: Store, i: nat, k: DocKey, row: Row)
    requires i in s.txs && k in s.tables.rows && s.tables.rows[k].slug == row.slug
    ensures AllClaimable(s, s.txs[i].pending.rows[k := Some(row)])
  {
    OwnSlugsClaimed(s, i);
    var rows' := s.txs[i].pending.rows[k := Some(row)];
    forall h, slug | PendsSlug(rows', h, slug)
      ensures Claimable(s, rows', h, slug)
    {
      assert h != k ==> PendsSlug(s.txs[i].pending.rows, h, slug);
    }
  }

  lemma DropClaims(s: Store, i: nat, k: DocKey)
    requires i in s.txs
    ensures AllClaimable(s, s.txs[i].pending.rows[k := None])
  {
    OwnSlugsClaimed(s, i);
    var rows' := s.txs[i].pending.rows[k := None];
    forall h, slug | PendsSlug(rows', h, slug)
      ensures Claimable(s, rows', h, slug)
    {
      assert PendsSlug(s.txs[i].pending.rows, h, slug);
    }
  }

  /** Each new row of a batch takes a free slug, and no two take the same. */
  lemma BatchClaims(s: Store, i: nat, batch: map<nat, Ingested>, now: nat)
    requires i in s.txs
    requires var t, p := s.tables, s.txs[i].pending;
             && (forall id :: id in MissingFrom(t, p, batch) ==> SlugFree(s, Playlists, batch[id].slug))
             && (forall a, b :: a in MissingFrom(t, p, batch) && b in MissingFrom(t, p, batch) && a != b
                   ==> batch[a].slug != batch[b].slug)
    ensures var t, p := s.tables, s.txs[i].pending;
            AllClaimable(s, p.rows + MissingRows(t, p, batch, now))
  {
    var t, p := s.tables, s.txs[i].pending;
    var added := MissingRows(t, p, batch, now);
    OwnSlugsClaimed(s, i);
    forall k, slug | PendsSlug(p.rows + added, k, slug)
      ensures Claimable(s, p.rows + added, k, slug)
    {
      if k in added {
        forall h | PendsSlug(p.rows + added, h, slug) && h.table == k.table
          ensures h == k
        {
          NewSlugOnce(s, i, batch, now, k, h, slug);
        }
      } else {
        assert PendsSlug(p.rows, k, slug);
      }
    }
  }

  lemma NewSlugOnce(s: Store, i: nat, batch: map<nat, Ingested>, now: nat, k: DocKey, h: DocKey, slug: string)
    requires i in s.txs
    requires var t, p := s.tables, s.txs[i].pending;
             && (forall id :: id in MissingFrom(t, p, batch) ==> SlugFree(s, Playlists, batch[id].slug))
             && (forall a, b :: a in MissingFrom(t, p, batch) && b in MissingFrom(t, p, batch) && a != b
                   ==> batch[a].slug != batch[b].slug)
             && k in MissingRows(t, p, batch, now)
             && MissingRows(t, p, batch, now)[k].value.slug == slug && k.table == h.table
             && PendsSlug(p.rows + MissingRows(t, p, batch, now), h, slug)
    ensures h == k
  {
    var t, p := s.tables, s.txs[i].pending;
    if h !in MissingRows(t, p, batch, now) {
      OwnSlugsClaimed(s, i);
      assert PendsSlug(p.rows, h, slug);
      FreeIsUnclaimed(s, h, slug);
    }
  }

  /** The row an accepted replace stores has the slug of the row it replaces. */
  lemma UpdatedSlugStays(w: World, t: Tables, k: DocKey, body: Document, why: ReplaceRequest, now: nat)
    requires k in t.rows && ReplaceJustified(w, k, t.rows[k], body, why)
    ensures UpdatedRow(t.rows[k], body, now).slug == t.rows[k].slug
  {
    ReplacedKeepsSlug(w, k, t.rows[k], UpdatedRow(t.rows[k], body, now), why);
  }

  lemma UpdateStmtClaims(w: World, s: Store, i: nat)
    requires i in s.txs && TxOk(s.tables, s.txs[i]) && s.txs[i].todo != [] && s.txs[i].todo[0].UpdateRow?
    requires StmtOk(s.txs[i].view, s.txs[i].todo[0]) && Runs(s.tables, s.txs[i].pending, s.txs[i].todo[0])
    requires Authorized(w, s.txs[i].todo[0])
    ensures AllClaimable(s, Advance(s.tables, s.txs[i]).pending.rows)
  {
    var t, x, stmt := s.tables, s.txs[i], s.txs[i].todo[0];
    UpdateMeetsRow(t, x.view, x.pending, stmt);
    UpdatedSlugStays(w, t, stmt.key, stmt.body, stmt.why, x.now);
    UpdateClaims(s, i, stmt.key, UpdatedRow(t.rows[stmt.key], stmt.body, x.now));
  }

  lemma StmtClaims(w: World, s: Store, i: nat)
    requires i in s.txs && TxOk(s.tables, s.txs[i]) && s.txs[i].todo != [] && Enabled(s, i)
    requires StmtOk(s.txs[i].view, s.txs[i].todo[0]) && Authorized(w, s.txs[i].todo[0])
    ensures AllClaimable(s, Advance(s.tables, s.txs[i]).pending.rows)
  {
    var t, x := s.tables, s.txs[i];
    match x.todo[0] {
      case InsertRow(k, slug, body) => InsertClaims(s, i, k, Row(slug, body, x.now, x.now));
      case UpdateRow(_, _, _, _) =>
        EnabledRuns(s, i);
        UpdateStmtClaims(w, s, i);
      case DeleteRow(k, _, _) =>
        DeletePendsNone(t, x.pending, x.todo[0], x.now);
        DropClaims(s, i, k);
      case InsertMissing(batch, _) => BatchClaims(s, i, batch, x.now);
      case _ =>
        OwnSlugsClaimed(s, i);
        assert Advance(t, x).pending.rows == x.pending.rows;
    }
  }

  // ---------------------------------------------------------------------------------------
  // Steps
  // ---------------------------------------------------------------------------------------

  lemma CommitClaims(s: Store, s': Store, i: nat, k: DocKey, slug: string)
    requires CommitStep(s, s', i) && Claims(s', k, slug)
    ensures Claims(s, k, slug)
  {
    if k in s'.tables.rows && s'.tables.rows[k].slug == slug {
      assert k in s.txs[i].pending.rows ==> PendsSlug(s.txs[i].pending.rows, k, slug);
    } else {
      var j :| j in s'.txs && PendsSlug(s'.txs[j].pending.rows, k, slug);
      assert s'.txs[j] == s.txs[j];
    }
  }

  lemma RollbackClaims(s: Store, s': Store, i: nat, k: DocKey, slug: string)
    requires RollbackStep(s, s', i) && Claims(s', k, slug)
    ensures Claims(s, k, slug)
  {
    if !(k in s'.tables.rows && s'.tables.rows[k].slug == slug) {
      var j :| j in s'.txs && PendsSlug(s'.txs[j].pending.rows, k, slug);
      assert s'.txs[j] == s.txs[j];
    }
  }

  /** No playlist gets two items of one id. */
  predicate ItemsDistinct(p: Pending) {
    forall pl :: pl in p.itemsAdded ==> DistinctItemIds(p.itemsAdded[pl])
  }

  lemma StmtKeepsDistinct(s: Store, i: nat)
    requires i in s.txs && s.txs[i].todo != [] && Enabled(s, i) && ItemsDistinct(s.txs[i].pending)
    ensures ItemsDistinct(Advance(s.tables, s.txs[i]).pending)
  {
  }

  ghost predicate Tidy(s: Store) {
    SlugsUnique(s) && forall i :: i in s.txs ==> ItemsDistinct(s.txs[i].pending)
  }

  lemma PutKeepsTidy(s: Store, s': Store, i: nat, y: Tx)
    requires Tidy(s) && s' == s.(txs := s.txs[i := y]) && AllClaimable(s, y.pending.rows) && ItemsDistinct(y.pending)
    ensures Tidy(s')
  {
    PutKeepsSlugs(s, s', i, y);
  }

  lemma StmtKeepsTidy(w: World, s: Store, s': Store, i: nat)
    requires StoreOk(s) && StoreJustified(w, s) && Tidy(s) && StmtStep(s, s', i)
    ensures Tidy(s')
  {
    DisciplinedTail(s.txs[i].view, s.txs[i].todo);
    assert Authorized(w, s.txs[i].todo[0]);
    StmtClaims(w, s, i);
    StmtKeepsDistinct(s, i);
    PutKeepsTidy(s, s', i, Advance(s.tables, s.txs[i]));
  }

  /** A step that leaves a transaction's pending writes alone. */
  lemma QuietKeepsTidy(s: Store, s': Store, i: nat, y: Tx)
    requires Tidy(s) && i in s.txs && s' == s.(txs := s.txs[i := y]) && y.pending == s.txs[i].pending
    ensures Tidy(s')
  {
    OwnSlugsClaimed(s, i);
    PutKeepsTidy(s, s', i, y);
  }

  lemma TimeoutKeepsTidy(s: Store, s': Store, i: nat)
    requires Tidy(s) && TimeoutStep(s, s', i)
    ensures Tidy(s')
  {
    QuietKeepsTidy(s, s', i, Advance(s.tables, s.txs[i]).(read := Abandoned));
  }

  lemma CommitKeepsTidy(s: Store, s': Store, i: nat)
    requires Tidy(s) && CommitStep(s, s', i)
    ensures Tidy(s')
  {
    forall k, slug | Claims(s', k, slug)
      ensures Claims(s, k, slug)
    {
      CommitClaims(s, s', i, k, slug);
    }
    FewerClaims(s, s');
    assert forall j :: j in s'.txs ==> j in s.txs && s'.txs[j] == s.txs[j];
  }

  lemma RollbackKeepsTidy(s: Store, s': Store, i: nat)
    requires Tidy(s) && RollbackStep(s, s', i)
    ensures Tidy(s')
  {
    forall k, slug | Claims(s', k, slug)
      ensures Claims(s, k, slug)
    {
      RollbackClaims(s, s', i, k, slug);
    }
    FewerClaims(s, s');
    assert forall j :: j in s'.txs ==> j in s.txs && s'.txs[j] == s.txs[j];
  }

  lemma BeginKeepsTidy(w: World, s: Store, s': Store, i: nat, op: Op, now: nat)
    requires Tidy(s) && BeginStep(w, s, s', i, op, now)
    ensures Tidy(s')
  {
    PutKeepsTidy(s, s', i, Tx(op, Program(w, op), EMPTY_VIEW, NOTHING_PENDING, now, NoRead));
  }

  lemma StepKeepsTidy(w: World, s: Store, s': Store)
    requires StoreOk(s) && StoreJustified(w, s) && Tidy(s) && Step(w, s, s')
    ensures Tidy(s')
  {
    if i, op, now :| BeginStep(w, s, s', i, op, now) {
      BeginKeepsTidy(w, s, s', i, op, now);
    } else if i :| StmtStep(s, s', i) {
      StmtKeepsTidy(w, s, s', i);
    } else if i, rows :| SnapshotStep(s, s', i, rows) {
      QuietKeepsTidy(s, s', i, s.txs[i].(read := Taken(s.txs[i].read.playlist, rows)));
    } else if i :| TimeoutStep(s, s', i) {
      TimeoutKeepsTidy(s, s', i);
    } else if i :| CommitStep(s, s', i) {
      CommitKeepsTidy(s, s', i);
    } else {
      var i :| RollbackStep(s, s', i);
      RollbackKeepsTidy(s, s', i);
    }
  }

  lemma RunStepKeepsTidy(w: World, run: seq<Store>, n: nat)
    requires Reached(w, run, n + 1) && Tidy(run[n])
    ensures Tidy(run[n + 1])
  {
    ReachedOk(w, run, n);
    RunSteps(w, run, n);
    StepKeepsTidy(w, run[n], run[n + 1]);
  }

  lemma {:induction false} ReachedTidy(w: World, run: seq<Store>, n: nat)
    requires Reached(w, run, n)
    ensures Tidy(run[n])
  {
    if n > 0 {
      ReachedTidy(w, run, n - 1);
      RunStepKeepsTidy(w, run, n - 1);
    }
  }

  /** In every reachable state a slug belongs to at most one document of its kind, although transactions
      check it before others have committed. */
  lemma SlugNamesOneDocument(w: World, run: seq<Store>, n: nat, k: DocKey, h: DocKey)
    requires Reached(w, run, n) && k in run[n].tables.rows && h in run[n].tables.rows && k.table == h.table
    requires run[n].tables.rows[k].slug == run[n].tables.rows[h].slug
    ensures k == h
  {
    ReachedTidy(w, run, n);
    assert Claims(run[n], k, run[n].tables.rows[k].slug) && Claims(run[n], h, run[n].tables.rows[h].slug);
  }

  // ---------------------------------------------------------------------------------------
  // Item ids
  // ---------------------------------------------------------------------------------------

  ghost predicate BodiesDistinct(t: Tables) {
    forall k :: k in t.rows && k.table == Playlists ==> DistinctItemIds(t.rows[k].body.payload.items)
  }

  lemma WrittenBodyDistinct(t: Tables, x: Tx, k: DocKey)
    requires Finished(t, x) && ItemsDistinct(x.pending) && k.table == Playlists
    requires k in x.pending.rows && x.pending.rows[k].Some?
    ensures DistinctItemIds(x.pending.rows[k].value.body.payload.items)
  {
    assert k == PlaylistKey(k.id);
    assert ItemsStand(t, x.view.itemsDue, x.pending.rows, x.pending.itemsCleared, x.pending.itemsAdded, k.id);
  }

  lemma CommitKeepsBodies(t: Tables, x: Tx)
    requires Finished(t, x) && ItemsDistinct(x.pending) && BodiesDistinct(t)
    ensures BodiesDistinct(Commit(t, x.pending))
  {
    var t' := Commit(t, x.pending);
    forall k | k in t'.rows && k.table == Playlists
      ensures DistinctItemIds(t'.rows[k].body.payload.items)
    {
      if k in x.pending.rows {
        WrittenBodyDistinct(t, x, k);
      }
    }
  }

  lemma StepKeepsBodies(w: World, s: Store, s': Store)
    requires StoreOk(s) && Tidy(s) && BodiesDistinct(s.tables) && Step(w, s, s')
    ensures BodiesDistinct(s'.tables)
  {
    OnlyCommitsWrite(w, s, s');
    if s'.tables != s.tables {
      var i :| CommitStep(s, s', i);
      CommitKeepsBodies(s.tables, s.txs[i]);
    }
  }

  lemma RunStepKeepsBodies(w: World, run: seq<Store>, n: nat)
    requires Reached(w, run, n + 1) && BodiesDistinct(run[n].tables)
    ensures BodiesDistinct(run[n + 1].tables)
  {
    ReachedOk(w, run, n);
    ReachedTidy(w, run, n);
    RunSteps(w, run, n);
    StepKeepsBodies(w, run[n], run[n + 1]);
  }

  lemma {:induction false} ReachedBodies(w: World, run: seq<Store>, n: nat)
    requires Reached(w, run, n)
    ensures BodiesDistinct(run[n].tables)
  {
    if n > 0 {
      ReachedBodies(w, run, n - 1);
      RunStepKeepsBodies(w, run, n - 1);
    }
  }

  /** In every reachable state no playlist is indexed with two items of one id. */
  lemma ItemIdsAreDistinct(w: World, run: seq<Store>, n: nat, playlist: nat, i: nat, j: nat)
    requires Reached(w, run, n) && i != j
    requires ItemSlot(playlist, i) in run[n].tables.items && ItemSlot(playlist, j) in run[n].tables.items
    ensures run[n].tables.items[ItemSlot(playlist, i)].id != run[n].tables.items[ItemSlot(playlist, j)].id
  {
    var t := run[n].tables;
    ReachedBodies(w, run, n);
    ReachedOk(w, run, n);
    assert ExpectedItem(t, ItemSlot(playlist, i)) == Some(t.items[ItemSlot(playlist, i)]);
    assert ExpectedItem(t, ItemSlot(playlist, j)) == Some(t.items[ItemSlot(playlist, j)]);
  }
}
