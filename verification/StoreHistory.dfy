/** Runs of the store: every reachable state is sound, and what the successive committed states of one
    document have to do with each other. */
module StoreHistory {
  import opened Documents
  import opened CoSigning
  import opened Authorization
  import opened OwnershipLaws
  import opened Batches
  import opened StoreModel
  import opened StoreDiscipline
  import opened StoreInvariant
  import opened StoreStatements
  import opened StoreCommits

  // ---------------------------------------------------------------------------------------
  // Every step keeps the invariant
  // ---------------------------------------------------------------------------------------

  lemma PutKeepsExclusive(s: Store, s': Store, i: nat, y: Tx)
    requires Exclusive(s) && s' == s.(txs := s.txs[i := y])
    requires forall j :: j in s.txs && j != i ==> Apart(y, s.txs[j])
    ensures Exclusive(s')
  {
    forall a, b | a in s'.txs && b in s'.txs && a != b
      ensures Apart(s'.txs[a], s'.txs[b])
    {
      if a == i {
        assert Apart(y, s.txs[b]);
      } else if b == i {
        assert Apart(y, s.txs[a]);
      }
    }
  }

  lemma PutKeepsTxs(t: Tables, txs: map<nat, Tx>, i: nat, y: Tx, j: nat)
    requires forall h :: h in txs ==> TxOk(t, txs[h]) && Disciplined(txs[h].view, txs[h].todo)
    requires TxOk(t, y) && Disciplined(y.view, y.todo) && j in txs[i := y]
    ensures TxOk(t, txs[i := y][j]) && Disciplined(txs[i := y][j].view, txs[i := y][j].todo)
  {
    if j == i {
      assert txs[i := y][j] == y;
    } else {
      assert txs[i := y][j] == txs[j];
    }
  }

  lemma PutKeepsStore(s: Store, s': Store, i: nat, y: Tx)
    requires StoreOk(s) && s' == s.(txs := s.txs[i := y])
    requires TxOk(s.tables, y) && Disciplined(y.view, y.todo)
    requires forall j :: j in s.txs && j != i ==> Apart(y, s.txs[j])
    ensures StoreOk(s')
  {
    PutKeepsExclusive(s, s', i, y);
    forall j | j in s'.txs
      ensures TxOk(s'.tables, s'.txs[j]) && Disciplined(s'.txs[j].view, s'.txs[j].todo)
    {
      PutKeepsTxs(s.tables, s.txs, i, y, j);
    }
  }

  lemma PutKeepsJustified(w: World, s: Store, s': Store, i: nat, y: Tx)
    requires StoreJustified(w, s) && s' == s.(txs := s.txs[i := y])
    requires WritesJustified(w, y.view, y.pending) && AllAuthorized(w, y.todo)
    ensures StoreJustified(w, s')
  {
  }

  lemma OthersApart(s: Store, i: nat, j: nat)
    requires Exclusive(s) && i in s.txs && j in s.txs && i != j
    ensures Apart(s.txs[i], s.txs[j])
  {
  }

  lemma AdvanceTxOk(t: Tables, x: Tx)
    requires TxOk(t, x) && Disciplined(x.view, x.todo) && x.todo != [] && Runs(t, x.pending, x.todo[0])
    requires x.todo[0].AwaitRead? ==> x.read.Taken?
    ensures TxOk(t, Advance(t, x)) && Disciplined(Advance(t, x).view, Advance(t, x).todo)
  {
    DisciplinedTail(x.view, x.todo);
    TxKept(t, x);
  }

  lemma StmtKeepsStore(s: Store, s': Store, i: nat)
    requires StoreOk(s) && StmtStep(s, s', i)
    ensures StoreOk(s')
  {
    EnabledRuns(s, i);
    AdvanceTxOk(s.tables, s.txs[i]);
    forall j | j in s.txs && j != i
      ensures Apart(Advance(s.tables, s.txs[i]), s.txs[j])
    {
      OthersApart(s, i, j);
      StmtKeepsApart(s, i, j);
    }
    PutKeepsStore(s, s', i, Advance(s.tables, s.txs[i]));
  }

  lemma AdvanceJustified(w: World, t: Tables, x: Tx)
    requires TxOk(t, x) && Disciplined(x.view, x.todo) && x.todo != [] && Runs(t, x.pending, x.todo[0])
    requires WritesJustified(w, x.view, x.pending) && AllAuthorized(w, x.todo)
    ensures WritesJustified(w, Advance(t, x).view, Advance(t, x).pending) && AllAuthorized(w, Advance(t, x).todo)
  {
    DisciplinedTail(x.view, x.todo);
    assert Authorized(w, x.todo[0]);
    JustifiedKept(w, t, x.view, x.pending, x.todo[0], x.now);
  }

  lemma StmtKeepsJustified(w: World, s: Store, s': Store, i: nat)
    requires StoreOk(s) && StoreJustified(w, s) && StmtStep(s, s', i)
    ensures StoreJustified(w, s')
  {
    EnabledRuns(s, i);
    AdvanceJustified(w, s.tables, s.txs[i]);
    PutKeepsJustified(w, s, s', i, Advance(s.tables, s.txs[i]));
  }

  lemma FreshTxOk(t: Tables, op: Op, todo: seq<Stmt>, now: nat)
    ensures TxOk(t, Tx(op, todo, EMPTY_VIEW, NOTHING_PENDING, now, NoRead))
  {
  }

  lemma BeginKeepsStore(w: World, s: Store, s': Store, i: nat, op: Op, now: nat)
    requires StoreOk(s) && BeginStep(w, s, s', i, op, now)
    ensures StoreOk(s')
  {
    ProgramDisciplined(w, op);
    FreshTxOk(s.tables, op, Program(w, op), now);
    PutKeepsStore(s, s', i, Tx(op, Program(w, op), EMPTY_VIEW, NOTHING_PENDING, now, NoRead));
  }

  lemma BeginKeepsJustified(w: World, s: Store, s': Store, i: nat, op: Op, now: nat)
    requires FeedSigns(w) && StoreJustified(w, s) && BeginStep(w, s, s', i, op, now)
    ensures StoreJustified(w, s')
  {
    ProgramAuthorized(w, op);
    PutKeepsJustified(w, s, s', i, Tx(op, Program(w, op), EMPTY_VIEW, NOTHING_PENDING, now, NoRead));
  }

  lemma SnapshotTxOk(t: Tables, x: Tx, rows: seq<nat>)
    requires TxOk(t, x) && x.read.Waiting? && ListsChannels(t, x.read.playlist, rows)
    ensures TxOk(t, x.(read := Taken(x.read.playlist, rows)))
  {
  }

  lemma SnapshotKeepsStore(s: Store, s': Store, i: nat, rows: seq<nat>)
    requires StoreOk(s) && SnapshotStep(s, s', i, rows)
    ensures StoreOk(s')
  {
    SnapshotTxOk(s.tables, s.txs[i], rows);
    PutKeepsStore(s, s', i, s'.txs[i]);
  }

  lemma SnapshotKeepsJustified(w: World, s: Store, s': Store, i: nat, rows: seq<nat>)
    requires StoreJustified(w, s) && SnapshotStep(s, s', i, rows)
    ensures StoreJustified(w, s')
  {
    PutKeepsJustified(w, s, s', i, s'.txs[i]);
  }

  lemma TimeoutTxOk(t: Tables, x: Tx)
    requires TxOk(t, x) && Disciplined(x.view, x.todo) && x.todo != [] && x.todo[0].AwaitRead?
    ensures TxOk(t, Advance(t, x).(read := Abandoned))
    ensures Disciplined(Advance(t, x).view, Advance(t, x).todo)
    ensures Advance(t, x).view.locks == x.view.locks && Advance(t, x).pending == x.pending
  {
    DisciplinedTail(x.view, x.todo);
    WorkKept(t, x);
  }

  lemma TimeoutKeepsStore(s: Store, s': Store, i: nat)
    requires StoreOk(s) && TimeoutStep(s, s', i)
    ensures StoreOk(s')
  {
    TimeoutTxOk(s.tables, s.txs[i]);
    PutKeepsStore(s, s', i, s'.txs[i]);
  }

  lemma TimeoutKeepsJustified(w: World, s: Store, s': Store, i: nat)
    requires StoreOk(s) && StoreJustified(w, s) && TimeoutStep(s, s', i)
    ensures StoreJustified(w, s')
  {
    var x := s.txs[i];
    DisciplinedTail(x.view, x.todo);
    QuietJustified(w, s.tables, x.view, x.pending, x.todo[0], x.now);
    PutKeepsJustified(w, s, s', i, s'.txs[i]);
  }

  lemma RollbackKeepsStore(s: Store, s': Store, i: nat)
    requires StoreOk(s) && RollbackStep(s, s', i)
    ensures StoreOk(s')
  {
  }

  lemma RollbackKeepsJustified(w: World, s: Store, s': Store, i: nat)
    requires StoreJustified(w, s) && RollbackStep(s, s', i)
    ensures StoreJustified(w, s')
  {
  }

  // ---------------------------------------------------------------------------------------
  // One document, one step
  // ---------------------------------------------------------------------------------------

  /** A stored row was replaced by an accepted replace of exactly that row. */
  ghost predicate Replaced(w: World, k: DocKey, before: Row, after: Row, why: ReplaceRequest) {
    && ReplaceJustified(w, k, before, after.body, why)
    && before.generation < after.generation
    && after.createdAt == before.createdAt
    && after.slug == before.slug
  }

  /** All that can happen to a key in one step. */
  ghost predicate Evolves(w: World, t: Tables, t': Tables, k: DocKey) {
    && (k in t.tombstones ==> k in t'.tombstones)
    && (k in t.rows && k in t'.rows ==>
          t'.rows[k] == t.rows[k] || exists why :: Replaced(w, k, t.rows[k], t'.rows[k], why))
    && (k in t.rows && k !in t'.rows ==>
          k in t'.tombstones && exists because :: DeleteJustified(w, k, t.rows[k], because))
    && (k !in t.rows && k in t'.rows ==>
          k !in t.tombstones && Admissible(w, k, t'.rows[k].slug, t'.rows[k].body))
  }

  /** A row committed as a replacement keeps its slug. */
  lemma ReplacedKeepsSlug(w: World, k: DocKey, before: Row, after: Row, why: ReplaceRequest)
    requires ReplaceJustified(w, k, before, after.body, why)
    requires after.slug == UpdatedSlug(before, after.body)
    ensures after.slug == before.slug == after.body.payload.slug
  {
  }

  lemma ReplacedIsAdmissible(w: World, k: DocKey, before: Row, after: Row, why: ReplaceRequest)
    requires FeedSigns(w) && Admissible(w, k, before.slug, before.body)
    requires ReplaceJustified(w, k, before, after.body, why) && after.slug == before.slug
    ensures Admissible(w, k, after.slug, after.body)
  {
    ReplaceKeepsOwnership(w, k.table, k.id, before.slug, before.body, why);
  }

  lemma CommittedReplace(w: World, t: Tables, x: Tx, k: DocKey)
    requires Finished(t, x) && WritesJustified(w, x.view, x.pending)
    requires k in x.pending.rows && x.pending.rows[k].Some? && k in x.view.updates
    ensures k in t.rows && Replaced(w, k, t.rows[k], x.pending.rows[k].value, x.view.updates[k])
  {
    assert RowStands(t, x.view, x.pending.rows, x.pending.tombstones, k);
    assert WriteJustified(w, x.view, x.pending, k);
    ReplacedKeepsSlug(w, k, t.rows[k], x.pending.rows[k].value, x.view.updates[k]);
  }

  lemma CommittedInsert(w: World, t: Tables, x: Tx, k: DocKey)
    requires Finished(t, x) && WritesJustified(w, x.view, x.pending)
    requires k in x.pending.rows && x.pending.rows[k].Some? && k !in x.view.updates
    ensures !Known(t, k) && Admissible(w, k, x.pending.rows[k].value.slug, x.pending.rows[k].value.body)
  {
    assert RowStands(t, x.view, x.pending.rows, x.pending.tombstones, k);
    assert WriteJustified(w, x.view, x.pending, k);
  }

  lemma CommittedDelete(w: World, t: Tables, x: Tx, k: DocKey)
    requires Finished(t, x) && WritesJustified(w, x.view, x.pending)
    requires k in x.pending.rows && x.pending.rows[k].None?
    ensures k in t.rows && k in x.pending.tombstones && k in x.view.deletes
    ensures DeleteJustified(w, k, t.rows[k], x.view.deletes[k])
  {
    assert RowStands(t, x.view, x.pending.rows, x.pending.tombstones, k);
    CommitBuries(t, x, k);
    assert WriteJustified(w, x.view, x.pending, k);
  }

  lemma CommitEvolves(w: World, t: Tables, x: Tx, k: DocKey)
    requires Finished(t, x) && WritesJustified(w, x.view, x.pending)
    ensures Evolves(w, t, Commit(t, x.pending), k)
  {
    if k in x.pending.rows {
      if x.pending.rows[k].None? {
        CommittedDelete(w, t, x, k);
      } else if k in x.view.updates {
        CommittedReplace(w, t, x, k);
      } else {
        CommittedInsert(w, t, x, k);
      }
    }
  }

  lemma EvolvedIsAdmissible(w: World, t: Tables, t': Tables, k: DocKey)
    requires FeedSigns(w) && RowsAdmissible(w, t) && Evolves(w, t, t', k) && k in t'.rows
    ensures Admissible(w, k, t'.rows[k].slug, t'.rows[k].body)
  {
    if k in t.rows && t'.rows[k] != t.rows[k] {
      var why :| Replaced(w, k, t.rows[k], t'.rows[k], why);
      ReplacedIsAdmissible(w, k, t.rows[k], t'.rows[k], why);
    }
  }

  lemma CommitKeepsJustified(w: World, s: Store, s': Store, i: nat)
    requires FeedSigns(w) && StoreOk(s) && StoreJustified(w, s) && CommitStep(s, s', i)
    ensures StoreJustified(w, s')
  {
    forall k | k in s'.tables.rows
      ensures Admissible(w, k, s'.tables.rows[k].slug, s'.tables.rows[k].body)
    {
      CommitEvolves(w, s.tables, s.txs[i], k);
      EvolvedIsAdmissible(w, s.tables, s'.tables, k);
    }
  }
}
