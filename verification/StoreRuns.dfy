/** What whole runs of the store guarantee, for every interleaving of any number of requests. */
module StoreRuns {
  import opened Text
  import opened Documents
  import opened CoSigning
  import opened Ownership
  import opened Authorization
  import opened OwnershipLaws
  import opened Batches
  import opened StoreModel
  import opened StoreDiscipline
  import opened StoreInvariant
  import opened StoreStatements
  import opened StoreCommits
  import opened StoreHistory

  // ---------------------------------------------------------------------------------------
  // Reachable states
  // ---------------------------------------------------------------------------------------

  lemma StepKeepsStore(w: World, s: Store, s': Store)
    requires StoreOk(s) && Step(w, s, s')
    ensures StoreOk(s')
  {
    if i, op, now :| BeginStep(w, s, s', i, op, now) {
      BeginKeepsStore(w, s, s', i, op, now);
    } else if i :| StmtStep(s, s', i) {
      StmtKeepsStore(s, s', i);
    } else if i, rows :| SnapshotStep(s, s', i, rows) {
      SnapshotKeepsStore(s, s', i, rows);
    } else if i :| TimeoutStep(s, s', i) {
      TimeoutKeepsStore(s, s', i);
    } else if i :| CommitStep(s, s', i) {
      CommitKeepsStore(s, s', i);
    } else {
      var i :| RollbackStep(s, s', i);
      RollbackKeepsStore(s, s', i);
    }
  }

  lemma StepKeepsJustified(w: World, s: Store, s': Store)
    requires FeedSigns(w) && StoreOk(s) && StoreJustified(w, s) && Step(w, s, s')
    ensures StoreJustified(w, s')
  {
    if i, op, now :| BeginStep(w, s, s', i, op, now) {
      BeginKeepsJustified(w, s, s', i, op, now);
    } else if i :| StmtStep(s, s', i) {
      StmtKeepsJustified(w, s, s', i);
    } else if i, rows :| SnapshotStep(s, s', i, rows) {
      SnapshotKeepsJustified(w, s, s', i, rows);
    } else if i :| TimeoutStep(s, s', i) {
      TimeoutKeepsJustified(w, s, s', i);
    } else if i :| CommitStep(s, s', i) {
      CommitKeepsJustified(w, s, s', i);
    } else {
      var i :| RollbackStep(s, s', i);
      RollbackKeepsJustified(w, s, s', i);
    }
  }

  lemma OnlyCommitsWrite(w: World, s: Store, s': Store)
    requires Step(w, s, s')
    ensures s'.tables == s.tables || exists i :: CommitStep(s, s', i)
  {
  }

  /** Only a commit changes the tables, and it changes each key in one of the allowed ways. */
  lemma StepEvolves(w: World, s: Store, s': Store, k: DocKey)
    requires StoreOk(s) && StoreJustified(w, s) && Step(w, s, s')
    ensures Evolves(w, s.tables, s'.tables, k)
  {
    OnlyCommitsWrite(w, s, s');
    if s'.tables != s.tables {
      var i :| CommitStep(s, s', i);
      CommitEvolves(w, s.tables, s.txs[i], k);
    }
  }

  lemma EmptyStoreOk(w: World)
    ensures StoreOk(EMPTY_STORE) && StoreJustified(w, EMPTY_STORE)
  {
  }

  /** State n of a run of a feed whose own signatures verify. */
  ghost predicate Reached(w: World, run: seq<Store>, n: nat) {
    FeedSigns(w) && Run(w, run) && n < |run|
  }

  lemma RunSteps(w: World, run: seq<Store>, n: nat)
    requires Run(w, run) && n + 1 < |run|
    ensures Step(w, run[n], run[n + 1])
  {
    assert StepsAt(w, run, n);
  }

  lemma RunStepKeeps(w: World, run: seq<Store>, n: nat)
    requires FeedSigns(w) && Run(w, run) && n + 1 < |run| && StoreOk(run[n]) && StoreJustified(w, run[n])
    ensures StoreOk(run[n + 1]) && StoreJustified(w, run[n + 1])
  {
    RunSteps(w, run, n);
    StepKeepsStore(w, run[n], run[n + 1]);
    StepKeepsJustified(w, run[n], run[n + 1]);
  }

  lemma {:induction false} ReachedOk(w: World, run: seq<Store>, n: nat)
    requires Reached(w, run, n)
    ensures StoreOk(run[n]) && StoreJustified(w, run[n])
  {
    if n == 0 {
      EmptyStoreOk(w);
    } else {
      ReachedOk(w, run, n - 1);
      RunStepKeeps(w, run, n - 1);
    }
  }

  lemma ReachedEvolves(w: World, run: seq<Store>, n: nat, k: DocKey)
    requires Reached(w, run, n + 1)
    ensures Evolves(w, run[n].tables, run[n + 1].tables, k)
  {
    ReachedOk(w, run, n);
    RunSteps(w, run, n);
    StepEvolves(w, run[n], run[n + 1], k);
  }

  // ---------------------------------------------------------------------------------------
  // No id comes back
  // ---------------------------------------------------------------------------------------

  lemma {:induction false} TombstonesStay(w: World, run: seq<Store>, m: nat, n: nat, k: DocKey)
    requires Reached(w, run, n) && m <= n && k in run[m].tables.tombstones
    ensures k in run[n].tables.tombstones
    decreases n
  {
    if m < n {
      TombstonesStay(w, run, m, n - 1, k);
      ReachedEvolves(w, run, n - 1, k);
    }
  }

  /** No key is live and buried at once; a tombstone is for ever; so no deleted id is ever live again,
      through any path. */
  lemma NoIdReturns(w: World, run: seq<Store>, m: nat, n: nat, k: DocKey)
    requires Reached(w, run, n) && m <= n && k in run[m].tables.tombstones
    ensures k in run[n].tables.tombstones && k !in run[n].tables.rows
  {
    TombstonesStay(w, run, m, n, k);
    ReachedOk(w, run, n);
  }

  lemma OneStepBuries(w: World, run: seq<Store>, n: nat, k: DocKey)
    requires Reached(w, run, n + 1)
    requires k in run[n].tables.rows || k in run[n].tables.tombstones
    ensures k in run[n + 1].tables.rows || k in run[n + 1].tables.tombstones
  {
    ReachedEvolves(w, run, n, k);
  }

  /** A row that was live and is gone was deleted, and stays gone. */
  lemma {:induction false} GoneIsGone(w: World, run: seq<Store>, m: nat, n: nat, k: DocKey)
    requires Reached(w, run, n) && m <= n && k in run[m].tables.rows && k !in run[n].tables.rows
    ensures k in run[n].tables.tombstones
    decreases n
  {
    assert m < n;
    if k !in run[n - 1].tables.rows {
      GoneIsGone(w, run, m, n - 1, k);
    }
    OneStepBuries(w, run, n - 1, k);
  }

  lemma LiveThroughout(w: World, run: seq<Store>, m: nat, l: nat, n: nat, k: DocKey)
    requires Reached(w, run, n) && m <= l <= n && k in run[m].tables.rows && k in run[n].tables.rows
    ensures k in run[l].tables.rows
  {
    if k !in run[l].tables.rows {
      GoneIsGone(w, run, m, l, k);
      NoIdReturns(w, run, l, n, k);
    }
  }

  // ---------------------------------------------------------------------------------------
  // The whole life of a document
  // ---------------------------------------------------------------------------------------

  /** How a later body of a document relates to an earlier one. */
  ghost predicate Descends(table: Table, before: Document, after: Document) {
    && OwnersOf(table, before) <= OwnersOf(table, after)
    && (Declared(table, before.payload) != {} ==> Declared(table, after.payload) != {})
    && (table != Playlists ==> OwnersOf(table, after) == OwnersOf(table, before))
  }

  /** A later row of a document: the same row, or one of a later generation. */
  ghost predicate Later(k: DocKey, before: Row, after: Row) {
    && after.createdAt == before.createdAt && after.slug == before.slug
    && before.generation <= after.generation
    && (before.generation == after.generation ==> after == before)
    && Descends(k.table, before.body, after.body)
  }

  lemma ReplacedIsLater(w: World, k: DocKey, before: Row, after: Row, why: ReplaceRequest)
    requires FeedSigns(w) && Admissible(w, k, before.slug, before.body) && Replaced(w, k, before, after, why)
    ensures Later(k, before, after)
    ensures why.intent.Some? && OwnershipStep(w, k.table, before.body, after.body, why.intent.value)
  {
    ReplaceKeepsOwnership(w, k.table, k.id, before.slug, before.body, why);
  }

  lemma LaterIsTransitive(k: DocKey, a: Row, b: Row, c: Row)
    requires Later(k, a, b) && Later(k, b, c)
    ensures Later(k, a, c)
  {
  }

  lemma StepIsLater(w: World, t: Tables, t': Tables, k: DocKey)
    requires FeedSigns(w) && RowsAdmissible(w, t) && Evolves(w, t, t', k) && k in t.rows && k in t'.rows
    ensures Later(k, t.rows[k], t'.rows[k])
  {
    if t'.rows[k] != t.rows[k] {
      var why :| Replaced(w, k, t.rows[k], t'.rows[k], why);
      ReplacedIsLater(w, k, t.rows[k], t'.rows[k], why);
    }
  }

  lemma OneStepLater(w: World, run: seq<Store>, n: nat, k: DocKey)
    requires Reached(w, run, n + 1) && k in run[n].tables.rows && k in run[n + 1].tables.rows
    ensures Later(k, run[n].tables.rows[k], run[n + 1].tables.rows[k])
  {
    ReachedOk(w, run, n);
    ReachedEvolves(w, run, n, k);
    StepIsLater(w, run[n].tables, run[n + 1].tables, k);
  }

  /** Over the whole history of a document its owner set only grows, a declared owner list stays
      declared, and the owner of a group or channel never changes, even when requests race. Its slug and
      creation time never change and its generations strictly increase. */
  lemma {:induction false} OwnershipOnlyGrows(w: World, run: seq<Store>, m: nat, n: nat, k: DocKey)
    requires Reached(w, run, n) && m <= n && k in run[m].tables.rows && k in run[n].tables.rows
    ensures Later(k, run[m].tables.rows[k], run[n].tables.rows[k])
    decreases n
  {
    if m < n {
      LiveThroughout(w, run, m, n - 1, n, k);
      OwnershipOnlyGrows(w, run, m, n - 1, k);
      OneStepLater(w, run, n - 1, k);
      LaterIsTransitive(k, run[m].tables.rows[k], run[n - 1].tables.rows[k], run[n].tables.rows[k]);
    }
  }

  /** Every change of a live body was authorized against exactly the body it replaced: an owner of that
      body signed the new one, an owner signed its intent, and every owner it adds signed the new body. A
      sole owner signed both; of several declared owners they may be two (SplitSigners). */
  lemma EveryReplaceIsOwned(w: World, run: seq<Store>, n: nat, k: DocKey)
    requires Reached(w, run, n + 1)
    requires k in run[n].tables.rows && k in run[n + 1].tables.rows
    requires run[n].tables.rows[k] != run[n + 1].tables.rows[k]
    ensures exists why: ReplaceRequest ::
              && ReplaceAccepted(w, k.table, k.id, run[n].tables.rows[k].slug, run[n].tables.rows[k].body, why)
              && run[n + 1].tables.rows[k].body == CoSign(w, why.doc, why.ts)
              && OwnershipStep(w, k.table, run[n].tables.rows[k].body, run[n + 1].tables.rows[k].body, why.intent.value)
              && (|OwnersOf(k.table, run[n].tables.rows[k].body)| == 1 ==>
                    CommonSigner(w, k.table, run[n].tables.rows[k].body, run[n + 1].tables.rows[k].body,
                                 why.intent.value))
  {
    ReachedOk(w, run, n);
    ReachedEvolves(w, run, n, k);
    var before, after := run[n].tables.rows[k], run[n + 1].tables.rows[k];
    var why :| Replaced(w, k, before, after, why);
    ReplacedIsLater(w, k, before, after, why);
  }

  /** Every delete was authorized by an owner of exactly the body it removed. */
  lemma EveryDeleteIsOwned(w: World, run: seq<Store>, n: nat, k: DocKey)
    requires Reached(w, run, n + 1)
    requires k in run[n].tables.rows && k !in run[n + 1].tables.rows
    ensures exists because: DeleteRequest ::
              && DeleteAccepted(w, k.table, k.id, run[n].tables.rows[k].slug, run[n].tables.rows[k].body, because)
              && exists o :: o in OwnersOf(k.table, run[n].tables.rows[k].body)
                   && Authorizes(w, k.table, because.intent.value, o)
    ensures k in run[n + 1].tables.tombstones
  {
    ReachedEvolves(w, run, n, k);
    var because :| DeleteJustified(w, k, run[n].tables.rows[k], because);
    IntentSignerAuthorizes(w, k.table, because.intent.value, OwnersOf(k.table, run[n].tables.rows[k].body));
  }

  /** In every reachable state every stored document has an owner, who signed it; a group, a channel and
      an undeclared playlist have exactly one. */
  lemma EveryStoredDocumentIsOwned(w: World, run: seq<Store>, n: nat, k: DocKey)
    requires Reached(w, run, n) && k in run[n].tables.rows
    ensures var doc := run[n].tables.rows[k].body;
            && OwnersOf(k.table, doc) != {}
            && (exists o :: o in OwnersOf(k.table, doc) && Attests(w, k.table, doc, o))
            && (k.table != Playlists || Declared(k.table, doc.payload) == {} ==> |OwnersOf(k.table, doc)| == 1)
  {
    ReachedOk(w, run, n);
    var doc := run[n].tables.rows[k].body;
    assert Admissible(w, k, run[n].tables.rows[k].slug, doc);
    var s :| s in doc.signatures && Trim(s.kid) in OwnersOf(k.table, doc) && s.role == OwnerRole(k.table);
    assert Attests(w, k.table, doc, Trim(s.kid));
  }
}
