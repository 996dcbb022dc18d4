/** What a client of the feed can rely on in every reachable state and across any stretch of a run. */
module StoreGuarantees {
  import opened Documents
  import opened CoSigning
  import opened Ownership
  import opened Authorization
  import opened OwnershipLaws
  import opened Batches
  import opened StoreModel
  import opened StoreDiscipline
  import opened StoreInvariant
  import opened StoreStatements
  import opened StoreCommits
  import opened StoreHistory
  import opened StoreRuns
  import opened StoreEffects

  lemma RunStepKeepsOrigins(w: World, run: seq<Store>, n: nat)
    requires Reached(w, run, n + 1) && Origins(w, run[n])
    ensures Origins(w, run[n + 1])
  {
    ReachedOk(w, run, n);
    RunSteps(w, run, n);
    StepKeepsOrigins(w, run[n], run[n + 1]);
  }

  lemma {:induction false} ReachedOrigins(w: World, run: seq<Store>, n: nat)
    requires Reached(w, run, n)
    ensures Origins(w, run[n])
  {
    if n > 0 {
      ReachedOrigins(w, run, n - 1);
      RunStepKeepsOrigins(w, run, n - 1);
    }
  }

  /** Whatever a reachable commit does, it does as one of the requests of StoreEffects. */
  lemma ReachedCommit(w: World, run: seq<Store>, n: nat, i: nat)
    requires Reached(w, run, n + 1) && CommitStep(run[n], run[n + 1], i)
    ensures TablesOk(run[n].tables) && Committing(w, run[n].tables, run[n].txs[i])
  {
    ReachedOk(w, run, n);
    ReachedOrigins(w, run, n);
  }

  // ---------------------------------------------------------------------------------------
  // Membership and index
  // ---------------------------------------------------------------------------------------

  /** In every reachable state the membership rows of a container are exactly the pairs (i, refs[i]) of
      its last committed reference list whose playlist is still live. */
  lemma MembershipIsExact(w: World, run: seq<Store>, n: nat, c: DocKey, i: nat)
    requires Reached(w, run, n)
    ensures var t := run[n].tables;
            && (c in t.linked <==> c in t.rows && c.table != Playlists)
            && (Slot(c, i) in t.members <==>
                  c in t.linked && i < |t.linked[c]| && PlaylistKey(t.linked[c][i]) in t.rows)
            && (Slot(c, i) in t.members ==> t.members[Slot(c, i)] == t.linked[c][i])
  {
    ReachedOk(w, run, n);
    ExactMember(run[n].tables, Slot(c, i));
  }

  lemma ExactItem(t: Tables, s: ItemSlot)
    requires ItemsExact(t)
    ensures s in t.items <==> ExpectedItem(t, s).Some?
    ensures s in t.items ==> ExpectedItem(t, s) == Some(t.items[s])
  {
  }

  /** In every reachable state the item index of a live playlist is exactly its body's items at their
      array positions, and no index row belongs to anything else. */
  lemma IndexIsExact(w: World, run: seq<Store>, n: nat, id: nat, i: nat)
    requires Reached(w, run, n)
    ensures var t, s := run[n].tables, ItemSlot(id, i);
            && (s in t.items <==> PlaylistKey(id) in t.rows && i < |t.rows[PlaylistKey(id)].body.payload.items|)
            && (s in t.items ==> t.items[s] == t.rows[PlaylistKey(id)].body.payload.items[i])
  {
    ReachedOk(w, run, n);
    ExactItem(run[n].tables, ItemSlot(id, i));
  }

  /** A recorded source always names a live playlist. */
  lemma SourcesAreLive(w: World, run: seq<Store>, n: nat, uri: string)
    requires Reached(w, run, n) && uri in run[n].tables.sources
    ensures PlaylistKey(run[n].tables.sources[uri]) in run[n].tables.rows
  {
    ReachedOk(w, run, n);
  }

  lemma CommitSources(w: World, t: Tables, x: Tx, u: string)
    requires Committing(w, t, x)
    ensures var t' := Commit(t, x.pending);
            && (u in t'.sources ==> (u in t.sources && t'.sources[u] == t.sources[u]) || (u in x.pending.sources
                                     && t'.sources[u] == x.pending.sources[u]))
            && (u in t.sources && PlaylistKey(t.sources[u]) in t'.rows ==> u in t'.sources)
  {
  }

  lemma RecordedIsReferenced(op: Op, sources: map<string, nat>, u: string)
    requires RecordsOf(op, sources) && u in sources
    ensures (op.CreateContainer? || op.ReplaceContainer?)
            && exists r :: r in op.refs && r.ingested.sourceUri == u && r.ingested.id == sources[u]
  {
    SourceRowsCorrect(Linked(op));
    var j :| 0 <= j < |Linked(op)| && Linked(op)[j].sourceUri == u && Linked(op)[j].id == SourceRows(Linked(op))[u];
    assert op.refs[j] in op.refs;
  }

  /** A recorded source stays recorded as long as its playlist lives, and what is recorded for a URI changes
      only when a group or channel is committed with a reference of that URI, which resolved to it. */
  lemma SourcesEvolve(w: World, run: seq<Store>, n: nat, u: string)
    requires Reached(w, run, n + 1)
    ensures var t, t' := run[n].tables, run[n + 1].tables;
            && (u in t.sources && PlaylistKey(t.sources[u]) in t'.rows ==> u in t'.sources)
            && (u in t'.sources && !(u in t.sources && t'.sources[u] == t.sources[u]) ==>
                  exists i :: CommitStep(run[n], run[n + 1], i) && var op := run[n].txs[i].op;
                    && (op.CreateContainer? || op.ReplaceContainer?)
                    && exists r :: r in op.refs && r.ingested.sourceUri == u && r.ingested.id == t'.sources[u])
  {
    var t, t' := run[n].tables, run[n + 1].tables;
    RunSteps(w, run, n);
    OnlyCommitsWrite(w, run[n], run[n + 1]);
    if t' != t {
      var i :| CommitStep(run[n], run[n + 1], i);
      ReachedCommit(w, run, n, i);
      CommitSources(w, t, run[n].txs[i], u);
      if u in run[n].txs[i].pending.sources {
        RecordedIsReferenced(run[n].txs[i].op, run[n].txs[i].pending.sources, u);
      }
    }
  }

  /** Only what was live is ever buried, and it goes as it is buried. */
  lemma OnlyTheLiveAreBuried(w: World, run: seq<Store>, n: nat, k: DocKey)
    requires Reached(w, run, n + 1) && k !in run[n].tables.tombstones && k in run[n + 1].tables.tombstones
    ensures k in run[n].tables.rows && k !in run[n + 1].tables.rows
  {
    RunSteps(w, run, n);
    OnlyCommitsWrite(w, run[n], run[n + 1]);
    var i :| CommitStep(run[n], run[n + 1], i);
    ReachedCommit(w, run, n, i);
    var x := run[n].txs[i];
    CommitBuries(run[n].tables, x, k);
    assert RowStands(run[n].tables, x.view, x.pending.rows, x.pending.tombstones, k);
  }

  // ---------------------------------------------------------------------------------------
  // Recipients
  // ---------------------------------------------------------------------------------------

  /** Channel c had the playlist among its members in some state of the run up to n. */
  ghost predicate ListedBy(run: seq<Store>, n: nat, c: nat, playlist: nat)
    requires n < |run|
  {
    exists m: nat, position: nat ::
      && m <= n && Slot(DocKey(Channels, c), position) in run[m].tables.members
      && run[m].tables.members[Slot(DocKey(Channels, c), position)] == playlist
  }

  ghost predicate ReadIsSound(run: seq<Store>, n: nat, read: Read)
    requires n < |run|
  {
    read.Taken? ==> forall c :: c in read.rows ==> ListedBy(run, n, c, read.playlist)
  }

  lemma SnapshotIsSound(run: seq<Store>, n: nat, playlist: nat, rows: seq<nat>)
    requires n + 1 < |run| && ListsChannels(run[n].tables, playlist, rows)
    ensures ReadIsSound(run, n + 1, Taken(playlist, rows))
  {
    forall c | c in rows
      ensures ListedBy(run, n + 1, c, playlist)
    {
      assert Lists(run[n].tables, c, playlist);
      var s :| s in run[n].tables.members && s.container == DocKey(Channels, c) && run[n].tables.members[s] == playlist;
      assert s == Slot(DocKey(Channels, c), s.position);
    }
  }

  lemma SoundReadStays(run: seq<Store>, n: nat, read: Read)
    requires n + 1 < |run| && ReadIsSound(run, n, read)
    ensures ReadIsSound(run, n + 1, read)
  {
    if read.Taken? {
      forall c | c in read.rows
        ensures ListedBy(run, n + 1, c, read.playlist)
      {
        assert ListedBy(run, n, c, read.playlist);
      }
    }
  }

  /** A read that a step brings in was taken then. */
  lemma NewReadIsSnapshot(w: World, s: Store, s': Store, i: nat)
    requires Step(w, s, s') && i in s'.txs && s'.txs[i].read.Taken?
    requires !(i in s.txs && s.txs[i].read == s'.txs[i].read)
    ensures ListsChannels(s.tables, s'.txs[i].read.playlist, s'.txs[i].read.rows)
  {
  }

  lemma StepKeepsReadSound(w: World, run: seq<Store>, n: nat, i: nat)
    requires n + 1 < |run| && Step(w, run[n], run[n + 1]) && i in run[n + 1].txs && run[n + 1].txs[i].read.Taken?
    requires i in run[n].txs ==> ReadIsSound(run, n, run[n].txs[i].read)
    ensures ReadIsSound(run, n + 1, run[n + 1].txs[i].read)
  {
    var read := run[n + 1].txs[i].read;
    if i in run[n].txs && run[n].txs[i].read == read {
      SoundReadStays(run, n, read);
    } else {
      NewReadIsSnapshot(w, run[n], run[n + 1], i);
      SnapshotIsSound(run, n, read.playlist, read.rows);
    }
  }

  lemma {:induction false} ReachedReadIsSound(w: World, run: seq<Store>, n: nat, i: nat)
    requires Reached(w, run, n) && i in run[n].txs
    ensures ReadIsSound(run, n, run[n].txs[i].read)
  {
    if run[n].txs[i].read.Taken? {
      assert n > 0;
      if i in run[n - 1].txs {
        ReachedReadIsSound(w, run, n - 1, i);
      }
      RunSteps(w, run, n - 1);
      StepKeepsReadSound(w, run, n - 1, i);
    }
  }

  /** Nobody is notified of a delete whose channel never had the playlist among its members. */
  lemma RecipientsListedIt(w: World, run: seq<Store>, n: nat, i: nat, c: nat)
    requires Reached(w, run, n) && i in run[n].txs
    requires Recipients(run[n].txs[i]).Some? && c in Recipients(run[n].txs[i]).value
    ensures run[n].txs[i].op.DeletePlaylist?
    ensures exists m: nat, position: nat ::
              && m <= n && Slot(DocKey(Channels, c), position) in run[m].tables.members
              && run[m].tables.members[Slot(DocKey(Channels, c), position)] == run[n].txs[i].op.id
  {
    ReachedOrigins(w, run, n);
    ReachedReadIsSound(w, run, n, i);
    LockOrderCorrect(run[n].txs[i].read.rows);
    assert ListedBy(run, n, c, run[n].txs[i].op.id);
  }

  /** A row that is written over is of a later generation. */
  lemma WrittenRowAdvances(t: Tables, x: Tx, k: DocKey)
    requires Finished(t, x) && k in x.pending.rows && k in t.rows && k in Commit(t, x.pending).rows
    ensures t.rows[k].generation < Commit(t, x.pending).rows[k].generation
  {
    assert RowStands(t, x.view, x.pending.rows, x.pending.tombstones, k);
  }

  lemma CommitKeepsLinked(t: Tables, x: Tx, c: DocKey)
    requires Finished(t, x) && c in t.rows && c in Commit(t, x.pending).rows && c in t.linked
    requires Commit(t, x.pending).rows[c].generation == t.rows[c].generation
    ensures c in Commit(t, x.pending).linked && Commit(t, x.pending).linked[c] == t.linked[c]
  {
    assert c !in x.pending.rows by {
      if c in x.pending.rows {
        WrittenRowAdvances(t, x, c);
      }
    }
  }

  /** Whoever has run all its statements is ready to commit. */
  ghost predicate Ready(s: Store) {
    forall i :: i in s.txs && s.txs[i].todo == [] ==> Finished(s.tables, s.txs[i])
  }

  lemma SoundIsReady(s: Store)
    requires StoreOk(s)
    ensures Ready(s)
  {
  }

  lemma StepKeepsLinked(w: World, s: Store, s': Store, c: DocKey)
    requires Ready(s) && Step(w, s, s')
    requires c in s.tables.rows && c in s'.tables.rows && s'.tables.rows[c].generation == s.tables.rows[c].generation
    requires c in s.tables.linked
    ensures c in s'.tables.linked && s'.tables.linked[c] == s.tables.linked[c]
  {
    if i :| CommitStep(s, s', i) {
      CommitKeepsLinked(s.tables, s.txs[i], c);
    } else {
      assert s'.tables == s.tables;
    }
  }

  lemma ReachedKeepsLinked(w: World, run: seq<Store>, n: nat, c: DocKey)
    requires Reached(w, run, n + 1) && c in run[n].tables.linked
    requires c in run[n].tables.rows && c in run[n + 1].tables.rows
    requires run[n].tables.rows[c].generation == run[n + 1].tables.rows[c].generation
    ensures c in run[n + 1].tables.linked && run[n + 1].tables.linked[c] == run[n].tables.linked[c]
  {
    ReachedOk(w, run, n);
    SoundIsReady(run[n]);
    RunSteps(w, run, n);
    StepKeepsLinked(w, run[n], run[n + 1], c);
  }

  lemma GenerationBetween(w: World, run: seq<Store>, m: nat, l: nat, n: nat, c: DocKey)
    requires Reached(w, run, n) && m <= l <= n && c in run[m].tables.rows && c in run[n].tables.rows
    ensures c in run[l].tables.rows
    ensures run[m].tables.rows[c].generation <= run[l].tables.rows[c].generation <= run[n].tables.rows[c].generation
  {
    LiveThroughout(w, run, m, l, n, c);
    OwnershipOnlyGrows(w, run, m, l, c);
    OwnershipOnlyGrows(w, run, l, n, c);
  }

  lemma LiveContainerIsLinked(w: World, run: seq<Store>, n: nat, c: DocKey)
    requires Reached(w, run, n) && c.table != Playlists && c in run[n].tables.rows
    ensures c in run[n].tables.linked
  {
    ReachedOk(w, run, n);
  }

  /** The reference list of a container changes only with its row: as long as its generation is the same,
      so is the list. */
  lemma {:induction false} SameGenerationSameLinks(w: World, run: seq<Store>, m: nat, n: nat, c: DocKey)
    requires Reached(w, run, n) && m <= n && c.table != Playlists
    requires c in run[m].tables.rows && c in run[n].tables.rows
    requires run[m].tables.rows[c].generation == run[n].tables.rows[c].generation
    ensures c in run[m].tables.linked && c in run[n].tables.linked
    ensures run[m].tables.linked[c] == run[n].tables.linked[c]
    decreases n
  {
    if m == n {
      LiveContainerIsLinked(w, run, n, c);
    } else {
      GenerationBetween(w, run, m, n - 1, n, c);
      SameGenerationSameLinks(w, run, m, n - 1, c);
      ReachedKeepsLinked(w, run, n - 1, c);
    }
  }

  /** Between two writes of a container its membership only thins out: a slot keeps its playlist until
      that playlist is deleted, and no position is ever renumbered or filled again. */
  lemma MembershipOnlyThins(w: World, run: seq<Store>, m: nat, n: nat, c: DocKey, i: nat)
    requires Reached(w, run, n) && m <= n && c.table != Playlists
    requires c in run[m].tables.rows && c in run[n].tables.rows
    requires run[m].tables.rows[c].generation == run[n].tables.rows[c].generation
    ensures Slot(c, i) in run[n].tables.members <==>
              Slot(c, i) in run[m].tables.members && PlaylistKey(run[m].tables.members[Slot(c,
                      i)]) in run[n].tables.rows
    ensures Slot(c, i) in run[n].tables.members ==> run[n].tables.members[Slot(c, i)] == run[m].tables.members[Slot(c,
            i)]
  {
    SameGenerationSameLinks(w, run, m, n, c);
    MembershipIsExact(w, run, m, c, i);
    MembershipIsExact(w, run, n, c, i);
    if i < |run[m].tables.linked[c]| && Slot(c, i) !in run[m].tables.members {
      var k := PlaylistKey(run[m].tables.linked[c][i]);
      ReachedOk(w, run, m);
      assert Known(run[m].tables, k);
      NoIdReturns(w, run, m, n, k);
    }
  }

  /** An abandoned recipient read is never collected: it stays abandoned until its delete is over. */
  lemma AbandonedIsNeverCollected(w: World, run: seq<Store>, n: nat, i: nat)
    requires Reached(w, run, n + 1)
    requires i in run[n].txs && i in run[n + 1].txs && run[n].txs[i].read.Abandoned?
    ensures run[n + 1].txs[i].read.Abandoned? && Recipients(run[n + 1].txs[i]).None?
  {
    ReachedOk(w, run, n);
    RunSteps(w, run, n);
    AbandonedStaysAbandoned(w, run[n], run[n + 1], i);
  }

  // ---------------------------------------------------------------------------------------
  // The regime guard
  // ---------------------------------------------------------------------------------------

  /** A replace that clears every guard but the one on regime changes. */
  ghost predicate AcceptedWithoutRegimeGuard(w: World, table: Table, id: nat, slug: string, stored: Document,
                                             req: ReplaceRequest) {
    var role, doc := OwnerRole(table), req.doc;
    var declared := Declared(table, doc.payload);
    && Identified(table, doc.payload)
    && doc.payload.created.at <= req.now
    && SameIdentity(doc.payload, id, slug, stored.payload)
    && DeclarationRetained(Declared(table, stored.payload), declared).Pass?
    && Unambiguous(declared, role, doc.signatures).Pass?
    && GroupRule(table, doc)
    && StoredOwners(table, stored).Some?
    && var owners := StoredOwners(table, stored).value;
    && owners <= Owners(declared, role, doc.signatures)
    && AllVerify(w, DocumentContent(doc.payload), doc.signatures)
    && (table == Groups || Owners(declared, role, doc.signatures) - owners <= RoleSigners(role, doc.signatures))
    && SignedByOwner(owners, role, doc.signatures)
    && IntentAccepted(w, req.intent, Replace, table, id, slug, owners, Some(doc.payload), req.now)
    && w.valid(table, CoSign(w, doc, req.ts))
  }

  /** In every reachable state, removing the regime-transition guard would change no decision on any
      replace of any stored document. */
  lemma RegimeGuardNeverDecides(w: World, run: seq<Store>, n: nat, k: DocKey, req: ReplaceRequest)
    requires Reached(w, run, n) && k in run[n].tables.rows
    ensures var row := run[n].tables.rows[k];
            ReplaceAccepted(w, k.table, k.id, row.slug, row.body, req)
            <==> AcceptedWithoutRegimeGuard(w, k.table, k.id, row.slug, row.body, req)
  {
    var row := run[n].tables.rows[k];
    ReachedOk(w, run, n);
    assert Admissible(w, k, row.slug, row.body);
    if AcceptedWithoutRegimeGuard(w, k.table, k.id, row.slug, row.body, req) {
      RegimeGuardIsRedundant(w, k.table, row.body, Declared(k.table, req.doc.payload), req.doc.signatures);
    }
  }

  // ---------------------------------------------------------------------------------------
  // The owner of a group
  // ---------------------------------------------------------------------------------------

  /** A group keeps for life the one owner its create established: the submitted document's curator-role
      signer, read back from whatever co-signed body is stored later, whatever its display name says. */
  lemma GroupOwnerForLife(w: World, run: seq<Store>, m: nat, i: nat, n: nat)
    requires Reached(w, run, n) && m < n && CommitStep(run[m], run[m + 1], i)
    requires run[m].txs[i].op.CreateContainer? && run[m].txs[i].op.table == Groups
    requires Target(run[m].txs[i].op) in run[n].tables.rows
    ensures var c, req := Target(run[m].txs[i].op), run[m].txs[i].op.create;
            && OwnersOf(Groups, run[n].tables.rows[c].body) == RoleSigners(Curator, req.doc.signatures)
            && |RoleSigners(Curator, req.doc.signatures)| == 1
  {
    var op := run[m].txs[i].op;
    CreatedBody(w, run, m, i);
    GroupOwnerStays(w, run, m + 1, n, Target(op), op.create.doc, CreatedTs(w, op.create.doc));
  }

  lemma GroupOwnerStays(w: World, run: seq<Store>, m: nat, n: nat, c: DocKey, doc: Document, ts: string)
    requires Reached(w, run, n) && m <= n && c.table == Groups
    requires c in run[m].tables.rows && c in run[n].tables.rows && run[m].tables.rows[c].body == CoSign(w, doc, ts)
    ensures OwnersOf(Groups, run[n].tables.rows[c].body) == RoleSigners(Curator, doc.signatures)
    ensures |RoleSigners(Curator, doc.signatures)| == 1
  {
    OwnershipOnlyGrows(w, run, m, n, c);
    StoredIsWellOwned(w, run, m, c);
    StoredGroupOwnerIsSigner(w, doc, ts);
  }

  lemma CreatedBody(w: World, run: seq<Store>, m: nat, i: nat)
    requires Reached(w, run, m + 1) && CommitStep(run[m], run[m + 1], i) && Creates(run[m].txs[i].op)
    ensures var op := run[m].txs[i].op;
            && Target(op) in run[m + 1].tables.rows
            && run[m + 1].tables.rows[Target(op)].body == CoSign(w, op.create.doc, CreatedTs(w, op.create.doc))
  {
    ReachedCommit(w, run, m, i);
    CreateInstalls(w, run[m].tables, run[m].txs[i]);
  }

  lemma StoredIsWellOwned(w: World, run: seq<Store>, n: nat, k: DocKey)
    requires Reached(w, run, n) && k in run[n].tables.rows
    ensures WellOwned(w, k.table, run[n].tables.rows[k].body)
  {
    ReachedOk(w, run, n);
    assert Admissible(w, k, run[n].tables.rows[k].slug, run[n].tables.rows[k].body);
  }
}
