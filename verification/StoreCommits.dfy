/** Every step of the machine keeps the store's invariant. A commit is the hard one: it changes the
    tables under every other open transaction. */
module StoreCommits {
  import opened Documents
  import opened CoSigning
  import opened Authorization
  import opened OwnershipLaws
  import opened Batches
  import opened StoreModel
  import opened StoreDiscipline
  import opened StoreInvariant
  import opened StoreStatements

  // ---------------------------------------------------------------------------------------
  // Statements
  // ---------------------------------------------------------------------------------------

  lemma EnabledRuns(s: Store, i: nat)
    requires i in s.txs && s.txs[i].todo != [] && Enabled(s, i)
    ensures Runs(s.tables, s.txs[i].pending, s.txs[i].todo[0])
    ensures s.txs[i].todo[0].AwaitRead? ==> s.txs[i].read.Taken?
  {
  }

  /** A statement takes only locks nobody else holds. */
  lemma LocksTakenFree(s: Store, i: nat, j: nat)
    requires i in s.txs && s.txs[i].todo != [] && Enabled(s, i) && j in s.txs && i != j
    requires s.txs[i].view.locks !! s.txs[j].view.locks
    ensures ViewAfter(s.txs[i].view, s.txs[i].todo[0]).locks !! s.txs[j].view.locks
  {
  }

  /** A statement writes only rows nobody else has written. */
  lemma RowsWrittenFree(s: Store, i: nat, j: nat)
    requires i in s.txs && s.txs[i].todo != [] && Enabled(s, i) && j in s.txs && i != j
    requires s.txs[i].pending.rows.Keys !! s.txs[j].pending.rows.Keys
    ensures PendingAfter(s.tables, s.txs[i].pending, s.txs[i].todo[0],
                         s.txs[i].now).rows.Keys !! s.txs[j].pending.rows.Keys
  {
  }

  /** Two transactions that hold no lock in common and write no row in common. */
  predicate Apart(x: Tx, y: Tx) {
    x.view.locks !! y.view.locks && x.pending.rows.Keys !! y.pending.rows.Keys
  }

  lemma StmtKeepsApart(s: Store, i: nat, j: nat)
    requires i in s.txs && s.txs[i].todo != [] && Enabled(s, i) && j in s.txs && i != j
    requires Apart(s.txs[i], s.txs[j])
    ensures Apart(Advance(s.tables, s.txs[i]), s.txs[j])
  {
    LocksTakenFree(s, i, j);
    RowsWrittenFree(s, i, j);
  }

  // ---------------------------------------------------------------------------------------
  // Commit: the tables
  // ---------------------------------------------------------------------------------------

  /** A transaction that has run all its statements. */
  ghost predicate Finished(t: Tables, x: Tx) {
    TxOk(t, x) && Complete(x.view)
  }

  /** A deleted row leaves a tombstone, and nothing else does. */
  lemma CommitBuries(t: Tables, x: Tx, k: DocKey)
    requires Finished(t, x)
    ensures k in x.pending.rows && x.pending.rows[k].None? <==> k in x.pending.tombstones
  {
    if k in x.pending.rows {
      assert RowStands(t, x.view, x.pending.rows, x.pending.tombstones, k);
    }
  }

  /** A row that a commit brings to life was never used before. */
  lemma CommitRevivesNothing(t: Tables, x: Tx, k: DocKey)
    requires Finished(t, x) && k in Commit(t, x.pending).rows && k !in t.rows
    ensures k !in t.tombstones && k !in x.pending.tombstones && k in x.view.checked
  {
    assert RowStands(t, x.view, x.pending.rows, x.pending.tombstones, k);
    CommitBuries(t, x, k);
  }

  lemma CommitKeepsKnown(t: Tables, x: Tx, k: DocKey)
    requires Finished(t, x) && Known(t, k)
    ensures Known(Commit(t, x.pending), k)
  {
    CommitBuries(t, x, k);
  }

  lemma CommitNoneReturned(t: Tables, x: Tx)
    requires Finished(t, x) && NoneReturned(t)
    ensures NoneReturned(Commit(t, x.pending))
  {
    var t' := Commit(t, x.pending);
    forall k | k in t'.rows
      ensures k !in t'.tombstones
    {
      CommitBuries(t, x, k);
      if k !in t.rows {
        CommitRevivesNothing(t, x, k);
      }
    }
  }

  /** The playlists a transaction links are live after it commits. */
  lemma LinkedPlaylistsLive(t: Tables, x: Tx, c: DocKey, n: nat)
    requires Finished(t, x) && c in x.pending.membersAdded && n < |x.pending.membersAdded[c]|
    ensures PlaylistKey(x.pending.membersAdded[c][n]) in Commit(t, x.pending).rows
    ensures x.pending.membersAdded[c][n] in x.view.ensured
  {
    assert MembersStand(t, x.view, x.pending.rows, x.pending.membersCleared, x.pending.membersAdded, c);
  }

  lemma CommitLinked(t: Tables, x: Tx, c: DocKey)
    requires Finished(t, x) && LinkedExact(t)
    ensures c in Commit(t, x.pending).linked <==> c in Commit(t, x.pending).rows && c.table != Playlists
  {
    if c in x.pending.rows && c.table != Playlists {
      assert MembersStand(t, x.view, x.pending.rows, x.pending.membersCleared, x.pending.membersAdded, c);
    }
  }

  lemma CommitLinkedKnown(t: Tables, x: Tx, c: DocKey, n: nat)
    requires Finished(t, x) && LinkedExact(t)
    requires c in Commit(t, x.pending).linked && n < |Commit(t, x.pending).linked[c]|
    ensures Known(Commit(t, x.pending), PlaylistKey(Commit(t, x.pending).linked[c][n]))
  {
    if c in x.pending.membersAdded {
      LinkedPlaylistsLive(t, x, c, n);
    } else {
      CommitKeepsKnown(t, x, PlaylistKey(t.linked[c][n]));
    }
  }

  lemma CommitLinkedExact(t: Tables, x: Tx)
    requires Finished(t, x) && LinkedExact(t)
    ensures LinkedExact(Commit(t, x.pending))
  {
    var t' := Commit(t, x.pending);
    forall c: DocKey
      ensures c in t'.linked <==> c in t'.rows && c.table != Playlists
    {
      CommitLinked(t, x, c);
    }
    forall c, n | c in t'.linked && 0 <= n < |t'.linked[c]|
      ensures Known(t', PlaylistKey(t'.linked[c][n]))
    {
      CommitLinkedKnown(t, x, c, n);
    }
  }

  /** Of the playlists used so far, those live after a commit are those live before it that it does not
      delete: none of the others comes back. */
  lemma KnownPlaylistLivesOn(t: Tables, x: Tx, pl: nat)
    requires Finished(t, x) && NoneReturned(t) && Known(t, PlaylistKey(pl))
    ensures PlaylistKey(pl) in Commit(t, x.pending).rows <==> PlaylistKey(pl) in t.rows && !Deletes(x.pending.rows, pl)
  {
    CommitNoneReturned(t, x);
    CommitBuries(t, x, PlaylistKey(pl));
  }

  /** What a slot of a container that was not written shows after the commit. */
  lemma UntouchedContainerMember(t: Tables, x: Tx, s: Slot)
    requires Finished(t, x) && TablesOk(t) && s.container !in x.pending.rows
    ensures VisibleMember(t, x.pending, s) == ExpectedMember(Commit(t, x.pending), s)
  {
    assert s.container !in x.pending.membersAdded && s.container !in x.pending.membersCleared;
    assert s in t.members <==> ExpectedMember(t, s).Some?;
    if s.container in t.linked && s.position < |t.linked[s.container]| {
      KnownPlaylistLivesOn(t, x, t.linked[s.container][s.position]);
    }
  }

  lemma WrittenContainerMember(t: Tables, x: Tx, s: Slot)
    requires Finished(t, x) && TablesOk(t) && s.container in x.pending.rows && s.container.table != Playlists
    ensures VisibleMember(t, x.pending, s) == ExpectedMember(Commit(t, x.pending), s)
  {
    var c := s.container;
    assert MembersStand(t, x.view, x.pending.rows, x.pending.membersCleared, x.pending.membersAdded, c);
    if c in x.pending.membersAdded && s.position < |x.pending.membersAdded[c]| {
      LinkedPlaylistsLive(t, x, c, s.position);
    }
  }

  lemma PlaylistHasNoMembers(t: Tables, x: Tx, s: Slot)
    requires Finished(t, x) && TablesOk(t) && s.container.table == Playlists
    ensures VisibleMember(t, x.pending, s) == None == ExpectedMember(Commit(t, x.pending), s)
  {
    CommitLinked(t, x, s.container);
  }

  lemma CommittedMember(t: Tables, x: Tx, s: Slot)
    requires Finished(t, x) && TablesOk(t)
    ensures VisibleMember(t, x.pending, s) == ExpectedMember(Commit(t, x.pending), s)
  {
    if s.container.table == Playlists {
      PlaylistHasNoMembers(t, x, s);
    } else if s.container in x.pending.rows {
      WrittenContainerMember(t, x, s);
    } else {
      UntouchedContainerMember(t, x, s);
    }
  }

  /** The membership rows that t and p make visible. */
  ghost predicate ShowsMembers(t: Tables, p: Pending, members: map<Slot, nat>) {
    forall s :: if s in members then VisibleMember(t, p, s) == Some(members[s]) else VisibleMember(t, p, s).None?
  }

  lemma CommitShowsMembers(t: Tables, p: Pending)
    ensures ShowsMembers(t, p, Commit(t, p).members)
  {
  }

  lemma CommitMembersExact(t: Tables, x: Tx)
    requires Finished(t, x) && TablesOk(t)
    ensures MembersExact(Commit(t, x.pending))
  {
    var t' := Commit(t, x.pending);
    CommitShowsMembers(t, x.pending);
    forall s: Slot
      ensures if s in t'.members then ExpectedMember(t', s) == Some(t'.members[s]) else ExpectedMember(t', s).None?
    {
      CommittedMember(t, x, s);
    }
  }

  lemma WrittenPlaylistItem(t: Tables, x: Tx, s: ItemSlot)
    requires Finished(t, x) && ItemsExact(t) && PlaylistKey(s.playlist) in x.pending.rows
    ensures VisibleItem(t, x.pending, s) == ExpectedItem(Commit(t, x.pending), s)
  {
    assert ItemsStand(t, x.view.itemsDue, x.pending.rows, x.pending.itemsCleared, x.pending.itemsAdded, s.playlist);
    assert s.playlist !in x.view.itemsDue;
    assert s in t.items <==> ExpectedItem(t, s).Some?;
  }

  lemma UntouchedPlaylistItem(t: Tables, x: Tx, s: ItemSlot)
    requires Finished(t, x) && ItemsExact(t) && PlaylistKey(s.playlist) !in x.pending.rows
    ensures VisibleItem(t, x.pending, s) == ExpectedItem(Commit(t, x.pending), s)
  {
    assert s.playlist !in x.pending.itemsCleared && s.playlist !in x.pending.itemsAdded;
    assert s in t.items <==> ExpectedItem(t, s).Some?;
  }

  lemma CommitItemsExact(t: Tables, x: Tx)
    requires Finished(t, x) && ItemsExact(t)
    ensures ItemsExact(Commit(t, x.pending))
  {
    forall s: ItemSlot
      ensures VisibleItem(t, x.pending, s) == ExpectedItem(Commit(t, x.pending), s)
    {
      if PlaylistKey(s.playlist) in x.pending.rows {
        WrittenPlaylistItem(t, x, s);
      } else {
        UntouchedPlaylistItem(t, x, s);
      }
    }
  }

  lemma CommitSourcesLive(t: Tables, x: Tx)
    requires Finished(t, x) && SourcesLive(t)
    ensures SourcesLive(Commit(t, x.pending))
  {
    forall u | u in Commit(t, x.pending).sources
      ensures PlaylistKey(Commit(t, x.pending).sources[u]) in Commit(t, x.pending).rows
    {
      CommittedSourceLive(t, x, u);
    }
  }

  lemma CommittedSourceLive(t: Tables, x: Tx, u: string)
    requires EnsuredOk(t, x.view, x.pending) && SourcesLive(t) && u in Commit(t, x.pending).sources
    requires CutOk(t, x.pending.rows, x.pending.cut, x.pending.cutSources)
    ensures PlaylistKey(Commit(t, x.pending).sources[u]) in Commit(t, x.pending).rows
  {
    assert VisibleSource(t, x.pending, u).Some?;
    if u in x.pending.sources {
      assert x.pending.sources[u] in x.view.ensured;
    }
  }

  lemma CommitKeepsTables(t: Tables, x: Tx)
    requires Finished(t, x) && TablesOk(t)
    ensures TablesOk(Commit(t, x.pending))
  {
    CommitNoneReturned(t, x);
    CommitMembersExact(t, x);
    CommitItemsExact(t, x);
    CommitLinkedExact(t, x);
    CommitSourcesLive(t, x);
  }

  // ---------------------------------------------------------------------------------------
  // Commit: the other transactions
  // ---------------------------------------------------------------------------------------

  /** A row y read is after x's commit the same, or of a later generation, or buried. */
  lemma CommitKeepsSeen(t: Tables, x: Tx, seen: map<DocKey, Row>)
    requires Finished(t, x) && SeenOk(t, seen)
    ensures SeenOk(Commit(t, x.pending), seen)
  {
    var t' := Commit(t, x.pending);
    forall k | k in seen
      ensures Known(t', k) && (k in t'.rows ==> t'.rows[k] == seen[k] || seen[k].generation < t'.rows[k].generation)
    {
      CommitKeepsKnown(t, x, k);
      if k in x.pending.rows {
        assert RowStands(t, x.view, x.pending.rows, x.pending.tombstones, k);
      }
    }
  }

  lemma CommitKeepsLocks(t: Tables, x: Tx, y: Tx)
    requires Finished(t, x) && TxOk(t, y) && Apart(x, y)
    ensures LocksOk(Commit(t, x.pending), y.view, y.pending)
  {
    var t' := Commit(t, x.pending);
    forall id | id in y.view.held
      ensures Known(t', PlaylistKey(id))
    {
      CommitKeepsKnown(t, x, PlaylistKey(id));
    }
    forall k | k in x.pending.tombstones
      ensures k in x.view.locks
    {
      assert RowStands(t, x.view, x.pending.rows, x.pending.tombstones, k);
    }
  }

  /** A row y wrote is committed by nobody else. */
  lemma OthersRowsUnchanged(t: Tables, x: Tx, y: Tx, k: DocKey)
    requires Apart(x, y) && k in y.pending.rows
    ensures k in Commit(t, x.pending).rows <==> k in t.rows
    ensures k in t.rows ==> Commit(t, x.pending).rows[k] == t.rows[k]
  {
  }

  lemma CommitKeepsRows(t: Tables, x: Tx, y: Tx)
    requires TxOk(t, y) && Apart(x, y)
    ensures RowsOk(Commit(t, x.pending), y.view, y.pending.rows, y.pending.tombstones)
  {
    var t' := Commit(t, x.pending);
    forall k | k in y.pending.rows
      ensures RowStands(t', y.view, y.pending.rows, y.pending.tombstones, k)
    {
      OthersRowsUnchanged(t, x, y, k);
      assert RowStands(t, y.view, y.pending.rows, y.pending.tombstones, k);
    }
  }

  lemma CommitKeepsItems(t: Tables, x: Tx, y: Tx)
    requires TxOk(t, y) && Apart(x, y)
    ensures ItemsOk(Commit(t, x.pending), y.view.itemsDue, y.pending.rows, y.pending.itemsCleared, y.pending.itemsAdded)
  {
    var t' := Commit(t, x.pending);
    forall pl: nat | PlaylistKey(pl) in y.pending.rows
      ensures ItemsStand(t', y.view.itemsDue, y.pending.rows, y.pending.itemsCleared, y.pending.itemsAdded, pl)
    {
      OthersRowsUnchanged(t, x, y, PlaylistKey(pl));
      assert ItemsStand(t, y.view.itemsDue, y.pending.rows, y.pending.itemsCleared, y.pending.itemsAdded, pl);
    }
  }

  lemma CommitKeepsMembers(t: Tables, x: Tx, y: Tx)
    requires TxOk(t, y) && Apart(x, y)
    ensures MembersOk(Commit(t, x.pending), y.view, y.pending.rows, y.pending.membersCleared, y.pending.membersAdded)
  {
    var t' := Commit(t, x.pending);
    forall c | c in y.pending.rows && c.table != Playlists
      ensures MembersStand(t', y.view, y.pending.rows, y.pending.membersCleared, y.pending.membersAdded, c)
    {
      OthersRowsUnchanged(t, x, y, c);
      assert MembersStand(t, y.view, y.pending.rows, y.pending.membersCleared, y.pending.membersAdded, c);
    }
  }

  /** A commit links no playlist another transaction has locked: new membership and source rows name
      playlists the committing transaction locked itself. */
  lemma NewMemberIsLocked(t: Tables, x: Tx, s: Slot)
    requires Finished(t, x) && s in Commit(t, x.pending).members
    ensures var pl := Commit(t, x.pending).members[s];
            PlaylistKey(pl) in x.view.locks || (s in t.members && t.members[s] == pl)
  {
    if s.container in x.pending.membersAdded && s.position < |x.pending.membersAdded[s.container]| {
      LinkedPlaylistsLive(t, x, s.container, s.position);
    }
  }

  lemma NewSourceIsLocked(t: Tables, x: Tx, u: string)
    requires Finished(t, x) && u in Commit(t, x.pending).sources
    ensures var pl := Commit(t, x.pending).sources[u];
            PlaylistKey(pl) in x.view.locks || (u in t.sources && t.sources[u] == pl)
  {
  }

  lemma CommitKeepsCut(t: Tables, x: Tx, y: Tx)
    requires Finished(t, x) && TxOk(t, y) && Apart(x, y)
    ensures CutOk(Commit(t, x.pending), y.pending.rows, y.pending.cut, y.pending.cutSources)
  {
    var t' := Commit(t, x.pending);
    forall pl: nat | Deletes(y.pending.rows, pl)
      ensures PlaylistKey(pl) !in x.view.locks
    {
      assert RowStands(t, y.view, y.pending.rows, y.pending.tombstones, PlaylistKey(pl));
    }
    forall s | s in t'.members && Deletes(y.pending.rows, t'.members[s])
      ensures s in y.pending.cut && y.pending.cut[s] == t'.members[s]
    {
      NewMemberIsLocked(t, x, s);
    }
    forall u | u in t'.sources && Deletes(y.pending.rows, t'.sources[u])
      ensures u in y.pending.cutSources && y.pending.cutSources[u] == t'.sources[u]
    {
      NewSourceIsLocked(t, x, u);
    }
  }

  /** A playlist y ensured stays visible to it: only the holder of its lock could delete it. */
  lemma CommitKeepsEnsured(t: Tables, x: Tx, y: Tx)
    requires Finished(t, x) && TxOk(t, y) && Apart(x, y)
    ensures EnsuredOk(Commit(t, x.pending), y.view, y.pending)
  {
    forall id | id in y.view.ensured
      ensures VisibleRow(Commit(t, x.pending), y.pending, PlaylistKey(id)).Some?
    {
      if PlaylistKey(id) in x.pending.rows {
        assert RowStands(t, x.view, x.pending.rows, x.pending.tombstones, PlaylistKey(id));
      }
    }
  }

  /** A snapshot taken for a delete stays complete: no channel starts listing a locked playlist. */
  lemma CommitKeepsRead(t: Tables, x: Tx, y: Tx)
    requires Finished(t, x) && TxOk(t, y) && Apart(x, y)
    ensures ReadOk(Commit(t, x.pending), y.view, y.read)
  {
    if y.read.Taken? {
      var t', pl := Commit(t, x.pending), y.read.playlist;
      forall c: nat | Lists(t', c, pl)
        ensures Lists(t, c, pl)
      {
        var s :| s in t'.members && s.container == DocKey(Channels, c) && t'.members[s] == pl;
        NewMemberIsLocked(t, x, s);
      }
    }
  }

  lemma CommitKeepsOther(t: Tables, x: Tx, y: Tx)
    requires Finished(t, x) && TxOk(t, y) && Apart(x, y)
    ensures TxOk(Commit(t, x.pending), y)
  {
    CommitKeepsSeen(t, x, y.view.seen);
    CommitKeepsLocks(t, x, y);
    CommitKeepsRows(t, x, y);
    CommitKeepsItems(t, x, y);
    CommitKeepsMembers(t, x, y);
    CommitKeepsCut(t, x, y);
    CommitKeepsEnsured(t, x, y);
    CommitKeepsRead(t, x, y);
  }

  lemma CommitKeepsStore(s: Store, s': Store, i: nat)
    requires StoreOk(s) && CommitStep(s, s', i)
    ensures StoreOk(s')
  {
    var x := s.txs[i];
    assert Finished(s.tables, x);
    CommitKeepsTables(s.tables, x);
    forall j | j in s'.txs
      ensures TxOk(s'.tables, s'.txs[j])
    {
      assert Apart(x, s.txs[j]);
      CommitKeepsOther(s.tables, x, s.txs[j]);
    }
  }
}
