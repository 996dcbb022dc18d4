/** Runs are serializable: whatever requests did to one another's reads and waits, what is committed is what
    the same requests, run one after the other in the order of their commits, would have committed. */
module StoreSerial {
  import opened Documents
  import opened CoSigning
  import opened Authorization
  import opened OwnershipLaws
  import opened Batches
  import opened StoreModel
  import opened StoreDiscipline
  import opened StoreInvariant
  import opened StoreStatements
  import opened StoreCommits
  import opened StoreHistory
  import opened StoreRuns
  import opened StoreEffects
  import opened StoreGuarantees
  import opened StoreSlugs
  import opened StoreClear
  import opened StoreProgress

  // ---------------------------------------------------------------------------------------
  // The effect of a request depends only on the tables it commits on
  // ---------------------------------------------------------------------------------------

  /** Two transactions of one request that have done the same statements. */
  ghost predicate Twins(w: World, t: Tables, x: Tx, y: Tx) {
    && Committing(w, t, x) && Committing(w, t, y)
    && x.op == y.op && x.now == y.now && x.view == y.view
  }

  lemma BroughtInByBoth(w: World, t: Tables, x: Tx, y: Tx, k: DocKey)
    requires Twins(w, t, x, y) && k in x.pending.rows && k != Target(x.op)
    ensures k in y.pending.rows && y.pending.rows[k] == x.pending.rows[k]
  {
    assert IngestedRow(x.op, x.now, x.view.ensured, k, x.pending.rows[k]);
    assert RowStands(t, x.view, x.pending.rows, x.pending.tombstones, k);
    assert k == PlaylistKey(k.id);
    assert VisibleRow(t, y.pending, k).Some?;
  }

  lemma MapsAgree<K(!new), V>(a: map<K, V>, b: map<K, V>)
    requires forall k :: k in a <==> k in b
    requires forall k :: k in a ==> a[k] == b[k]
    ensures a == b
  {
  }

  lemma FewerRows(w: World, t: Tables, x: Tx, y: Tx)
    requires Twins(w, t, x, y)
    ensures forall k :: k in x.pending.rows ==> k in y.pending.rows && y.pending.rows[k] == x.pending.rows[k]
  {
    TargetStands(w, t, x);
    TargetStands(w, t, y);
    forall k | k in x.pending.rows
      ensures k in y.pending.rows && y.pending.rows[k] == x.pending.rows[k]
    {
      if k != Target(x.op) {
        BroughtInByBoth(w, t, x, y, k);
      }
    }
  }

  lemma SameRows(w: World, t: Tables, x: Tx, y: Tx)
    requires Twins(w, t, x, y)
    ensures x.pending.rows == y.pending.rows
  {
    FewerRows(w, t, x, y);
    FewerRows(w, t, y, x);
    MapsAgree(x.pending.rows, y.pending.rows);
  }

  lemma SameTombstones(w: World, t: Tables, x: Tx, y: Tx)
    requires Twins(w, t, x, y)
    ensures x.pending.tombstones == y.pending.tombstones
  {
    SameRows(w, t, x, y);
    forall k
      ensures k in x.pending.tombstones <==> k in y.pending.tombstones
    {
      CommitBuries(t, x, k);
      CommitBuries(t, y, k);
    }
  }

  lemma SameLinks(w: World, t: Tables, x: Tx, y: Tx, c: DocKey)
    requires Twins(w, t, x, y)
    ensures LinkedAfter(t, x.pending, c) == LinkedAfter(t, y.pending, c)
  {
    SameRows(w, t, x, y);
    if c in x.pending.rows && c.table != Playlists {
      assert MembersStand(t, x.view, x.pending.rows, x.pending.membersCleared, x.pending.membersAdded, c);
      assert MembersStand(t, y.view, y.pending.rows, y.pending.membersCleared, y.pending.membersAdded, c);
    }
  }

  lemma SameSources(w: World, t: Tables, x: Tx, y: Tx, u: string)
    requires Twins(w, t, x, y)
    ensures VisibleSource(t, x.pending, u) == VisibleSource(t, y.pending, u)
  {
    SameRows(w, t, x, y);
  }

  /** Rows and reference lists determine the membership and the index. */
  lemma ExactTablesAgree(a: Tables, b: Tables)
    requires MembersExact(a) && MembersExact(b) && ItemsExact(a) && ItemsExact(b)
    requires a.rows == b.rows && a.linked == b.linked
    ensures a.members == b.members && a.items == b.items
  {
    forall s
      ensures s in a.members <==> s in b.members
      ensures s in a.members ==> a.members[s] == b.members[s]
    {
      assert ExpectedMember(a, s) == ExpectedMember(b, s);
    }
    forall s
      ensures s in a.items <==> s in b.items
      ensures s in a.items ==> a.items[s] == b.items[s]
    {
      assert ExpectedItem(a, s) == ExpectedItem(b, s);
    }
  }

  /** The rows that t and p make visible. */
  ghost predicate ShowsRows(t: Tables, p: Pending, a: map<DocKey, Row>) {
    forall k :: if k in a then VisibleRow(t, p, k) == Some(a[k]) else VisibleRow(t, p, k).None?
  }

  lemma CommitShowsRows(t: Tables, p: Pending)
    ensures ShowsRows(t, p, Commit(t, p).rows)
  {
  }

  lemma SameShownRows(t: Tables, p: Pending, q: Pending, a: map<DocKey, Row>, b: map<DocKey, Row>)
    requires p.rows == q.rows && ShowsRows(t, p, a) && ShowsRows(t, q, b)
    ensures a == b
  {
    forall k
      ensures (k in a <==> k in b) && (k in a ==> a[k] == b[k])
    {
      assert VisibleRow(t, p, k) == VisibleRow(t, q, k);
    }
    MapsAgree(a, b);
  }

  lemma SameCommittedRows(t: Tables, p: Pending, q: Pending)
    requires p.rows == q.rows
    ensures Commit(t, p).rows == Commit(t, q).rows
  {
    CommitShowsRows(t, p);
    CommitShowsRows(t, q);
    SameShownRows(t, p, q, Commit(t, p).rows, Commit(t, q).rows);
  }

  lemma SameCommittedLink(t: Tables, p: Pending, q: Pending, c: DocKey)
    requires LinkedAfter(t, p, c) == LinkedAfter(t, q, c)
    ensures c in Commit(t, p).linked <==> c in Commit(t, q).linked
    ensures c in Commit(t, p).linked ==> Commit(t, p).linked[c] == Commit(t, q).linked[c]
  {
  }

  lemma SameLinkedAt(w: World, t: Tables, x: Tx, y: Tx, a: map<DocKey, seq<nat>>, b: map<DocKey, seq<nat>>, c: DocKey)
    requires Twins(w, t, x, y) && a == Commit(t, x.pending).linked && b == Commit(t, y.pending).linked
    ensures (c in a <==> c in b) && (c in a ==> a[c] == b[c])
  {
    SameLinks(w, t, x, y, c);
    SameCommittedLink(t, x.pending, y.pending, c);
  }

  lemma SameLinked(w: World, t: Tables, x: Tx, y: Tx, a: map<DocKey, seq<nat>>, b: map<DocKey, seq<nat>>)
    requires Twins(w, t, x, y) && a == Commit(t, x.pending).linked && b == Commit(t, y.pending).linked
    ensures a == b
  {
    forall c
      ensures (c in a <==> c in b) && (c in a ==> a[c] == b[c])
    {
      SameLinkedAt(w, t, x, y, a, b, c);
    }
    MapsAgree(a, b);
  }

  /** The map of source rows that t and p make visible. */
  ghost predicate ShowsSources(t: Tables, p: Pending, a: map<string, nat>) {
    forall u :: if u in a then VisibleSource(t, p, u) == Some(a[u]) else VisibleSource(t, p, u).None?
  }

  lemma CommitShowsSources(t: Tables, p: Pending)
    ensures ShowsSources(t, p, Commit(t, p).sources)
  {
  }

  lemma SameRecorded(w: World, t: Tables, x: Tx, y: Tx, a: map<string, nat>, b: map<string, nat>)
    requires Twins(w, t, x, y) && ShowsSources(t, x.pending, a) && ShowsSources(t, y.pending, b)
    ensures a == b
  {
    forall u
      ensures (u in a <==> u in b) && (u in a ==> a[u] == b[u])
    {
      SameSources(w, t, x, y, u);
    }
    MapsAgree(a, b);
  }

  /** The effect of a request is determined by the tables it commits on: it makes no difference what
      happened between its statements. */
  lemma SameEffect(w: World, t: Tables, x: Tx, y: Tx)
    requires Twins(w, t, x, y) && TablesOk(t)
    ensures Commit(t, x.pending) == Commit(t, y.pending)
  {
    SameRows(w, t, x, y);
    SameCommittedRows(t, x.pending, y.pending);
    SameTombstones(w, t, x, y);
    SameLinked(w, t, x, y, Commit(t, x.pending).linked, Commit(t, y.pending).linked);
    CommitShowsSources(t, x.pending);
    CommitShowsSources(t, y.pending);
    SameRecorded(w, t, x, y, Commit(t, x.pending).sources, Commit(t, y.pending).sources);
    CommitKeepsTables(t, x);
    CommitKeepsTables(t, y);
    ExactTablesAgree(Commit(t, x.pending), Commit(t, y.pending));
  }

  // ---------------------------------------------------------------------------------------
  // Nothing stands against a request that commits
  // ---------------------------------------------------------------------------------------

  predicate SameSlug(a: Option<Row>, b: Option<Row>) {
    a.Some? && b.Some? && a.value.slug == b.value.slug
  }

  /** The new rows of a transaction have slugs of their own. */
  ghost predicate SlugsFit(t: Tables, rows: Rows) {
    && (forall k :: k in rows && rows[k].Some? && k !in t.rows ==> SlugUnused(t, k.table, rows[k].value.slug))
    && (forall k, h :: k in rows && h in rows && k.table == h.table && SameSlug(rows[k], rows[h]) ==> k == h)
  }

  lemma TidySlugsFit(s: Store, i: nat)
    requires Tidy(s) && i in s.txs
    ensures SlugsFit(s.tables, s.txs[i].pending.rows)
  {
    var t, rows := s.tables, s.txs[i].pending.rows;
    OwnSlugsClaimed(s, i);
    forall k | k in rows && rows[k].Some? && k !in t.rows
      ensures SlugUnused(t, k.table, rows[k].value.slug)
    {
      assert PendsSlug(rows, k, rows[k].value.slug);
      forall h | h in t.rows && h.table == k.table
        ensures t.rows[h].slug != rows[k].value.slug
      {
        assert Claims(s, h, t.rows[h].slug);
      }
    }
    forall k, h | k in rows && h in rows && k.table == h.table && SameSlug(rows[k], rows[h])
      ensures k == h
    {
      assert PendsSlug(rows, k, rows[k].value.slug) && PendsSlug(rows, h, rows[k].value.slug);
    }
  }

  lemma HeldGrowsOnce(v: View, stmt: Stmt)
    ensures v.held <= ViewAfter(v, stmt).held
  {
  }

  lemma {:induction false} HeldGrows(v: View, todo: seq<Stmt>)
    ensures v.held <= ViewAfterAll(v, todo).held
    decreases |todo|
  {
    if todo != [] {
      HeldGrowsOnce(v, todo[0]);
      HeldGrows(ViewAfter(v, todo[0]), todo[1..]);
    }
  }

  lemma {:induction false} ResolvedAreHeld(v: View, todo: seq<Stmt>, n: nat)
    requires n < |todo| && todo[n].Resolve? && todo[n].ref.held
    ensures todo[n].ref.ingested.id in ViewAfterAll(v, todo).held
    decreases |todo|
  {
    if n == 0 {
      HeldGrows(ViewAfter(v, todo[0]), todo[1..]);
    } else {
      ResolvedAreHeld(ViewAfter(v, todo[0]), todo[1..], n - 1);
    }
  }

  /** What a transaction will have done at its end is what its request does. */
  ghost predicate OnCourse(w: World, x: Tx) {
    ViewAfterAll(x.view, x.todo) == ViewAfterAll(EMPTY_VIEW, Program(w, x.op))
  }

  lemma ProgramResolves(w: World, op: Op, n: nat) returns (m: nat)
    requires Links(op) && n < |op.refs|
    ensures m < |Program(w, op)| && Program(w, op)[m] == Resolve(op.refs[n])
  {
    m := if op.CreateContainer? then n else n + 1;
    assert ResolveAll(op.refs)[n] == Resolve(op.refs[n]);
  }

  lemma HeldAtEnd(w: World, x: Tx, r: Reference)
    requires OnCourse(w, x) && x.todo == [] && Links(x.op) && r in x.op.refs && r.held
    ensures r.ingested.id in x.view.held
  {
    var n :| 0 <= n < |x.op.refs| && x.op.refs[n] == r;
    var m := ProgramResolves(w, x.op, n);
    ResolvedAreHeld(EMPTY_VIEW, Program(w, x.op), m);
  }

  /** A playlist that a transaction links is not buried, and either live or brought in. */
  lemma EnsuredStands(w: World, t: Tables, x: Tx, id: nat)
    requires Committing(w, t, x) && NoneReturned(t) && Links(x.op) && id in x.view.ensured
    ensures PlaylistKey(id) !in t.tombstones
    ensures PlaylistKey(id) in t.rows || PlaylistKey(id) in x.pending.rows
  {
    var k := PlaylistKey(id);
    assert VisibleRow(t, x.pending, k).Some?;
    if k in x.pending.rows {
      assert RowStands(t, x.view, x.pending.rows, x.pending.tombstones, k);
    }
  }

  lemma LinkedIsEnsured(w: World, t: Tables, x: Tx, n: nat)
    requires Committing(w, t, x) && Links(x.op) && n < |Linked(x.op)|
    ensures Linked(x.op)[n].id in x.view.ensured
  {
    ContainerWritePending(w, t, x);
    LinkedPlaylistsLive(t, x, Target(x.op), n);
    assert Ids(Linked(x.op))[n] == Linked(x.op)[n].id;
  }

  lemma HeldStayLive(w: World, t: Tables, x: Tx)
    requires Committing(w, t, x) && NoneReturned(t) && Links(x.op) && OnCourse(w, x)
    ensures HeldAreLive(t, x.op.refs)
  {
    forall r | r in x.op.refs && r.held
      ensures PlaylistKey(r.ingested.id) in t.rows
    {
      HeldAtEnd(w, x, r);
      var n :| 0 <= n < |x.op.refs| && x.op.refs[n] == r;
      assert Linked(x.op)[n] == r.ingested;
      LinkedIsEnsured(w, t, x, n);
      EnsuredStands(w, t, x, r.ingested.id);
    }
  }

  lemma LinkedNotBuried(w: World, t: Tables, x: Tx)
    requires Committing(w, t, x) && NoneReturned(t) && Links(x.op)
    ensures PlaylistKeys(Ids(Linked(x.op))) !! t.tombstones
  {
    forall k | k in PlaylistKeys(Ids(Linked(x.op)))
      ensures k !in t.tombstones
    {
      var n :| 0 <= n < |Linked(x.op)| && Ids(Linked(x.op))[n] == k.id;
      LinkedIsEnsured(w, t, x, n);
      EnsuredStands(w, t, x, k.id);
    }
  }

  /** The items of a written playlist are among those added. */
  lemma WrittenItemsAdded(t: Tables, x: Tx, id: nat)
    requires Finished(t, x) && PlaylistKey(id) in x.pending.rows && x.pending.rows[PlaylistKey(id)].Some?
    ensures id in x.pending.itemsAdded
    ensures x.pending.itemsAdded[id] == x.pending.rows[PlaylistKey(id)].value.body.payload.items
  {
    assert ItemsStand(t, x.view.itemsDue, x.pending.rows, x.pending.itemsCleared, x.pending.itemsAdded, id);
  }

  /** A reference to a playlist that is not stored is a row of this transaction. */
  lemma NewcomerPends(w: World, t: Tables, x: Tx, id: nat)
    requires Committing(w, t, x) && NoneReturned(t) && Links(x.op)
    requires id in ById(Linked(x.op)) && PlaylistKey(id) !in t.rows
    ensures PlaylistKey(id) in x.pending.rows
    ensures var b := ById(Linked(x.op))[id]; x.pending.rows[PlaylistKey(id)] == Some(Row(b.slug, b.body, x.now, x.now))
  {
    ByIdCorrect(Linked(x.op));
    var n :| 0 <= n < |Linked(x.op)| && Linked(x.op)[n].id == id;
    LinkedIsEnsured(w, t, x, n);
    EnsuredStands(w, t, x, id);
    assert IngestedRow(x.op, x.now, x.view.ensured, PlaylistKey(id), x.pending.rows[PlaylistKey(id)]);
  }

  lemma NewcomersFitted(w: World, t: Tables, x: Tx)
    requires Committing(w, t, x) && NoneReturned(t) && Links(x.op)
    requires SlugsFit(t, x.pending.rows) && ItemsDistinct(x.pending)
    ensures NewcomersFit(t, ById(Linked(x.op)))
  {
    var batch := ById(Linked(x.op));
    forall id | id in batch && PlaylistKey(id) !in t.rows
      ensures SlugUnused(t, Playlists, batch[id].slug) && DistinctItemIds(batch[id].body.payload.items)
    {
      NewcomerPends(w, t, x, id);
      WrittenItemsAdded(t, x, id);
    }
    forall a, b | a in batch && PlaylistKey(a) !in t.rows && b in batch && PlaylistKey(b) !in t.rows && a != b
      ensures batch[a].slug != batch[b].slug
    {
      NewcomerPends(w, t, x, a);
      NewcomerPends(w, t, x, b);
      assert PlaylistKey(a) != PlaylistKey(b);
    }
  }

  lemma ReferencesFitted(w: World, t: Tables, x: Tx)
    requires Committing(w, t, x) && NoneReturned(t) && Links(x.op) && OnCourse(w, x)
    requires SlugsFit(t, x.pending.rows) && ItemsDistinct(x.pending)
    ensures ReferencesFit(t, x.op.refs)
  {
    HeldStayLive(w, t, x);
    LinkedNotBuried(w, t, x);
    NewcomersFitted(w, t, x);
  }

  lemma CreatedIsNew(w: World, t: Tables, x: Tx)
    requires Committing(w, t, x) && NoneReturned(t) && Creates(x.op) && SlugsFit(t, x.pending.rows)
    ensures !Known(t, Target(x.op)) && SlugUnused(t, Target(x.op).table, x.op.create.doc.payload.slug)
  {
    CreateInstalls(w, t, x);
    TargetStands(w, t, x);
  }

  lemma WrittenPlaylistItems(w: World, t: Tables, x: Tx)
    requires Committing(w, t, x) && (x.op.CreatePlaylist? || x.op.ReplacePlaylist?) && ItemsDistinct(x.pending)
    ensures DistinctItemIds(Stored(w, x.op).payload.items)
  {
    TargetStands(w, t, x);
    WrittenItemsAdded(t, x, Target(x.op).id);
  }

  /** When a request commits nothing stored stands against it. */
  lemma CommittingIsUnobstructed(w: World, t: Tables, x: Tx)
    requires Committing(w, t, x) && NoneReturned(t) && OnCourse(w, x)
    requires SlugsFit(t, x.pending.rows) && ItemsDistinct(x.pending)
    ensures Unobstructed(t, x.op)
  {
    match x.op {
      case CreatePlaylist(_) =>
        CreatedIsNew(w, t, x);
        WrittenPlaylistItems(w, t, x);
      case ReplacePlaylist(_, _, _) =>
        ReplaceInstalls(w, t, x);
        WrittenPlaylistItems(w, t, x);
      case CreateContainer(_, _, _) =>
        CreatedIsNew(w, t, x);
        ReferencesFitted(w, t, x);
      case ReplaceContainer(_, _, _, _) =>
        ReplaceInstalls(w, t, x);
        ReferencesFitted(w, t, x);
      case _ => DeleteRemoves(w, t, x);
    }
  }

  // ---------------------------------------------------------------------------------------
  // Every transaction does its whole request
  // ---------------------------------------------------------------------------------------

  ghost predicate Steered(w: World, x: Tx) {
    Admitted(w, x.op) && OnCourse(w, x)
  }

  ghost predicate AllSteered(w: World, s: Store) {
    forall i :: i in s.txs ==> Steered(w, s.txs[i])
  }

  lemma AdvanceSteered(w: World, t: Tables, x: Tx)
    requires Steered(w, x) && x.todo != []
    ensures Steered(w, Advance(t, x)) && Steered(w, Advance(t, x).(read := Abandoned))
  {
    assert ViewAfterAll(x.view, x.todo) == ViewAfterAll(ViewAfter(x.view, x.todo[0]), x.todo[1..]);
  }

  lemma PutKeepsSteered(w: World, s: Store, s': Store, i: nat, y: Tx)
    requires AllSteered(w, s) && s'.txs == s.txs[i := y] && Steered(w, y)
    ensures AllSteered(w, s')
  {
    forall j | j in s'.txs
      ensures Steered(w, s'.txs[j])
    {
      assert s'.txs[j] == if j == i then y else s.txs[j];
    }
  }

  lemma RemoveKeepsSteered(w: World, s: Store, s': Store, i: nat)
    requires AllSteered(w, s) && s'.txs == s.txs - {i}
    ensures AllSteered(w, s')
  {
    forall j | j in s'.txs
      ensures Steered(w, s'.txs[j])
    {
      assert s'.txs[j] == s.txs[j];
    }
  }

  lemma StmtKeepsSteered(w: World, s: Store, s': Store, i: nat)
    requires AllSteered(w, s) && StmtStep(s, s', i)
    ensures AllSteered(w, s')
  {
    AdvanceSteered(w, s.tables, s.txs[i]);
    PutKeepsSteered(w, s, s', i, Advance(s.tables, s.txs[i]));
  }

  lemma SnapshotKeepsSteered(w: World, s: Store, s': Store, i: nat, rows: seq<nat>)
    requires AllSteered(w, s) && SnapshotStep(s, s', i, rows)
    ensures AllSteered(w, s')
  {
    assert Steered(w, s.txs[i]);
    PutKeepsSteered(w, s, s', i, s.txs[i].(read := Taken(s.txs[i].read.playlist, rows)));
  }

  lemma TimeoutKeepsSteered(w: World, s: Store, s': Store, i: nat)
    requires AllSteered(w, s) && TimeoutStep(s, s', i)
    ensures AllSteered(w, s')
  {
    AdvanceSteered(w, s.tables, s.txs[i]);
    PutKeepsSteered(w, s, s', i, Advance(s.tables, s.txs[i]).(read := Abandoned));
  }

  lemma StepKeepsSteered(w: World, s: Store, s': Store)
    requires AllSteered(w, s) && Step(w, s, s')
    ensures AllSteered(w, s')
  {
    if i, op, now :| BeginStep(w, s, s', i, op, now) {
      PutKeepsSteered(w, s, s', i, Begun(w, op, now));
    } else if i :| StmtStep(s, s', i) {
      StmtKeepsSteered(w, s, s', i);
    } else if i, rows :| SnapshotStep(s, s', i, rows) {
      SnapshotKeepsSteered(w, s, s', i, rows);
    } else if i :| TimeoutStep(s, s', i) {
      TimeoutKeepsSteered(w, s, s', i);
    } else {
      var i :| i in s.txs && s'.txs == s.txs - {i};
      RemoveKeepsSteered(w, s, s', i);
    }
  }

  lemma RunStepKeepsSteered(w: World, run: seq<Store>, n: nat)
    requires Reached(w, run, n + 1) && AllSteered(w, run[n])
    ensures AllSteered(w, run[n + 1])
  {
    RunSteps(w, run, n);
    StepKeepsSteered(w, run[n], run[n + 1]);
  }

  lemma {:induction false} ReachedSteered(w: World, run: seq<Store>, n: nat)
    requires Reached(w, run, n)
    ensures AllSteered(w, run[n])
  {
    if n > 0 {
      ReachedSteered(w, run, n - 1);
      RunStepKeepsSteered(w, run, n - 1);
    }
  }

  // ---------------------------------------------------------------------------------------
  // Serializability
  // ---------------------------------------------------------------------------------------

  lemma CommitIsPerformed(w: World, t: Tables, x: Tx)
    requires Committing(w, t, x) && Steered(w, x) && TablesOk(t)
    requires SlugsFit(t, x.pending.rows) && ItemsDistinct(x.pending)
    ensures Unobstructed(t, x.op) && Commit(t, x.pending) == Performed(w, t, Request(x.op, x.now))
  {
    CommittingIsUnobstructed(w, t, x);
    var path, y := RequestGoesThrough(w, t, x.op, x.now);
    SameEffect(w, t, x, y);
  }

  /** Every commit of every run is an admitted request that nothing stood against on the tables it commits
      on, and leaves what that request alone, started on those tables, would leave. */
  lemma CommitIsSerial(w: World, run: seq<Store>, n: nat, i: nat)
    requires Reached(w, run, n + 1) && CommitStep(run[n], run[n + 1], i)
    ensures var t, x := run[n].tables, run[n].txs[i];
            && Admitted(w, x.op) && Unobstructed(t, x.op)
            && run[n + 1].tables == Performed(w, t, Request(x.op, x.now))
  {
    ReachedCommit(w, run, n, i);
    ReachedTidy(w, run, n);
    TidySlugsFit(run[n], i);
    ReachedSteered(w, run, n);
    assert Steered(w, run[n].txs[i]);
    CommitIsPerformed(w, run[n].tables, run[n].txs[i]);
  }

  ghost predicate Commits(s: Store, s': Store) {
    exists i :: CommitStep(s, s', i)
  }

  ghost function CommittedRequest(s: Store, s': Store): Request
    requires Commits(s, s')
  {
    var i :| CommitStep(s, s', i);
    Request(s.txs[i].op, s.txs[i].now)
  }

  /** The requests committed up to state n of a run, in the order of their commits. */
  ghost function Committed(run: seq<Store>, n: nat): seq<Request>
    requires n < |run|
  {
    if n == 0 then []
    else if Commits(run[n - 1], run[n]) then Committed(run, n - 1) + [CommittedRequest(run[n - 1], run[n])]
    else Committed(run, n - 1)
  }

  /** The tables after requests have been run one after the other from the empty store. */
  function Replay(w: World, requests: seq<Request>): Tables
    decreases |requests|
  {
    if requests == [] then EMPTY_TABLES
    else Performed(w, Replay(w, requests[..|requests| - 1]), requests[|requests| - 1])
  }

  /** Each of the requests was admitted, and nothing stood against it when its turn came. */
  ghost predicate Replays(w: World, requests: seq<Request>)
    decreases |requests|
  {
    requests == [] ||
    (var init, last := requests[..|requests| - 1], requests[|requests| - 1];
     Replays(w, init) && Admitted(w, last.op) && Unobstructed(Replay(w, init), last.op))
  }

  lemma ReplayOneMore(w: World, requests: seq<Request>, r: Request)
    requires Replays(w, requests) && Admitted(w, r.op) && Unobstructed(Replay(w, requests), r.op)
    ensures Replays(w, requests + [r])
    ensures Replay(w, requests + [r]) == Performed(w, Replay(w, requests), r)
  {
    var more := requests + [r];
    assert more[..|more| - 1] == requests && more[|more| - 1] == r;
  }

  /** The tables of state n are those of a replay of the requests committed up to it. */
  ghost predicate InCommitOrder(w: World, run: seq<Store>, n: nat)
    requires n < |run|
  {
    Replays(w, Committed(run, n)) && run[n].tables == Replay(w, Committed(run, n))
  }

  lemma StartInOrder(w: World, run: seq<Store>)
    requires run != [] && run[0] == EMPTY_STORE
    ensures InCommitOrder(w, run, 0)
  {
    assert Committed(run, 0) == [];
  }

  lemma StepInOrder(w: World, run: seq<Store>, n: nat)
    requires Reached(w, run, n + 1) && InCommitOrder(w, run, n)
    ensures InCommitOrder(w, run, n + 1)
  {
    RunSteps(w, run, n);
    if Commits(run[n], run[n + 1]) {
      var i :| CommitStep(run[n], run[n + 1], i) && CommittedRequest(run[n], run[n + 1])
                                                    == Request(run[n].txs[i].op, run[n].txs[i].now);
      CommitIsSerial(w, run, n, i);
      ReplayOneMore(w, Committed(run, n), CommittedRequest(run[n], run[n + 1]));
    } else {
      OnlyCommitsWrite(w, run[n], run[n + 1]);
    }
  }

  lemma OrderCarries(w: World, run: seq<Store>, m: nat, holds: nat -> bool)
    requires Reached(w, run, m + 1)
    requires holds == ((k: nat) => k < |run| && InCommitOrder(w, run, k))
    ensures Carries(holds, m)
  {
    if holds(m) {
      StepInOrder(w, run, m);
    }
  }

  /** The tables of every reachable state are what the committed requests leave when they are run one
      after the other, in the order of their commits, each admitted and unobstructed at its turn. */
  lemma CommitOrderIsSerial(w: World, run: seq<Store>, n: nat)
    requires Reached(w, run, n)
    ensures Replays(w, Committed(run, n)) && run[n].tables == Replay(w, Committed(run, n))
  {
    var holds := (k: nat) => k < |run| && InCommitOrder(w, run, k);
    StartInOrder(w, run);
    forall m: nat | m < n
      ensures Carries(holds, m)
    {
      OrderCarries(w, run, m, holds);
    }
    Induction(holds, n);
  }

  lemma StepsJoinAt(w: World, a: seq<Store>, b: seq<Store>, n: nat)
    requires a != [] && b != [] && a[|a| - 1] == b[0] && n + 1 < |a + b[1..]|
    requires n + 1 < |a| ==> StepsAt(w, a, n)
    requires n + 1 >= |a| ==> StepsAt(w, b, n + 1 - |a|)
    ensures StepsAt(w, a + b[1..], n)
  {
    if n + 1 < |a| {
      SameStates(w, a, n, a + b[1..], n);
    } else {
      SameStates(w, b, n + 1 - |a|, a + b[1..], n);
    }
  }

  lemma StepsJoin(w: World, a: seq<Store>, b: seq<Store>)
    requires StepsOn(w, a) && StepsOn(w, b) && a[|a| - 1] == b[0]
    ensures StepsOn(w, a + b[1..])
  {
    forall n: nat | n + 1 < |a + b[1..]|
      ensures StepsAt(w, a + b[1..], n)
    {
      StepsJoinAt(w, a, b, n);
    }
  }

  lemma OneAtATimeJoin(a: seq<Store>, b: seq<Store>)
    requires OneAtATime(a) && OneAtATime(b) && b != []
    ensures OneAtATime(a + b[1..])
  {
    var joined := a + b[1..];
    forall n: nat | n < |joined|
      ensures LoneAt(joined, n)
    {
      if n < |a| {
        assert LoneAt(a, n);
      } else {
        assert LoneAt(b, n + 1 - |a|);
      }
    }
  }

  /** A run in which no two transactions are ever open at once, ending in the given tables. */
  ghost predicate SerialRun(w: World, serial: seq<Store>, t: Tables) {
    Run(w, serial) && OneAtATime(serial) && serial[|serial| - 1] == Store(t, map[])
  }

  lemma SerialRunGrows(w: World, serial: seq<Store>, t: Tables, r: Request) returns (longer: seq<Store>)
    requires SerialRun(w, serial, t) && TablesOk(t) && Admitted(w, r.op) && Unobstructed(t, r.op)
    ensures SerialRun(w, longer, Performed(w, t, r)) && TablesOk(Performed(w, t, r))
  {
    var path, y := RequestGoesThrough(w, t, r.op, r.now);
    StepsJoin(w, serial, path);
    OneAtATimeJoin(serial, path);
    CommitKeepsTables(t, y);
    longer := serial + path[1..];
  }

  lemma {:induction false} ReplayIsRun(w: World, requests: seq<Request>) returns (serial: seq<Store>)
    requires Replays(w, requests)
    ensures SerialRun(w, serial, Replay(w, requests)) && TablesOk(Replay(w, requests))
    decreases |requests|
  {
    if requests == [] {
      serial := [EMPTY_STORE];
    } else {
      serial := ReplayIsRun(w, requests[..|requests| - 1]);
      serial := SerialRunGrows(w, serial, Replay(w, requests[..|requests| - 1]), requests[|requests| - 1]);
    }
  }

  /** Whatever tables interleaved transactions reach, a run without any interleaving reaches as well. */
  lemma Serializable(w: World, run: seq<Store>, n: nat) returns (serial: seq<Store>)
    requires Reached(w, run, n)
    ensures SerialRun(w, serial, run[n].tables)
  {
    CommitOrderIsSerial(w, run, n);
    serial := ReplayIsRun(w, Committed(run, n));
  }
}
