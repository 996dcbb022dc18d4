/** When a request that has the store to itself succeeds: each of its statements in turn, which is the case
    exactly when nothing stored stands against the request. What that is can be read off the tables
    beforehand. */
module StoreClear {
  import opened Documents
  import opened CoSigning
  import opened Authorization
  import opened OwnershipLaws
  import opened Batches
  import opened StoreModel
  import opened StoreDiscipline
  import opened StoreInvariant
  import opened StoreStatements
  import opened StoreCommits
  import opened StoreEffects

  // ---------------------------------------------------------------------------------------
  // A program on its own
  // ---------------------------------------------------------------------------------------

  /** No stored row of the table has the slug. */
  predicate SlugUnused(t: Tables, table: Table, slug: string) {
    forall k :: k in t.rows && k.table == table ==> t.rows[k].slug != slug
  }

  /** Neither a stored row nor one of this transaction has the slug. */
  predicate SlugOpen(t: Tables, p: Pending, table: Table, slug: string) {
    SlugUnused(t, table, slug) && !HoldsSlug(p.rows, table, slug)
  }

  predicate BatchGoesIn(t: Tables, p: Pending, batch: map<nat, Ingested>) {
    && (forall id :: id in MissingFrom(t, p, batch) ==>
          SlugOpen(t, p, Playlists, batch[id].slug) && DistinctItemIds(batch[id].body.payload.items))
    && (forall a, b :: a in MissingFrom(t, p, batch) && b in MissingFrom(t, p, batch) && a != b
          ==> batch[a].slug != batch[b].slug)
  }

  ghost predicate ItemsGoIn(t: Tables, p: Pending, pl: nat, items: seq<Item>) {
    && DistinctItemIds(items)
    && forall n, m :: 0 <= n < |items| && VisibleItem(t, p, ItemSlot(pl, m)).Some?
         ==> VisibleItem(t, p, ItemSlot(pl, m)).value.id != items[n].id
  }

  predicate MembersGoIn(t: Tables, p: Pending, c: DocKey, refs: seq<Ingested>) {
    && VisibleRow(t, p, c).Some?
    && forall n :: 0 <= n < |refs| ==>
         VisibleMember(t, p, Slot(c, n)).None? && VisibleRow(t, p, PlaylistKey(refs[n].id)).Some?
  }

  /** The statement succeeds when no other transaction is open. */
  ghost predicate Succeeds(t: Tables, p: Pending, stmt: Stmt) {
    match stmt
    case Load(k, row) => k in t.rows && t.rows[k] == row
    case Resolve(r) => r.held ==> PlaylistKey(r.ingested.id) in t.rows
    case CheckTombstones(ks) => ks !! t.tombstones + p.tombstones
    case InsertRow(k, slug, _) => VisibleRow(t, p, k).None? && SlugOpen(t, p, k.table, slug)
    case UpdateRow(k, base, _, _) => MatchesGeneration(t, p, k, base.generation)
    case DeleteRow(k, base, _) => MatchesGeneration(t, p, k, base.generation)
    case AddItems(pl, items) => ItemsGoIn(t, p, pl, items)
    case InsertMissing(batch, _) => BatchGoesIn(t, p, batch)
    case AddMembers(c, refs) => MembersGoIn(t, p, c, refs)
    case _ => true
  }

  lemma AloneSlugFree(t: Tables, i: nat, x: Tx, table: Table, slug: string)
    ensures SlugFree(Store(t, map[i := x]), table, slug) <==> SlugOpen(t, x.pending, table, slug)
  {
    var s := Store(t, map[i := x]);
    assert i in s.txs && s.txs[i] == x;
  }

  lemma AloneInsert(t: Tables, i: nat, x: Tx)
    requires x.todo != [] && x.todo[0].InsertRow?
    ensures Enabled(Store(t, map[i := x]), i) <==> Succeeds(t, x.pending, x.todo[0])
  {
    AloneSlugFree(t, i, x, x.todo[0].key.table, x.todo[0].slug);
  }

  lemma AloneInsertMissing(t: Tables, i: nat, x: Tx)
    requires x.todo != [] && x.todo[0].InsertMissing?
    ensures Enabled(Store(t, map[i := x]), i) <==> Succeeds(t, x.pending, x.todo[0])
  {
    var batch := x.todo[0].batch;
    forall id | id in MissingFrom(t, x.pending, batch)
      ensures SlugFree(Store(t, map[i := x]), Playlists, batch[id].slug)
         <==> SlugOpen(t, x.pending, Playlists, batch[id].slug)
    {
      AloneSlugFree(t, i, x, Playlists, batch[id].slug);
    }
  }

  /** The machine lets a lone transaction run a statement exactly when the statement succeeds. */
  lemma SucceedsIsEnabled(t: Tables, i: nat, x: Tx)
    requires x.todo != [] && (x.todo[0].AwaitRead? ==> x.read.Taken?)
    ensures Enabled(Store(t, map[i := x]), i) <==> Succeeds(t, x.pending, x.todo[0])
  {
    match x.todo[0] {
      case InsertRow(_, _, _) => AloneInsert(t, i, x);
      case InsertMissing(_, _) => AloneInsertMissing(t, i, x);
      case _ =>
    }
  }

  /** Every statement of the list succeeds in its turn. */
  ghost predicate Clear(t: Tables, p: Pending, todo: seq<Stmt>, now: nat)
    decreases |todo|
  {
    todo == [] || (Succeeds(t, p, todo[0]) && Clear(t, PendingAfter(t, p, todo[0], now), todo[1..], now))
  }

  function PendingAfterAll(t: Tables, p: Pending, todo: seq<Stmt>, now: nat): Pending
    decreases |todo|
  {
    if todo == [] then p else PendingAfterAll(t, PendingAfter(t, p, todo[0], now), todo[1..], now)
  }

  lemma ClearFirst(t: Tables, p: Pending, a: Stmt, rest: seq<Stmt>, now: nat)
    ensures Clear(t, p, [a] + rest, now) <==> Succeeds(t, p, a) && Clear(t, PendingAfter(t, p, a, now), rest, now)
    ensures PendingAfterAll(t, p, [a] + rest, now) == PendingAfterAll(t, PendingAfter(t, p, a, now), rest, now)
  {
    assert ([a] + rest)[0] == a && ([a] + rest)[1..] == rest;
  }

  lemma ClearTwo(t: Tables, p: Pending, a: Stmt, b: Stmt, now: nat)
    ensures var p1 := PendingAfter(t, p, a, now);
            && (Clear(t, p, [a, b], now) <==> Succeeds(t, p, a) && Succeeds(t, p1, b))
            && PendingAfterAll(t, p, [a, b], now) == PendingAfter(t, p1, b, now)
  {
    var p1 := PendingAfter(t, p, a, now);
    ClearFirst(t, p, a, [b], now);
    ClearFirst(t, p1, b, [], now);
    assert [a] + [b] == [a, b] && [b] + [] == [b];
  }

  lemma ClearThree(t: Tables, p: Pending, a: Stmt, b: Stmt, c: Stmt, now: nat)
    ensures var p1 := PendingAfter(t, p, a, now);
            var p2 := PendingAfter(t, p1, b, now);
            && (Clear(t, p, [a, b, c], now) <==> Succeeds(t, p, a) && Succeeds(t, p1, b) && Succeeds(t, p2, c))
            && PendingAfterAll(t, p, [a, b, c], now) == PendingAfter(t, p2, c, now)
  {
    ClearFirst(t, p, a, [b, c], now);
    ClearTwo(t, PendingAfter(t, p, a, now), b, c, now);
    assert [a] + [b, c] == [a, b, c];
  }

  lemma ClearFour(t: Tables, p: Pending, a: Stmt, b: Stmt, c: Stmt, d: Stmt, now: nat)
    ensures var p1 := PendingAfter(t, p, a, now);
            var p2 := PendingAfter(t, p1, b, now);
            var p3 := PendingAfter(t, p2, c, now);
            && (Clear(t, p, [a, b, c, d], now) <==>
                  Succeeds(t, p, a) && Succeeds(t, p1, b) && Succeeds(t, p2, c) && Succeeds(t, p3, d))
            && PendingAfterAll(t, p, [a, b, c, d], now) == PendingAfter(t, p3, d, now)
  {
    ClearFirst(t, p, a, [b, c, d], now);
    ClearThree(t, PendingAfter(t, p, a, now), b, c, d, now);
    assert [a] + [b, c, d] == [a, b, c, d];
  }

  lemma {:induction false} ClearSplit(t: Tables, p: Pending, a: seq<Stmt>, b: seq<Stmt>, now: nat)
    ensures Clear(t, p, a + b, now) <==> Clear(t, p, a, now) && Clear(t, PendingAfterAll(t, p, a, now), b, now)
    ensures PendingAfterAll(t, p, a + b, now) == PendingAfterAll(t, PendingAfterAll(t, p, a, now), b, now)
    decreases |a|
  {
    if a == [] {
      assert a + b == b;
    } else {
      assert (a + b)[0] == a[0] && (a + b)[1..] == a[1..] + b;
      ClearSplit(t, PendingAfter(t, p, a[0], now), a[1..], b, now);
    }
  }

  /** Four lists in a row of which only the third leaves anything pending for the fourth. */
  lemma ClearInParts(t: Tables, p: Pending, a: seq<Stmt>, b: seq<Stmt>, c: seq<Stmt>, q: Pending, d: seq<Stmt>,
                     now: nat)
    requires PendingAfterAll(t, p, a, now) == p && PendingAfterAll(t, p, b, now) == p
    requires PendingAfterAll(t, p, c, now) == q
    ensures Clear(t, p, a + b + c + d, now)
       <==> Clear(t, p, a, now) && Clear(t, p, b, now) && Clear(t, p, c, now) && Clear(t, q, d, now)
  {
    ClearSplit(t, p, a, b, now);
    ClearSplit(t, p, a + b, c, now);
    ClearSplit(t, p, a + b + c, d, now);
  }

  lemma {:induction false} ClearResolves(t: Tables, p: Pending, refs: seq<Reference>, now: nat)
    ensures Clear(t, p, ResolveAll(refs), now) <==> HeldAreLive(t, refs)
    ensures PendingAfterAll(t, p, ResolveAll(refs), now) == p
    decreases |refs|
  {
    if refs != [] {
      var todo := ResolveAll(refs);
      assert todo[0] == Resolve(refs[0]) && todo[1..] == ResolveAll(refs[1..]);
      ClearResolves(t, p, refs[1..], now);
      assert refs == [refs[0]] + refs[1..];
    }
  }

  lemma {:induction false} ClearLocks(t: Tables, p: Pending, ids: seq<nat>, now: nat)
    ensures Clear(t, p, LockAll(ids), now) && PendingAfterAll(t, p, LockAll(ids), now) == p
    decreases |ids|
  {
    if ids != [] {
      var todo := LockAll(ids);
      assert todo[0] == Lock(PlaylistKey(ids[0])) && todo[1..] == LockAll(ids[1..]);
      ClearLocks(t, p, ids[1..], now);
    }
  }

  // ---------------------------------------------------------------------------------------
  // What stands against a request
  // ---------------------------------------------------------------------------------------

  predicate HeldAreLive(t: Tables, refs: seq<Reference>) {
    forall r :: r in refs && r.held ==> PlaylistKey(r.ingested.id) in t.rows
  }

  /** Playlists a batch would store: their slugs are free and differ, their items have distinct ids. */
  predicate NewcomersFit(t: Tables, batch: map<nat, Ingested>) {
    && (forall id :: id in batch && PlaylistKey(id) !in t.rows ==>
          SlugUnused(t, Playlists, batch[id].slug) && DistinctItemIds(batch[id].body.payload.items))
    && (forall a, b :: a in batch && PlaylistKey(a) !in t.rows && b in batch && PlaylistKey(b) !in t.rows && a != b
          ==> batch[a].slug != batch[b].slug)
  }

  /** Nothing stands against the references: what was held lives, nothing is buried, what is new fits. */
  ghost predicate ReferencesFit(t: Tables, refs: seq<Reference>) {
    && HeldAreLive(t, refs)
    && PlaylistKeys(Ids(Ingesteds(refs))) !! t.tombstones
    && NewcomersFit(t, ById(Ingesteds(refs)))
  }

  /** The row the request was authorized against is the one stored. */
  predicate Current(t: Tables, k: DocKey, base: Row) {
    k in t.rows && t.rows[k] == base
  }

  /** Nothing stored stands against the request. */
  ghost predicate Unobstructed(t: Tables, op: Op) {
    var k := Target(op);
    match op
    case CreatePlaylist(req) =>
      !Known(t, k) && SlugUnused(t, Playlists, req.doc.payload.slug) && DistinctItemIds(req.doc.payload.items)
    case ReplacePlaylist(_, base, req) => Current(t, k, base) && DistinctItemIds(req.doc.payload.items)
    case DeletePlaylist(_, base, _, _) => Current(t, k, base)
    case CreateContainer(table, req, refs) =>
      !Known(t, k) && SlugUnused(t, table, req.doc.payload.slug) && ReferencesFit(t, refs)
    case ReplaceContainer(_, base, _, refs) => Current(t, k, base) && ReferencesFit(t, refs)
    case DeleteContainer(_, base, _) => Current(t, k, base)
  }

  lemma NoStrayItems(t: Tables, p: Pending, id: nat)
    requires ItemsExact(t) && PlaylistKey(id) !in t.rows && id !in p.itemsAdded
    ensures forall n: nat :: VisibleItem(t, p, ItemSlot(id, n)).None?
  {
    forall n: nat
      ensures ItemSlot(id, n) !in t.items
    {
      assert ExpectedItem(t, ItemSlot(id, n)).None?;
    }
  }

  /** The container has no membership rows. */
  ghost predicate Bare(t: Tables, c: DocKey) {
    forall n: nat :: Slot(c, n) !in t.members
  }

  lemma NewContainersAreBare(t: Tables, c: DocKey)
    requires LinkedExact(t) && MembersExact(t) && c !in t.rows
    ensures Bare(t, c)
  {
    forall n: nat
      ensures Slot(c, n) !in t.members
    {
      assert ExpectedMember(t, Slot(c, n)).None?;
    }
  }

  lemma CreateIsClear(w: World, t: Tables, req: CreateRequest, now: nat)
    requires TablesOk(t)
    ensures Clear(t, NOTHING_PENDING, Program(w, CreatePlaylist(req)), now) <==> Unobstructed(t, CreatePlaylist(req))
  {
    var todo, k := Program(w, CreatePlaylist(req)), PlaylistKey(IdOf(req.doc.payload));
    ClearFour(t, NOTHING_PENDING, todo[0], todo[1], todo[2], todo[3], now);
    assert todo == [todo[0], todo[1], todo[2], todo[3]];
    if k !in t.rows {
      NoStrayItems(t, PendingAfter(t, NOTHING_PENDING, todo[2], now), k.id);
    }
  }

  lemma ReplaceIsClear(w: World, t: Tables, id: nat, base: Row, req: ReplaceRequest, now: nat)
    ensures Clear(t, NOTHING_PENDING, Program(w, ReplacePlaylist(id, base, req)), now)
       <==> Unobstructed(t, ReplacePlaylist(id, base, req))
  {
    var todo := Program(w, ReplacePlaylist(id, base, req));
    ClearFour(t, NOTHING_PENDING, todo[0], todo[1], todo[2], todo[3], now);
    assert todo == [todo[0], todo[1], todo[2], todo[3]];
  }

  lemma DropIsClear(t: Tables, key: DocKey, base: Row, req: DeleteRequest, read: seq<Stmt>, id: nat, now: nat)
    requires read == [] || read == [StartRead(id), AwaitRead(id)]
    ensures Clear(t, NOTHING_PENDING, [Load(key, base), Lock(key)] + read + [DeleteRow(key, base, req),
                    WriteTombstone(key)], now)
       <==> Current(t, key, base)
  {
    var p, head := NOTHING_PENDING, [Load(key, base), Lock(key)];
    var tail := [DeleteRow(key, base, req), WriteTombstone(key)];
    ClearTwo(t, p, head[0], head[1], now);
    ClearTwo(t, p, tail[0], tail[1], now);
    ClearTwo(t, p, StartRead(id), AwaitRead(id), now);
    ClearSplit(t, p, head, read, now);
    ClearSplit(t, p, head + read, tail, now);
  }

  lemma DeleteIsClear(w: World, t: Tables, op: Op, now: nat)
    requires op.DeletePlaylist? || op.DeleteContainer?
    ensures Clear(t, NOTHING_PENDING, Program(w, op), now) <==> Unobstructed(t, op)
  {
    match op {
      case DeletePlaylist(id, base, req, capture) =>
        DropIsClear(t, PlaylistKey(id), base, req, if capture then [StartRead(id), AwaitRead(id)] else [], id, now);
      case DeleteContainer(key, base, req) =>
        DropIsClear(t, key, base, req, [], 0, now);
        assert [Load(key, base), Lock(key)] + [] + [DeleteRow(key, base, req), WriteTombstone(key)]
            == Program(w, op);
    }
  }

  // Groups and channels.

  /** What a batch leaves pending. */
  function BatchPending(t: Tables, refs: seq<Reference>, now: nat): Pending {
    var batch := ById(Ingesteds(refs));
    NOTHING_PENDING.(rows := MissingRows(t, NOTHING_PENDING, batch, now),
                     itemsAdded := MissingItems(t, NOTHING_PENDING, batch),
                     sources := SourceRows(Ingesteds(refs)))
  }

  lemma BatchWritesAreClear(t: Tables, keys: set<DocKey>, batch: map<nat, Ingested>, held: set<nat>,
                            sources: map<string, nat>, now: nat)
    ensures Clear(t, NOTHING_PENDING, [CheckTombstones(keys), InsertMissing(batch, held), UpsertSources(sources)], now)
       <==> keys !! t.tombstones && NewcomersFit(t, batch)
    ensures PendingAfterAll(t, NOTHING_PENDING,
                            [CheckTombstones(keys), InsertMissing(batch, held), UpsertSources(sources)], now)
         == NOTHING_PENDING.(rows := MissingRows(t, NOTHING_PENDING, batch, now),
                             itemsAdded := MissingItems(t, NOTHING_PENDING, batch), sources := sources)
  {
    var p, a, b, c := NOTHING_PENDING, CheckTombstones(keys), InsertMissing(batch, held), UpsertSources(sources);
    ClearThree(t, p, a, b, c, now);
    NewcomersGoIn(t, batch);
    AddedToNothing(MissingRows(t, p, batch, now));
    AddedToNothing(MissingItems(t, p, batch));
    AddedToNothing(sources);
  }

  lemma AddedToNothing<K, V>(m: map<K, V>)
    ensures map[] + m == m
  {
  }

  lemma BatchIsClear(t: Tables, refs: seq<Reference>, now: nat)
    requires refs != []
    ensures Clear(t, NOTHING_PENDING, IngestStmts(refs), now)
       <==> PlaylistKeys(Ids(Ingesteds(refs))) !! t.tombstones && NewcomersFit(t, ById(Ingesteds(refs)))
    ensures PendingAfterAll(t, NOTHING_PENDING, IngestStmts(refs), now) == BatchPending(t, refs, now)
  {
    var ings, p := Ingesteds(refs), NOTHING_PENDING;
    var unique := FirstOccurrences(ings);
    var keys, batch, sources := PlaylistKeys(Ids(unique)), ById(unique), SourceRows(ings);
    FirstOccurrencesCorrect(ings);
    FirstBodyWins(ings);
    assert keys == PlaylistKeys(Ids(ings));
    ClearLocks(t, p, LockOrder(Ids(unique)), now);
    BatchWritesAreClear(t, keys, batch, HeldIds(refs), sources, now);
    ClearSplit(t, p, LockAll(LockOrder(Ids(unique))),
               [CheckTombstones(keys), InsertMissing(batch, HeldIds(refs)), UpsertSources(sources)], now);
  }

  lemma NewcomersGoIn(t: Tables, batch: map<nat, Ingested>)
    ensures BatchGoesIn(t, NOTHING_PENDING, batch) <==> NewcomersFit(t, batch)
  {
    assert forall id :: id in MissingFrom(t, NOTHING_PENDING, batch) <==> id in batch && PlaylistKey(id) !in t.rows;
  }

  /** After a batch everything it links is there. */
  lemma BatchShows(t: Tables, refs: seq<Reference>, now: nat, n: nat)
    requires n < |refs|
    ensures VisibleRow(t, BatchPending(t, refs, now), PlaylistKey(refs[n].ingested.id)).Some?
  {
    var batch, id := ById(Ingesteds(refs)), refs[n].ingested.id;
    LinkedAreById(Ingesteds(refs), n);
    if PlaylistKey(id) !in t.rows {
      assert id in MissingFrom(t, NOTHING_PENDING, batch);
      assert PlaylistKey(id) in MissingRows(t, NOTHING_PENDING, batch, now);
    }
  }

  /** Once its own row is there and its old membership gone, a container's references can be linked. */
  lemma LinksGoIn(t: Tables, refs: seq<Reference>, now: nat, c: DocKey, row: Row, cleared: set<DocKey>)
    requires c.table != Playlists && (c in cleared || Bare(t, c))
    ensures var q := BatchPending(t, refs, now);
            MembersGoIn(t, q.(rows := q.rows[c := Some(row)], membersCleared := cleared), c, Ingesteds(refs))
  {
    var q := BatchPending(t, refs, now);
    var p := q.(rows := q.rows[c := Some(row)], membersCleared := cleared);
    forall n | 0 <= n < |refs|
      ensures VisibleRow(t, p, PlaylistKey(refs[n].ingested.id)).Some?
      ensures VisibleMember(t, p, Slot(c, n)).None?
    {
      BatchShows(t, refs, now, n);
    }
  }

  lemma CreateTailIsClear(t: Tables, key: DocKey, slug: string, body: Document, refs: seq<Reference>, now: nat)
    requires key.table != Playlists && (key !in t.rows ==> Bare(t, key))
    ensures Clear(t, BatchPending(t, refs, now), [InsertRow(key, slug, body), AddMembers(key, Ingesteds(refs))], now)
       <==> key !in t.rows && SlugUnused(t, key.table, slug)
  {
    var q, a, b := BatchPending(t, refs, now), InsertRow(key, slug, body), AddMembers(key, Ingesteds(refs));
    ClearTwo(t, q, a, b, now);
    assert !HoldsSlug(q.rows, key.table, slug);
    if key !in t.rows {
      LinksGoIn(t, refs, now, key, Row(slug, body, now, now), {});
      assert PendingAfter(t, q, a, now)
          == q.(rows := q.rows[key := Some(Row(slug, body, now, now))], membersCleared := {});
    }
  }

  lemma GuardIsClear(t: Tables, key: DocKey, now: nat)
    ensures Clear(t, NOTHING_PENDING, [Lock(key), CheckTombstones({key})], now) <==> key !in t.tombstones
    ensures PendingAfterAll(t, NOTHING_PENDING, [Lock(key), CheckTombstones({key})], now) == NOTHING_PENDING
  {
    ClearTwo(t, NOTHING_PENDING, Lock(key), CheckTombstones({key}), now);
  }

  lemma LinkingIsClear(t: Tables, a: seq<Stmt>, b: seq<Stmt>, refs: seq<Reference>, tail: seq<Stmt>, now: nat)
    requires refs != []
    requires PendingAfterAll(t, NOTHING_PENDING, a, now) == NOTHING_PENDING
    requires PendingAfterAll(t, NOTHING_PENDING, b, now) == NOTHING_PENDING
    ensures Clear(t, NOTHING_PENDING, a + b + IngestStmts(refs) + tail, now)
       <==> Clear(t, NOTHING_PENDING, a, now) && Clear(t, NOTHING_PENDING, b, now)
            && PlaylistKeys(Ids(Ingesteds(refs))) !! t.tombstones && NewcomersFit(t, ById(Ingesteds(refs)))
            && Clear(t, BatchPending(t, refs, now), tail, now)
  {
    BatchIsClear(t, refs, now);
    ClearInParts(t, NOTHING_PENDING, a, b, IngestStmts(refs), BatchPending(t, refs, now), tail, now);
  }

  lemma CreatingIsClear(t: Tables, key: DocKey, refs: seq<Reference>, tail: seq<Stmt>, now: nat)
    requires refs != []
    ensures Clear(t, NOTHING_PENDING, ResolveAll(refs) + [Lock(key), CheckTombstones({key})] + IngestStmts(refs) + tail,
                  now)
       <==> ReferencesFit(t, refs) && key !in t.tombstones && Clear(t, BatchPending(t, refs, now), tail, now)
  {
    ClearResolves(t, NOTHING_PENDING, refs, now);
    GuardIsClear(t, key, now);
    LinkingIsClear(t, ResolveAll(refs), [Lock(key), CheckTombstones({key})], refs, tail, now);
  }

  lemma InsertWithLinksIsClear(t: Tables, key: DocKey, slug: string, body: Document, refs: seq<Reference>, now: nat)
    requires key.table != Playlists && refs != [] && (key !in t.rows ==> Bare(t, key))
    ensures Clear(t, NOTHING_PENDING, ResolveAll(refs) + [Lock(key), CheckTombstones({key})] + IngestStmts(refs)
                    + [InsertRow(key, slug, body), AddMembers(key, Ingesteds(refs))], now)
       <==> !Known(t, key) && SlugUnused(t, key.table, slug) && ReferencesFit(t, refs)
  {
    CreateTailIsClear(t, key, slug, body, refs, now);
    CreatingIsClear(t, key, refs, [InsertRow(key, slug, body), AddMembers(key, Ingesteds(refs))], now);
  }

  lemma CreateContainerIsClear(w: World, t: Tables, table: Table, req: CreateRequest, refs: seq<Reference>, now: nat)
    requires table != Playlists && refs != []
    requires DocKey(table, IdOf(req.doc.payload)) !in t.rows ==> Bare(t, DocKey(table, IdOf(req.doc.payload)))
    ensures Clear(t, NOTHING_PENDING, Program(w, CreateContainer(table, req, refs)), now)
       <==> Unobstructed(t, CreateContainer(table, req, refs))
  {
    InsertWithLinksIsClear(t, DocKey(table, IdOf(req.doc.payload)), req.doc.payload.slug,
                           CoSign(w, req.doc, CreatedTs(w, req.doc)), refs, now);
  }

  lemma ReplaceTailIsClear(t: Tables, key: DocKey, base: Row, body: Document, req: ReplaceRequest,
                           refs: seq<Reference>, now: nat)
    requires key.table != Playlists && Current(t, key, base)
    ensures Clear(t, BatchPending(t, refs, now),
                  [UpdateRow(key, base, body, req), ClearMembers(key), AddMembers(key, Ingesteds(refs))], now)
  {
    LinksGoIn(t, refs, now, key, UpdatedRow(base, body, now), {key});
    UpdatingIsClear(t, key, base, body, req, refs, now);
  }

  lemma UpdatingIsClear(t: Tables, key: DocKey, base: Row, body: Document, req: ReplaceRequest, refs: seq<Reference>,
                        now: nat)
    requires key.table != Playlists && Current(t, key, base)
    requires var q := BatchPending(t, refs, now);
             MembersGoIn(t, q.(rows := q.rows[key := Some(UpdatedRow(base, body, now))], membersCleared := {key}), key,
                         Ingesteds(refs))
    ensures Clear(t, BatchPending(t, refs, now),
                  [UpdateRow(key, base, body, req), ClearMembers(key), AddMembers(key, Ingesteds(refs))], now)
  {
    var q := BatchPending(t, refs, now);
    UpdateLeaves(t, refs, key, base, body, req, now);
    ClearLeaves(t, q.(rows := q.rows[key := Some(UpdatedRow(base, body, now))]), key, now);
    ClearThree(t, q, UpdateRow(key, base, body, req), ClearMembers(key), AddMembers(key, Ingesteds(refs)), now);
  }

  lemma NothingLess<V>(m: map<DocKey, V>, k: DocKey)
    requires m == map[]
    ensures m - {k} == map[]
  {
  }

  lemma UpdateLeaves(t: Tables, refs: seq<Reference>, key: DocKey, base: Row, body: Document, req: ReplaceRequest,
                     now: nat)
    requires key.table != Playlists && Current(t, key, base)
    ensures var q := BatchPending(t, refs, now);
            && VisibleRow(t, q, key) == Some(base)
            && PendingAfter(t, q, UpdateRow(key, base, body, req), now)
            == q.(rows := q.rows[key := Some(UpdatedRow(base, body, now))])
  {
    assert key !in BatchPending(t, refs, now).rows;
  }

  lemma ClearLeaves(t: Tables, p: Pending, key: DocKey, now: nat)
    requires p.membersCleared == {} && p.membersAdded == map[]
    ensures PendingAfter(t, p, ClearMembers(key), now) == p.(membersCleared := {key})
  {
    assert {} + {key} == {key};
    NothingLess(p.membersAdded, key);
  }

  lemma ReplacingIsClear(t: Tables, key: DocKey, base: Row, refs: seq<Reference>, tail: seq<Stmt>, now: nat)
    requires refs != []
    requires Current(t, key, base) ==> Clear(t, BatchPending(t, refs, now), tail, now)
    ensures Clear(t, NOTHING_PENDING, [Load(key, base)] + ResolveAll(refs) + IngestStmts(refs) + tail, now)
       <==> Current(t, key, base) && ReferencesFit(t, refs)
  {
    ClearFirst(t, NOTHING_PENDING, Load(key, base), [], now);
    assert [Load(key, base)] + [] == [Load(key, base)];
    ClearResolves(t, NOTHING_PENDING, refs, now);
    LinkingIsClear(t, [Load(key, base)], ResolveAll(refs), refs, tail, now);
  }

  lemma UpdateWithLinksIsClear(t: Tables, key: DocKey, base: Row, body: Document, req: ReplaceRequest,
                               refs: seq<Reference>, now: nat)
    requires key.table != Playlists && refs != []
    ensures Clear(t, NOTHING_PENDING, [Load(key, base)] + ResolveAll(refs) + IngestStmts(refs)
                    + [UpdateRow(key, base, body, req), ClearMembers(key), AddMembers(key, Ingesteds(refs))], now)
       <==> Current(t, key, base) && ReferencesFit(t, refs)
  {
    if Current(t, key, base) {
      ReplaceTailIsClear(t, key, base, body, req, refs, now);
    }
    ReplacingIsClear(t, key, base, refs,
                     [UpdateRow(key, base, body, req), ClearMembers(key), AddMembers(key, Ingesteds(refs))], now);
  }

  lemma ReplaceContainerIsClear(w: World, t: Tables, key: DocKey, base: Row, req: ReplaceRequest, refs: seq<Reference>,
                                now: nat)
    requires key.table != Playlists && refs != []
    ensures Clear(t, NOTHING_PENDING, Program(w, ReplaceContainer(key, base, req, refs)), now)
       <==> Unobstructed(t, ReplaceContainer(key, base, req, refs))
  {
    UpdateWithLinksIsClear(t, key, base, CoSign(w, req.doc, req.ts), req, refs, now);
  }

  /** A request links at least one playlist if it links any, and only from a group or channel. */
  predicate Shaped(op: Op) {
    match op
    case CreateContainer(table, _, refs) => table != Playlists && refs != []
    case ReplaceContainer(key, _, _, refs) => key.table != Playlists && refs != []
    case _ => true
  }

  /** All statements of a request succeed in turn if and only if nothing stored stands against it. */
  lemma ClearIsUnobstructed(w: World, t: Tables, op: Op, now: nat)
    requires TablesOk(t) && Shaped(op)
    ensures Clear(t, NOTHING_PENDING, Program(w, op), now) <==> Unobstructed(t, op)
  {
    match op {
      case CreatePlaylist(req) => CreateIsClear(w, t, req, now);
      case ReplacePlaylist(id, base, req) => ReplaceIsClear(w, t, id, base, req, now);
      case CreateContainer(table, req, refs) =>
        if Target(op) !in t.rows {
          NewContainersAreBare(t, Target(op));
        }
        CreateContainerIsClear(w, t, table, req, refs, now);
      case ReplaceContainer(key, base, req, refs) => ReplaceContainerIsClear(w, t, key, base, req, refs, now);
      case _ => DeleteIsClear(w, t, op, now);
    }
  }
}
