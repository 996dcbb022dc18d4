/** The order in which a transaction may issue its statements, and the proof that every request's
    statement list keeps to it. The order is a property of the statements alone; what it buys, whatever
    other transactions do in between, is proved in StoreInvariant. */
module StoreDiscipline {
  import opened Documents
  import opened CoSigning
  import opened Authorization
  import opened OwnershipLaws
  import opened Batches
  import opened StoreModel

  // ---------------------------------------------------------------------------------------
  // The discipline
  // ---------------------------------------------------------------------------------------

  /** Where a key stands in the global lock order: containers first, then playlists by id. */
  function Rank(k: DocKey): nat {
    if k.table == Playlists then k.id + 1 else 0
  }

  /** A body that may be stored under key k. */
  ghost predicate Admissible(w: World, k: DocKey, slug: string, body: Document) {
    && WellOwned(w, k.table, body)
    && Identified(k.table, body.payload)
    && body.payload.id == Some(k.id)
    && slug == body.payload.slug
  }

  ghost predicate ReplaceJustified(w: World, k: DocKey, base: Row, body: Document, why: ReplaceRequest) {
    && ReplaceAccepted(w, k.table, k.id, base.slug, base.body, why)
    && body == CoSign(w, why.doc, why.ts)
  }

  ghost predicate DeleteJustified(w: World, k: DocKey, base: Row, because: DeleteRequest) {
    DeleteAccepted(w, k.table, k.id, base.slug, base.body, because)
  }

  /** The statement writes only what its request was authorized to write. */
  ghost predicate Authorized(w: World, stmt: Stmt) {
    match stmt
    case InsertRow(k, slug, body) => Admissible(w, k, slug, body)
    case UpdateRow(k, base, body, why) => ReplaceJustified(w, k, base, body, why)
    case DeleteRow(k, base, because) => DeleteJustified(w, k, base, because)
    case InsertMissing(batch, held) =>
      forall id :: id in batch && id !in held ==> Admissible(w, PlaylistKey(id), batch[id].slug, batch[id].body)
    case _ => true
  }

  ghost predicate AllAuthorized(w: World, todo: seq<Stmt>) {
    forall i :: 0 <= i < |todo| ==> Authorized(w, todo[i])
  }

  /** The recorded source rows agree with the references linked. */
  ghost predicate SourcesCover(sources: map<string, nat>, refs: seq<Ingested>) {
    forall n :: 0 <= n < |refs| && refs[n].sourceUri != "" ==>
      refs[n].sourceUri in sources && sources[refs[n].sourceUri] == refs[n].id
  }

  /** The row of key k has not been written by this transaction and is not one it relies on. */
  predicate Untouched(v: View, k: DocKey) {
    k !in v.written && !(k.table == Playlists && k.id in v.ensured)
  }

  /** The statement may come next in a transaction whose earlier statements left view v. */
  ghost predicate StmtOk(v: View, stmt: Stmt) {
    match stmt
    case Load(k, _) => k !in v.seen
    case Resolve(r) => true
    case Lock(k) => forall h :: h in v.locks ==> Rank(h) < Rank(k)
    case CheckTombstones(ks) => ks <= v.locks
    case InsertRow(k, _, _) => k in v.checked && Untouched(v, k)
    case UpdateRow(k, base, _, _) => k in v.seen && v.seen[k] == base && Untouched(v, k)
    case DeleteRow(k, base, _) => k in v.seen && v.seen[k] == base && k in v.locks && Untouched(v, k)
    case WriteTombstone(k) => k in v.tombstoneDue
    case ClearItems(p) => p in v.itemsDue
    case AddItems(p, items) => p in v.itemsDue && v.itemsDue[p] == ItemsDue(items, true)
    case InsertMissing(batch, held) =>
      && held <= v.held
      && forall id :: id in batch ==>
           batch[id].id == id && PlaylistKey(id) in v.checked && Untouched(v, PlaylistKey(id))
    case UpsertSources(rows) => v.linked == map[] && forall u :: u in rows ==> rows[u] in v.ensured
    case ClearMembers(c) => c in v.membersDue && c.table != Playlists
    case AddMembers(c, refs) =>
      && c in v.membersDue && v.membersDue[c] && c.table != Playlists
      && (forall n :: 0 <= n < |refs| ==> refs[n].id in v.ensured)
      && SourcesCover(v.sources, refs)
    case StartRead(p) => PlaylistKey(p) in v.locks && !v.readBegun
    case AwaitRead(p) => v.readBegun && v.readDue
  }

  /** Nothing the transaction started is left half done. */
  ghost predicate Complete(v: View) {
    v.itemsDue == map[] && v.membersDue == map[] && v.tombstoneDue == {} && !v.readDue
  }

  function ViewAfterAll(v: View, todo: seq<Stmt>): View
    decreases |todo|
  {
    if todo == [] then v else ViewAfterAll(ViewAfter(v, todo[0]), todo[1..])
  }

  ghost predicate AllOk(v: View, todo: seq<Stmt>)
    decreases |todo|
  {
    todo == [] || (StmtOk(v, todo[0]) && AllOk(ViewAfter(v, todo[0]), todo[1..]))
  }

  ghost predicate Disciplined(v: View, todo: seq<Stmt>) {
    AllOk(v, todo) && Complete(ViewAfterAll(v, todo))
  }

  // ---------------------------------------------------------------------------------------
  // Composing lists
  // ---------------------------------------------------------------------------------------

  /** From view v the statements are in order, and leave view v'. */
  ghost predicate Leads(v: View, todo: seq<Stmt>, v': View) {
    AllOk(v, todo) && ViewAfterAll(v, todo) == v'
  }

  lemma LeadsNowhere(v: View)
    ensures Leads(v, [], v)
  {
  }

  lemma LeadsOne(v: View, stmt: Stmt)
    requires StmtOk(v, stmt)
    ensures Leads(v, [stmt], ViewAfter(v, stmt))
  {
    assert [stmt][1..] == [];
    LeadsNowhere(ViewAfter(v, stmt));
  }

  lemma {:induction false} LeadsOn(v: View, a: seq<Stmt>, v1: View, b: seq<Stmt>, v2: View)
    requires Leads(v, a, v1) && Leads(v1, b, v2)
    ensures Leads(v, a + b, v2)
    decreases |a|
  {
    if a == [] {
      assert a + b == b;
    } else {
      assert (a + b)[0] == a[0] && (a + b)[1..] == a[1..] + b;
      LeadsOn(ViewAfter(v, a[0]), a[1..], v1, b, v2);
    }
  }

  /** One more statement at the end of a list. */
  lemma LeadsThen(v: View, a: seq<Stmt>, v1: View, stmt: Stmt)
    requires Leads(v, a, v1) && StmtOk(v1, stmt)
    ensures Leads(v, a + [stmt], ViewAfter(v1, stmt))
  {
    LeadsOne(v1, stmt);
    LeadsOn(v, a, v1, [stmt], ViewAfter(v1, stmt));
  }

  lemma LeadsTwo(v: View, a: Stmt, b: Stmt)
    requires StmtOk(v, a) && StmtOk(ViewAfter(v, a), b)
    ensures Leads(v, [a, b], ViewAfter(ViewAfter(v, a), b))
  {
    LeadsOne(v, a);
    LeadsThen(v, [a], ViewAfter(v, a), b);
    assert [a] + [b] == [a, b];
  }

  lemma LeadsThree(v: View, a: Stmt, b: Stmt, c: Stmt)
    requires StmtOk(v, a) && StmtOk(ViewAfter(v, a), b) && StmtOk(ViewAfter(ViewAfter(v, a), b), c)
    ensures Leads(v, [a, b, c], ViewAfter(ViewAfter(ViewAfter(v, a), b), c))
  {
    LeadsTwo(v, a, b);
    LeadsThen(v, [a, b], ViewAfter(ViewAfter(v, a), b), c);
    assert [a, b] + [c] == [a, b, c];
  }

  lemma LeadsFour(v: View, a: Stmt, b: Stmt, c: Stmt, d: Stmt)
    requires StmtOk(v, a) && StmtOk(ViewAfter(v, a), b) && StmtOk(ViewAfter(ViewAfter(v, a), b), c)
    requires StmtOk(ViewAfter(ViewAfter(ViewAfter(v, a), b), c), d)
    ensures Leads(v, [a, b, c, d], ViewAfter(ViewAfter(ViewAfter(ViewAfter(v, a), b), c), d))
  {
    LeadsThree(v, a, b, c);
    LeadsThen(v, [a, b, c], ViewAfter(ViewAfter(ViewAfter(v, a), b), c), d);
    assert [a, b, c] + [d] == [a, b, c, d];
  }

  lemma {:induction false} ResolveAllOk(v: View, refs: seq<Reference>)
    ensures Leads(v, ResolveAll(refs), v.(held := v.held + HeldIds(refs)))
    decreases |refs|
  {
    if refs == [] {
      assert v.(held := v.held + {}) == v;
    } else {
      var todo := ResolveAll(refs);
      assert todo[0] == Resolve(refs[0]) && todo[1..] == ResolveAll(refs[1..]);
      var v1 := ViewAfter(v, todo[0]);
      assert refs == [refs[0]] + refs[1..];
      assert HeldIds(refs) == (if refs[0].held then {refs[0].ingested.id} else {}) + HeldIds(refs[1..]);
      ResolveAllOk(v1, refs[1..]);
      assert v1.held + HeldIds(refs[1..]) == v.held + HeldIds(refs);
    }
  }

  lemma {:induction false} LockAllOk(v: View, ids: seq<nat>)
    requires StrictlyAscending(ids)
    requires forall h, i :: h in v.locks && 0 <= i < |ids| ==> Rank(h) < ids[i] + 1
    ensures Leads(v, LockAll(ids), v.(locks := v.locks + PlaylistKeys(ids)))
    decreases |ids|
  {
    if ids == [] {
      assert PlaylistKeys(ids) == {};
      assert v.(locks := v.locks + {}) == v;
    } else {
      var todo := LockAll(ids);
      assert todo[0] == Lock(PlaylistKey(ids[0])) && todo[1..] == LockAll(ids[1..]);
      var v1 := ViewAfter(v, todo[0]);
      assert ids == [ids[0]] + ids[1..];
      assert PlaylistKeys(ids) == {PlaylistKey(ids[0])} + PlaylistKeys(ids[1..]);
      LockAllOk(v1, ids[1..]);
      assert v1.locks + PlaylistKeys(ids[1..]) == v.locks + PlaylistKeys(ids);
    }
  }

  // ---------------------------------------------------------------------------------------
  // Batches
  // ---------------------------------------------------------------------------------------

  lemma {:induction false} ByIdCorrect(refs: seq<Ingested>)
    ensures forall id :: id in ById(refs) <==> id in Ids(refs)
    ensures forall id :: id in ById(refs) ==>
              exists i :: 0 <= i < |refs| && refs[i] == ById(refs)[id] && refs[i].id == id && IsFirst(refs, i)
  {
    if refs != [] {
      var init, last := refs[..|refs| - 1], refs[|refs| - 1];
      ByIdCorrect(init);
      assert Ids(refs) == Ids(init) + [last.id];
      forall id | id in ById(refs)
        ensures exists i :: 0 <= i < |refs| && refs[i] == ById(refs)[id] && refs[i].id == id && IsFirst(refs, i)
      {
        if id in ById(init) {
          var i :| 0 <= i < |init| && init[i] == ById(init)[id] && init[i].id == id && IsFirst(init, i);
          assert refs[i] == ById(refs)[id] && IsFirst(refs, i);
        } else {
          forall j | 0 <= j < |init|
            ensures refs[j].id != last.id
          {
            assert Ids(init)[j] in Ids(init);
          }
          assert refs[|refs| - 1] == ById(refs)[id] && IsFirst(refs, |refs| - 1);
        }
      }
    }
  }

  /** Taking first occurrences first changes nothing: a new id takes the body of its earliest
      reference. */
  lemma FirstBodyWins(refs: seq<Ingested>)
    ensures ById(FirstOccurrences(refs)) == ById(refs)
  {
    var unique := FirstOccurrences(refs);
    FirstOccurrencesCorrect(refs);
    ByIdCorrect(unique);
    ByIdCorrect(refs);
    forall id | id in ById(refs)
      ensures ById(unique)[id] == ById(refs)[id]
    {
      var i :| 0 <= i < |refs| && refs[i] == ById(refs)[id] && refs[i].id == id && IsFirst(refs, i);
      var u := ById(unique)[id];
      assert u in unique;
      var j :| 0 <= j < |refs| && refs[j] == u && IsFirst(refs, j);
      assert i == j;
    }
  }

  /** The view a batch of references leaves behind. */
  function IngestedView(v: View, refs: seq<Ingested>): View {
    var keys := PlaylistKeys(Ids(refs));
    v.(locks := v.locks + keys, checked := v.checked + keys,
       ensured := v.ensured + ById(refs).Keys, sources := v.sources + SourceRows(refs))
  }

  lemma IngestLocksOk(v: View, refs: seq<Ingested>)
    requires forall h :: h in v.locks ==> h.table != Playlists
    ensures Leads(v, LockAll(LockOrder(Ids(FirstOccurrences(refs)))), v.(locks := v.locks + PlaylistKeys(Ids(refs))))
    ensures PlaylistKeys(Ids(FirstOccurrences(refs))) == PlaylistKeys(Ids(refs))
  {
    var unique := FirstOccurrences(refs);
    FirstOccurrencesCorrect(refs);
    LockOrderCorrect(Ids(unique));
    LockAllOk(v, LockOrder(Ids(unique)));
    assert PlaylistKeys(LockOrder(Ids(unique))) == PlaylistKeys(Ids(unique)) == PlaylistKeys(Ids(refs));
  }

  lemma IngestSourcesOk(v: View, refs: seq<Ingested>)
    requires v.linked == map[] && forall id :: id in ById(refs) ==> id in v.ensured
    ensures StmtOk(v, UpsertSources(SourceRows(refs)))
  {
    ByIdCorrect(refs);
    SourceRowsCorrect(refs);
    forall u | u in SourceRows(refs)
      ensures SourceRows(refs)[u] in v.ensured
    {
      var i :| 0 <= i < |refs| && refs[i].sourceUri == u && refs[i].id == SourceRows(refs)[u];
      assert Ids(refs)[i] in Ids(refs);
    }
  }

  lemma IngestRowsOk(v: View, refs: seq<Ingested>, held: set<nat>)
    requires PlaylistKeys(Ids(refs)) <= v.checked && v.ensured == {} && held <= v.held
    requires forall k :: k in v.written ==> k.table != Playlists
    ensures StmtOk(v, InsertMissing(ById(refs), held))
  {
    ByIdCorrect(refs);
  }

  lemma IngestWritesOk(v: View, refs: seq<Ingested>, held: set<nat>)
    requires PlaylistKeys(Ids(refs)) <= v.locks
    requires v.ensured == {} && v.linked == map[] && held <= v.held
    requires forall k :: k in v.written ==> k.table != Playlists
    ensures Leads(v, [CheckTombstones(PlaylistKeys(Ids(refs))), InsertMissing(ById(refs), held),
                      UpsertSources(SourceRows(refs))],
                  IngestedView(v, refs))
  {
    var a, b, c := CheckTombstones(PlaylistKeys(Ids(refs))), InsertMissing(ById(refs), held),
                   UpsertSources(SourceRows(refs));
    IngestRowsOk(ViewAfter(v, a), refs, held);
    IngestSourcesOk(ViewAfter(ViewAfter(v, a), b), refs);
    LeadsThree(v, a, b, c);
    assert v.locks + PlaylistKeys(Ids(refs)) == v.locks;
  }

  lemma IngestOk(v: View, refs: seq<Reference>)
    requires refs != []
    requires v.ensured == {} && v.linked == map[] && v.written == {} && HeldIds(refs) <= v.held
    requires forall h :: h in v.locks ==> h.table != Playlists
    ensures Leads(v, IngestStmts(refs), IngestedView(v, Ingesteds(refs)))
  {
    var ings := Ingesteds(refs);
    IngestLocksOk(v, ings);
    FirstBodyWins(ings);
    var keys := PlaylistKeys(Ids(ings));
    var v1 := v.(locks := v.locks + keys);
    IngestWritesOk(v1, ings, HeldIds(refs));
    LeadsOn(v, LockAll(LockOrder(Ids(FirstOccurrences(ings)))), v1,
            [CheckTombstones(keys), InsertMissing(ById(ings), HeldIds(refs)), UpsertSources(SourceRows(ings))],
            IngestedView(v1, ings));
    assert v1.locks + keys == v.locks + keys;
  }

  lemma LinkedAreById(refs: seq<Ingested>, n: nat)
    requires n < |refs|
    ensures refs[n].id in ById(refs)
  {
    ByIdCorrect(refs);
    assert Ids(refs)[n] in Ids(refs);
  }

  lemma SourceRowsCover(refs: seq<Ingested>)
    requires UrisAgree(refs)
    ensures SourcesCover(SourceRows(refs), refs)
  {
    forall n | 0 <= n < |refs| && refs[n].sourceUri != ""
      ensures refs[n].sourceUri in SourceRows(refs) && SourceRows(refs)[refs[n].sourceUri] == refs[n].id
    {
      SourceRowsCoverAllPositions(refs, n);
    }
  }

  lemma BatchEnsures(v: View, refs: seq<Ingested>)
    ensures forall n :: 0 <= n < |refs| ==> refs[n].id in IngestedView(v, refs).ensured
  {
    forall n | 0 <= n < |refs|
      ensures refs[n].id in ById(refs)
    {
      LinkedAreById(refs, n);
    }
  }

  lemma BatchRecords(v: View, refs: seq<Ingested>)
    requires v.sources == map[]
    ensures IngestedView(v, refs).sources == SourceRows(refs)
  {
  }

  /** Everything a batch links is ensured, and recorded under its URI. */
  lemma LinkedAreEnsured(v: View, refs: seq<Ingested>)
    requires UrisAgree(refs) && v.sources == map[]
    ensures forall n :: 0 <= n < |refs| ==> refs[n].id in IngestedView(v, refs).ensured
    ensures SourcesCover(IngestedView(v, refs).sources, refs)
  {
    BatchEnsures(v, refs);
    BatchRecords(v, refs);
    SourceRowsCover(refs);
  }

  // ---------------------------------------------------------------------------------------
  // Requests
  // ---------------------------------------------------------------------------------------

  lemma CreatePlaylistOk(w: World, req: CreateRequest)
    ensures Disciplined(EMPTY_VIEW, Program(w, CreatePlaylist(req)))
  {
    var todo := Program(w, CreatePlaylist(req));
    LeadsFour(EMPTY_VIEW, todo[0], todo[1], todo[2], todo[3]);
    assert todo == [todo[0], todo[1], todo[2], todo[3]];
  }

  lemma ReplacePlaylistOk(w: World, id: nat, base: Row, req: ReplaceRequest)
    ensures Disciplined(EMPTY_VIEW, Program(w, ReplacePlaylist(id, base, req)))
  {
    var todo := Program(w, ReplacePlaylist(id, base, req));
    LeadsFour(EMPTY_VIEW, todo[0], todo[1], todo[2], todo[3]);
    assert todo == [todo[0], todo[1], todo[2], todo[3]];
  }

  lemma DeleteHeadOk(key: DocKey, base: Row)
    ensures Leads(EMPTY_VIEW, [Load(key, base), Lock(key)], EMPTY_VIEW.(seen := map[key := base], locks := {key}))
  {
    LeadsTwo(EMPTY_VIEW, Load(key, base), Lock(key));
    assert {} + {key} == {key};
  }

  lemma CaptureOk(v: View, id: nat)
    requires PlaylistKey(id) in v.locks && !v.readBegun && !v.readDue
    ensures Leads(v, [StartRead(id), AwaitRead(id)], v.(readBegun := true))
  {
    LeadsTwo(v, StartRead(id), AwaitRead(id));
  }

  lemma DeleteTailOk(v: View, key: DocKey, base: Row, req: DeleteRequest)
    requires v == EMPTY_VIEW.(seen := map[key := base], locks := {key}, readBegun := v.readBegun)
    ensures Disciplined(v, [DeleteRow(key, base, req), WriteTombstone(key)])
  {
    LeadsTwo(v, DeleteRow(key, base, req), WriteTombstone(key));
  }

  lemma DisciplinedOn(v: View, a: seq<Stmt>, v1: View, b: seq<Stmt>)
    requires Leads(v, a, v1) && Disciplined(v1, b)
    ensures Disciplined(v, a + b)
  {
    LeadsOn(v, a, v1, b, ViewAfterAll(v1, b));
  }

  lemma DeletePlaylistOk(w: World, id: nat, base: Row, req: DeleteRequest, capture: bool)
    ensures Disciplined(EMPTY_VIEW, Program(w, DeletePlaylist(id, base, req, capture)))
  {
    var key := PlaylistKey(id);
    var v := EMPTY_VIEW.(seen := map[key := base], locks := {key});
    var read := if capture then [StartRead(id), AwaitRead(id)] else [];
    var v1 := v.(readBegun := capture);
    DeleteHeadOk(key, base);
    if capture { CaptureOk(v, id); } else { LeadsNowhere(v); }
    LeadsOn(EMPTY_VIEW, [Load(key, base), Lock(key)], v, read, v1);
    DeleteTailOk(v1, key, base, req);
    DisciplinedOn(EMPTY_VIEW, [Load(key, base), Lock(key)] + read, v1,
                  [DeleteRow(key, base, req), WriteTombstone(key)]);
  }

  lemma DeleteContainerOk(w: World, key: DocKey, base: Row, req: DeleteRequest)
    ensures Disciplined(EMPTY_VIEW, Program(w, DeleteContainer(key, base, req)))
  {
    var v := EMPTY_VIEW.(seen := map[key := base], locks := {key});
    DeleteHeadOk(key, base);
    DeleteTailOk(v, key, base, req);
    DisciplinedOn(EMPTY_VIEW, [Load(key, base), Lock(key)], v, [DeleteRow(key, base, req), WriteTombstone(key)]);
    assert [Load(key, base), Lock(key)] + [DeleteRow(key, base, req), WriteTombstone(key)]
        == [Load(key, base), Lock(key), DeleteRow(key, base, req), WriteTombstone(key)];
  }

  lemma CreateGuardOk(v: View, key: DocKey)
    requires v.locks == {}
    ensures Leads(v, [Lock(key), CheckTombstones({key})], v.(locks := {key}, checked := v.checked + {key}))
  {
    LeadsTwo(v, Lock(key), CheckTombstones({key}));
    assert {} + {key} == {key};
  }

  lemma CreateTailOk(v: View, key: DocKey, slug: string, body: Document, refs: seq<Ingested>)
    requires key.table != Playlists && key in v.checked && v.written == {}
    requires v.membersDue == map[] && v.itemsDue == map[] && v.tombstoneDue == {} && !v.readDue
    requires forall n :: 0 <= n < |refs| ==> refs[n].id in v.ensured
    requires SourcesCover(v.sources, refs)
    ensures Disciplined(v, [InsertRow(key, slug, body), AddMembers(key, refs)])
  {
    LeadsTwo(v, InsertRow(key, slug, body), AddMembers(key, refs));
    assert map[key := true] - {key} == map[];
  }

  lemma CreateContainerOk(w: World, table: Table, req: CreateRequest, refs: seq<Reference>)
    requires table != Playlists && refs != [] && UrisAgree(Ingesteds(refs))
    ensures Disciplined(EMPTY_VIEW, Program(w, CreateContainer(table, req, refs)))
  {
    var key := DocKey(table, IdOf(req.doc.payload));
    var guard := [Lock(key), CheckTombstones({key})];
    var v0 := EMPTY_VIEW.(held := {} + HeldIds(refs));
    var v := v0.(locks := {key}, checked := {} + {key});
    ResolveAllOk(EMPTY_VIEW, refs);
    CreateGuardOk(v0, key);
    LeadsOn(EMPTY_VIEW, ResolveAll(refs), v0, guard, v);
    IngestOk(v, refs);
    LeadsOn(EMPTY_VIEW, ResolveAll(refs) + guard, v, IngestStmts(refs), IngestedView(v, Ingesteds(refs)));
    LinkedAreEnsured(v, Ingesteds(refs));
    CreateTailOk(IngestedView(v, Ingesteds(refs)), key, req.doc.payload.slug, CoSign(w, req.doc, CreatedTs(w, req.doc)),
                 Ingesteds(refs));
    DisciplinedOn(EMPTY_VIEW, ResolveAll(refs) + guard + IngestStmts(refs), IngestedView(v, Ingesteds(refs)),
                  [InsertRow(key, req.doc.payload.slug, CoSign(w, req.doc, CreatedTs(w, req.doc))),
                   AddMembers(key, Ingesteds(refs))]);
  }

  lemma ReplaceTailOk(v: View, key: DocKey, base: Row, body: Document, req: ReplaceRequest, refs: seq<Ingested>)
    requires key.table != Playlists && v.seen == map[key := base] && v.written == {}
    requires v.membersDue == map[] && v.itemsDue == map[] && v.tombstoneDue == {} && !v.readDue
    requires forall n :: 0 <= n < |refs| ==> refs[n].id in v.ensured
    requires SourcesCover(v.sources, refs)
    ensures Disciplined(v, [UpdateRow(key, base, body, req), ClearMembers(key), AddMembers(key, refs)])
  {
    LeadsThree(v, UpdateRow(key, base, body, req), ClearMembers(key), AddMembers(key, refs));
    assert map[key := true] - {key} == map[];
  }

  /** The view of a container replace before it writes its row. */
  function LinkedView(key: DocKey, base: Row, refs: seq<Reference>): View {
    IngestedView(EMPTY_VIEW.(seen := map[key := base], held := {} + HeldIds(refs)), Ingesteds(refs))
  }

  lemma ReplaceHeadOk(key: DocKey, base: Row, refs: seq<Reference>)
    requires refs != []
    ensures Leads(EMPTY_VIEW, [Load(key, base)] + ResolveAll(refs) + IngestStmts(refs), LinkedView(key, base, refs))
  {
    var load := [Load(key, base)];
    var v0 := EMPTY_VIEW.(seen := map[key := base]);
    var v := v0.(held := {} + HeldIds(refs));
    LeadsOne(EMPTY_VIEW, Load(key, base));
    ResolveAllOk(v0, refs);
    LeadsOn(EMPTY_VIEW, load, v0, ResolveAll(refs), v);
    IngestOk(v, refs);
    LeadsOn(EMPTY_VIEW, load + ResolveAll(refs), v, IngestStmts(refs), IngestedView(v, Ingesteds(refs)));
  }

  lemma ReplaceContainerOk(w: World, key: DocKey, base: Row, req: ReplaceRequest, refs: seq<Reference>)
    requires key.table != Playlists && refs != [] && UrisAgree(Ingesteds(refs))
    ensures Disciplined(EMPTY_VIEW, Program(w, ReplaceContainer(key, base, req, refs)))
  {
    ReplaceHeadOk(key, base, refs);
    LinkedAreEnsured(EMPTY_VIEW.(seen := map[key := base], held := {} + HeldIds(refs)), Ingesteds(refs));
    ReplaceTailOk(LinkedView(key, base, refs), key, base, CoSign(w, req.doc, req.ts), req, Ingesteds(refs));
    DisciplinedOn(EMPTY_VIEW, [Load(key, base)] + ResolveAll(refs) + IngestStmts(refs), LinkedView(key, base, refs),
                  [UpdateRow(key, base, CoSign(w, req.doc, req.ts), req), ClearMembers(key),
                   AddMembers(key, Ingesteds(refs))]);
  }

  /** Every admitted request issues its statements in a disciplined order. */
  lemma ProgramDisciplined(w: World, op: Op)
    requires Admitted(w, op)
    ensures Disciplined(EMPTY_VIEW, Program(w, op))
  {
    match op {
      case CreatePlaylist(req) => CreatePlaylistOk(w, req);
      case ReplacePlaylist(id, base, req) => ReplacePlaylistOk(w, id, base, req);
      case DeletePlaylist(id, base, req, capture) => DeletePlaylistOk(w, id, base, req, capture);
      case CreateContainer(table, req, refs) => CreateContainerOk(w, table, req, refs);
      case ReplaceContainer(key, base, req, refs) => ReplaceContainerOk(w, key, base, req, refs);
      case DeleteContainer(key, base, req) => DeleteContainerOk(w, key, base, req);
    }
  }

  // ---------------------------------------------------------------------------------------
  // Authority
  // ---------------------------------------------------------------------------------------

  lemma CreatedAdmissible(w: World, table: Table, req: CreateRequest)
    requires FeedSigns(w) && CreateAccepted(w, table, req)
    ensures Admissible(w, DocKey(table, IdOf(req.doc.payload)), req.doc.payload.slug,
                       CoSign(w, req.doc, CreatedTs(w, req.doc)))
  {
    CreateEstablishes(w, table, req);
  }

  /** A batch stores a fetched body only if it cleared the create bar. */
  lemma BatchAuthorized(w: World, refs: seq<Reference>, id: nat)
    requires ReferencesOk(w, refs)
    requires id in ById(Ingesteds(refs)) && id !in HeldIds(refs)
    ensures var b := ById(Ingesteds(refs))[id]; Admissible(w, PlaylistKey(id), b.slug, b.body)
  {
    ByIdCorrect(Ingesteds(refs));
    var i :| 0 <= i < |refs| && Ingesteds(refs)[i] == ById(Ingesteds(refs))[id] && Ingesteds(refs)[i].id == id;
    assert refs[i] in refs && !refs[i].held;
    assert ReferenceOk(w, refs[i]);
    IngestEstablishes(w, refs[i].ingested.body, refs[i].now);
  }

  lemma AuthorizedOne(w: World, todo: seq<Stmt>, stmt: Stmt)
    requires AllAuthorized(w, todo) && Authorized(w, stmt)
    ensures AllAuthorized(w, todo + [stmt])
  {
  }

  lemma InsertAuthorized(w: World, refs: seq<Reference>)
    requires ReferencesOk(w, refs)
    ensures Authorized(w, InsertMissing(ById(FirstOccurrences(Ingesteds(refs))), HeldIds(refs)))
  {
    FirstBodyWins(Ingesteds(refs));
    forall id | id in ById(Ingesteds(refs)) && id !in HeldIds(refs)
      ensures Admissible(w, PlaylistKey(id), ById(Ingesteds(refs))[id].slug, ById(Ingesteds(refs))[id].body)
    {
      BatchAuthorized(w, refs, id);
    }
  }

  lemma IngestAuthorized(w: World, refs: seq<Reference>)
    requires ReferencesOk(w, refs)
    ensures AllAuthorized(w, IngestStmts(refs))
  {
    var unique := FirstOccurrences(Ingesteds(refs));
    InsertAuthorized(w, refs);
    WithBatchAuthorized(w, LockAll(LockOrder(Ids(unique))), CheckTombstones(PlaylistKeys(Ids(unique))),
                        InsertMissing(ById(unique), HeldIds(refs)), UpsertSources(SourceRows(Ingesteds(refs))));
  }

  lemma WithBatchAuthorized(w: World, head: seq<Stmt>, a: Stmt, b: Stmt, c: Stmt)
    requires AllAuthorized(w, head) && Authorized(w, a) && Authorized(w, b) && Authorized(w, c)
    ensures AllAuthorized(w, head + [a, b, c])
  {
    AuthorizedOne(w, head, a);
    AuthorizedOne(w, head + [a], b);
    AuthorizedOne(w, head + [a] + [b], c);
    assert head + [a] + [b] + [c] == head + [a, b, c];
  }

  lemma AuthorizedBoth(w: World, a: seq<Stmt>, b: seq<Stmt>)
    requires AllAuthorized(w, a) && AllAuthorized(w, b)
    ensures AllAuthorized(w, a + b)
  {
  }

  /** Statements that are authorized around a batch. */
  lemma AroundBatchAuthorized(w: World, head: seq<Stmt>, refs: seq<Reference>, write: Stmt, tail: seq<Stmt>)
    requires ReferencesOk(w, refs) && AllAuthorized(w, head) && Authorized(w, write) && AllAuthorized(w, tail)
    ensures AllAuthorized(w, head + IngestStmts(refs) + ([write] + tail))
  {
    IngestAuthorized(w, refs);
    AuthorizedBoth(w, head, IngestStmts(refs));
    AuthorizedOne(w, [], write);
    assert [] + [write] == [write];
    AuthorizedBoth(w, [write], tail);
    AuthorizedBoth(w, head + IngestStmts(refs), [write] + tail);
  }

  lemma CreateContainerAuthorized(w: World, table: Table, req: CreateRequest, refs: seq<Reference>, insert: Stmt)
    requires ReferencesOk(w, refs) && Authorized(w, insert)
    ensures var key := DocKey(table, IdOf(req.doc.payload));
            AllAuthorized(w, ResolveAll(refs) + [Lock(key), CheckTombstones({key})] + IngestStmts(refs)
                             + [insert, AddMembers(key, Ingesteds(refs))])
  {
    var key := DocKey(table, IdOf(req.doc.payload));
    AroundBatchAuthorized(w, ResolveAll(refs) + [Lock(key), CheckTombstones({key})], refs, insert,
                          [AddMembers(key, Ingesteds(refs))]);
    assert [insert] + [AddMembers(key, Ingesteds(refs))] == [insert, AddMembers(key, Ingesteds(refs))];
  }

  lemma ReplaceContainerAuthorized(w: World, key: DocKey, base: Row, refs: seq<Reference>, update: Stmt)
    requires ReferencesOk(w, refs) && Authorized(w, update)
    ensures AllAuthorized(w, [Load(key, base)] + ResolveAll(refs) + IngestStmts(refs)
                             + [update, ClearMembers(key), AddMembers(key, Ingesteds(refs))])
  {
    var tail := [ClearMembers(key), AddMembers(key, Ingesteds(refs))];
    AroundBatchAuthorized(w, [Load(key, base)] + ResolveAll(refs), refs, update, tail);
    assert [update] + tail == [update, ClearMembers(key), AddMembers(key, Ingesteds(refs))];
  }

  lemma ReplacePlaylistAuthorized(w: World, id: nat, base: Row, req: ReplaceRequest)
    requires Admitted(w, ReplacePlaylist(id, base, req))
    ensures AllAuthorized(w, Program(w, ReplacePlaylist(id, base, req)))
  {
    var key := PlaylistKey(id);
    FourAuthorized(w, Load(key, base), UpdateRow(key, base, CoSign(w, req.doc, req.ts), req),
                   ClearItems(id), AddItems(id, req.doc.payload.items));
  }

  lemma FourAuthorized(w: World, a: Stmt, b: Stmt, c: Stmt, d: Stmt)
    requires Authorized(w, a) && Authorized(w, b) && Authorized(w, c) && Authorized(w, d)
    ensures AllAuthorized(w, [a, b, c, d])
  {
    AuthorizedOne(w, [], a);
    AuthorizedOne(w, [] + [a], b);
    AuthorizedOne(w, [] + [a] + [b], c);
    AuthorizedOne(w, [] + [a] + [b] + [c], d);
    assert [] + [a] + [b] + [c] + [d] == [a, b, c, d];
  }

  lemma DeleteAuthorized(w: World, key: DocKey, base: Row, req: DeleteRequest, head: seq<Stmt>)
    requires DeleteJustified(w, key, base, req) && AllAuthorized(w, head)
    ensures AllAuthorized(w, head + [DeleteRow(key, base, req), WriteTombstone(key)])
  {
    AuthorizedOne(w, head, DeleteRow(key, base, req));
    AuthorizedOne(w, head + [DeleteRow(key, base, req)], WriteTombstone(key));
    assert head + [DeleteRow(key, base, req)] + [WriteTombstone(key)] == head + [DeleteRow(key, base, req),
            WriteTombstone(key)];
  }

  lemma CreatePlaylistAuthorized(w: World, req: CreateRequest)
    requires FeedSigns(w) && CreateAccepted(w, Playlists, req)
    ensures AllAuthorized(w, Program(w, CreatePlaylist(req)))
  {
    var key := PlaylistKey(IdOf(req.doc.payload));
    CreatedAdmissible(w, Playlists, req);
    FourAuthorized(w, Lock(key), CheckTombstones({key}), InsertRow(key, req.doc.payload.slug,
                                                                   CoSign(w, req.doc, CreatedTs(w, req.doc))),
                   AddItems(key.id, req.doc.payload.items));
  }

  lemma DeletePlaylistAuthorized(w: World, id: nat, base: Row, req: DeleteRequest, capture: bool)
    requires DeleteJustified(w, PlaylistKey(id), base, req)
    ensures AllAuthorized(w, Program(w, DeletePlaylist(id, base, req, capture)))
  {
    var key := PlaylistKey(id);
    DeleteAuthorized(w, key, base, req, [Load(key, base), Lock(key)] + (if capture then [StartRead(id),
            AwaitRead(id)] else []));
  }

  /** Every statement of an admitted request writes only what the request was authorized to write. */
  lemma ProgramAuthorized(w: World, op: Op)
    requires FeedSigns(w) && Admitted(w, op)
    ensures AllAuthorized(w, Program(w, op))
  {
    match op {
      case CreatePlaylist(req) => CreatePlaylistAuthorized(w, req);
      case ReplacePlaylist(id, base, req) => ReplacePlaylistAuthorized(w, id, base, req);
      case DeletePlaylist(id, base, req, capture) => DeletePlaylistAuthorized(w, id, base, req, capture);
      case CreateContainer(table, req, refs) =>
        CreatedAdmissible(w, table, req);
        var key := DocKey(table, IdOf(req.doc.payload));
        CreateContainerAuthorized(w, table, req, refs, InsertRow(key, req.doc.payload.slug,
                                                                 CoSign(w, req.doc, CreatedTs(w, req.doc))));
      case ReplaceContainer(key, base, req, refs) =>
        ReplaceContainerAuthorized(w, key, base, refs, UpdateRow(key, base, CoSign(w, req.doc, req.ts), req));
      case DeleteContainer(key, base, req) =>
        FourAuthorized(w, Load(key, base), Lock(key), DeleteRow(key, base, req), WriteTombstone(key));
    }
  }
}
