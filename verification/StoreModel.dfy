/** The document store as a machine of interleaved transactions.

    A transaction is the list of statements it still has to run. A statement reads the committed tables
    and the transaction's own pending writes, and adds to those pending writes; nothing is visible to
    others until the commit applies them all. Row writes and advisory locks exclude other transactions
    until the holder commits or rolls back. Any interleaving of statements, commits and rollbacks of any
    number of transactions is a run. */
module StoreModel {
  import opened Text
  import opened Documents
  import opened CoSigning
  import opened Authorization
  import opened OwnershipLaws
  import opened Batches

  // ---------------------------------------------------------------------------------------
  // Tables
  // ---------------------------------------------------------------------------------------

  datatype DocKey = DocKey(table: Table, id: nat)

  function PlaylistKey(id: nat): DocKey {
    DocKey(Playlists, id)
  }

  /** `generation` is the row's updated_at. */
  datatype Row = Row(slug: string, body: Document, createdAt: nat, generation: nat)

  /** Primary key of a membership row. */
  datatype Slot = Slot(container: DocKey, position: nat)

  /** A row of the item index: which playlist, at which array position. */
  datatype ItemSlot = ItemSlot(playlist: nat, position: nat)

  /** The committed state. `linked` is history only: the reference list each live container was last
      committed with. No statement reads it. */
  datatype Tables = Tables(
    rows: map<DocKey, Row>,
    tombstones: set<DocKey>,
    members: map<Slot, nat>,
    items: map<ItemSlot, Item>,
    sources: map<string, nat>,
    linked: map<DocKey, seq<nat>>)

  const EMPTY_TABLES := Tables(map[], {}, map[], map[], map[], map[])

  // ---------------------------------------------------------------------------------------
  // Statements
  // ---------------------------------------------------------------------------------------

  /** A resolved reference: `held` when the answer was a stored row, otherwise a fetched body that is to
      be stored if its id is new. */
  datatype Reference = Reference(ingested: Ingested, held: bool, now: int)

  /** An update or delete names the row it was authorized against: it applies only if the stored row is
      still of that row's generation. What authorized it, and which ids of a batch were held, is carried
      along for proofs and never read. */
  datatype Stmt =
    | Load(key: DocKey, row: Row)
    | Resolve(ref: Reference)
    | Lock(key: DocKey)
    | CheckTombstones(keys: set<DocKey>)
    | InsertRow(key: DocKey, slug: string, body: Document)
    | UpdateRow(key: DocKey, base: Row, body: Document, why: ReplaceRequest)
    | DeleteRow(key: DocKey, base: Row, because: DeleteRequest)
    | WriteTombstone(key: DocKey)
    | ClearItems(playlist: nat)
    | AddItems(playlist: nat, items: seq<Item>)
    | InsertMissing(batch: map<nat, Ingested>, held: set<nat>)
    | UpsertSources(rows: map<string, nat>)
    | ClearMembers(container: DocKey)
    | AddMembers(container: DocKey, refs: seq<Ingested>)
    | StartRead(playlist: nat)
    | AwaitRead(playlist: nat)

  /** The requests that change the store. `base` is the row the executor read and authorized against;
      `capture` is whether a playlist delete obtained a connection for its recipient read. */
  datatype Op =
    | CreatePlaylist(create: CreateRequest)
    | ReplacePlaylist(id: nat, base: Row, replace: ReplaceRequest)
    | DeletePlaylist(id: nat, base: Row, delete: DeleteRequest, capture: bool)
    | CreateContainer(table: Table, create: CreateRequest, refs: seq<Reference>)
    | ReplaceContainer(key: DocKey, base: Row, replace: ReplaceRequest, refs: seq<Reference>)
    | DeleteContainer(key: DocKey, base: Row, delete: DeleteRequest)

  function ById(refs: seq<Ingested>): map<nat, Ingested> {
    if refs == [] then map[]
    else
      var rest := ById(refs[..|refs| - 1]);
      var last := refs[|refs| - 1];
      if last.id in rest then rest else rest[last.id := last]
  }

  function Ingesteds(refs: seq<Reference>): seq<Ingested> {
    seq(|refs|, i requires 0 <= i < |refs| => refs[i].ingested)
  }

  function ResolveAll(refs: seq<Reference>): seq<Stmt> {
    seq(|refs|, i requires 0 <= i < |refs| => Resolve(refs[i]))
  }

  function LockAll(ids: seq<nat>): seq<Stmt> {
    seq(|ids|, i requires 0 <= i < |ids| => Lock(PlaylistKey(ids[i])))
  }

  function PlaylistKeys(ids: seq<nat>): set<DocKey> {
    set id | id in ids :: PlaylistKey(id)
  }

  /** The ids some reference was answered with from a stored row. */
  function HeldIds(refs: seq<Reference>): set<nat> {
    set r | r in refs && r.held :: r.ingested.id
  }

  /** Link a batch of references: lock, check, insert what is missing, record sources. */
  function IngestStmts(refs: seq<Reference>): seq<Stmt> {
    if refs == [] then []
    else
      var unique := FirstOccurrences(Ingesteds(refs));
      LockAll(LockOrder(Ids(unique)))
      + [CheckTombstones(PlaylistKeys(Ids(unique))),
         InsertMissing(ById(unique), HeldIds(refs)),
         UpsertSources(SourceRows(Ingesteds(refs)))]
  }

  /** The statements of a request, in the order the service issues them. */
  function Program(w: World, op: Op): seq<Stmt> {
    match op
    case CreatePlaylist(req) =>
      var p := req.doc.payload;
      var key := PlaylistKey(IdOf(p));
      [Lock(key), CheckTombstones({key}), InsertRow(key, p.slug, CoSign(w, req.doc, CreatedTs(w, req.doc))),
       AddItems(key.id, p.items)]
    case ReplacePlaylist(id, base, req) =>
      var key := PlaylistKey(id);
      [Load(key, base), UpdateRow(key, base, CoSign(w, req.doc, req.ts), req),
       ClearItems(id), AddItems(id, req.doc.payload.items)]
    case DeletePlaylist(id, base, req, capture) =>
      var key := PlaylistKey(id);
      [Load(key, base), Lock(key)]
      + (if capture then [StartRead(id), AwaitRead(id)] else [])
      + [DeleteRow(key, base, req), WriteTombstone(key)]
    case CreateContainer(table, req, refs) =>
      var key := DocKey(table, IdOf(req.doc.payload));
      ResolveAll(refs) + [Lock(key), CheckTombstones({key})] + IngestStmts(refs)
      + [InsertRow(key, req.doc.payload.slug, CoSign(w, req.doc, CreatedTs(w, req.doc))),
         AddMembers(key, Ingesteds(refs))]
    case ReplaceContainer(key, base, req, refs) =>
      [Load(key, base)] + ResolveAll(refs) + IngestStmts(refs)
      + [UpdateRow(key, base, CoSign(w, req.doc, req.ts), req), ClearMembers(key), AddMembers(key, Ingesteds(refs))]
    case DeleteContainer(key, base, req) =>
      [Load(key, base), Lock(key), DeleteRow(key, base, req), WriteTombstone(key)]
  }

  function IdOf(p: Payload): nat {
    if p.id.Some? then p.id.value else 0
  }

  /** A fetched reference cleared the create bar and is described by its own document. */
  ghost predicate ReferenceOk(w: World, r: Reference) {
    r.held || (
      && IngestAccepted(w, r.ingested.body, r.now)
      && r.ingested.body.payload.id == Some(r.ingested.id)
      && r.ingested.slug == r.ingested.body.payload.slug)
  }

  ghost predicate ReferencesOk(w: World, refs: seq<Reference>) {
    && refs != []
    && UrisAgree(Ingesteds(refs))
    && forall i :: 0 <= i < |refs| ==> ReferenceOk(w, refs[i])
  }

  /** The request passed the executor's guards against the row it read. */
  ghost predicate Admitted(w: World, op: Op) {
    match op
    case CreatePlaylist(req) => CreateAccepted(w, Playlists, req)
    case ReplacePlaylist(id, base, req) => ReplaceAccepted(w, Playlists, id, base.slug, base.body, req)
    case DeletePlaylist(id, base, req, _) => DeleteAccepted(w, Playlists, id, base.slug, base.body, req)
    case CreateContainer(table, req, refs) =>
      table != Playlists && CreateAccepted(w, table, req) && ReferencesOk(w, refs)
    case ReplaceContainer(key, base, req, refs) =>
      && key.table != Playlists && ReferencesOk(w, refs)
      && ReplaceAccepted(w, key.table, key.id, base.slug, base.body, req)
    case DeleteContainer(key, base, req) =>
      key.table != Playlists && DeleteAccepted(w, key.table, key.id, base.slug, base.body, req)
  }

  // ---------------------------------------------------------------------------------------
  // Transactions
  // ---------------------------------------------------------------------------------------

  /** Writes not yet committed. A None row is a delete. `cut` and `cutSources` are the dependent rows a
      playlist delete found and removed when its statement ran. */
  datatype Pending = Pending(
    rows: map<DocKey, Option<Row>>,
    tombstones: set<DocKey>,
    cut: map<Slot, nat>,
    cutSources: map<string, nat>,
    itemsCleared: set<nat>,
    itemsAdded: map<nat, seq<Item>>,
    membersCleared: set<DocKey>,
    membersAdded: map<DocKey, seq<nat>>,
    sources: map<string, nat>)

  const NOTHING_PENDING := Pending(map[], {}, map[], map[], {}, map[], {}, map[], map[])

  /** The recipient read of a playlist delete. `rows` lists the channel of each membership row found. */
  datatype Read = NoRead | Waiting(playlist: nat) | Taken(playlist: nat, rows: seq<nat>) | Abandoned

  /** Item index rows a written playlist still needs, and whether its old rows are gone. */
  datatype ItemsDue = ItemsDue(items: seq<Item>, cleared: bool)

  /** What a transaction has done so far, as far as its own statements tell. Only `locks` takes part in
      the machine; the rest is bookkeeping for proofs. */
  datatype View = View(
    locks: set<DocKey>,
    checked: set<DocKey>,
    seen: map<DocKey, Row>,
    held: set<nat>,
    written: set<DocKey>,
    updates: map<DocKey, ReplaceRequest>,
    deletes: map<DocKey, DeleteRequest>,
    ensured: set<nat>,
    sources: map<string, nat>,
    linked: map<DocKey, seq<Ingested>>,
    itemsDue: map<nat, ItemsDue>,
    membersDue: map<DocKey, bool>,
    tombstoneDue: set<DocKey>,
    readBegun: bool,
    readDue: bool)

  const EMPTY_VIEW := View({}, {}, map[], {}, {}, map[], map[], {}, map[], map[], map[], map[], {}, false, false)

  /** A request on its way. `now` is the transaction's start time. */
  datatype Tx = Tx(op: Op, todo: seq<Stmt>, view: View, pending: Pending, now: nat, read: Read)

  datatype Store = Store(tables: Tables, txs: map<nat, Tx>)

  const EMPTY_STORE := Store(EMPTY_TABLES, map[])

  function VisibleRow(t: Tables, p: Pending, k: DocKey): Option<Row> {
    if k in p.rows then p.rows[k]
    else if k in t.rows then Some(t.rows[k])
    else None
  }

  /** An index row that was not cleared first stays, whatever is added. */
  function VisibleItem(t: Tables, p: Pending, s: ItemSlot): Option<Item> {
    if s.playlist !in p.itemsCleared && s in t.items then Some(t.items[s])
    else if s.playlist in p.itemsAdded && s.position < |p.itemsAdded[s.playlist]| then
      Some(p.itemsAdded[s.playlist][s.position])
    else None
  }

  function VisibleMember(t: Tables, p: Pending, s: Slot): Option<nat> {
    if s.container in p.membersAdded && s.position < |p.membersAdded[s.container]| then
      Some(p.membersAdded[s.container][s.position])
    else if s.container in p.membersCleared then None
    else if s in t.members && !(s in p.cut && p.cut[s] == t.members[s]) then Some(t.members[s])
    else None
  }

  function VisibleSource(t: Tables, p: Pending, u: string): Option<nat> {
    if u in p.sources then Some(p.sources[u])
    else if u in t.sources && !(u in p.cutSources && p.cutSources[u] == t.sources[u]) then Some(t.sources[u])
    else None
  }

  function LinkedAfter(t: Tables, p: Pending, c: DocKey): Option<seq<nat>> {
    if c in p.rows && p.rows[c].None? then None
    else if c in p.membersAdded then Some(p.membersAdded[c])
    else if c in t.linked then Some(t.linked[c])
    else None
  }

  /** The updated_at an UPDATE stores: the transaction's start time, or just past the old value. */
  function NextGeneration(previous: nat, now: nat): nat {
    if previous >= now then previous + 1 else now
  }

  function MissingFrom(t: Tables, p: Pending, batch: map<nat, Ingested>): set<nat> {
    set id | id in batch && VisibleRow(t, p, PlaylistKey(id)).None?
  }

  /** The index rows a written playlist needs. */
  function DueItems(due: map<nat, ItemsDue>, k: DocKey, body: Document, empty: bool): map<nat, ItemsDue> {
    if k.table == Playlists then due[k.id := ItemsDue(body.payload.items, empty)] else due
  }

  /** The membership rows a written container needs. */
  function DueMembers(due: map<DocKey, bool>, k: DocKey, empty: bool): map<DocKey, bool> {
    if k.table == Playlists then due else due[k := empty]
  }

  function ItemsCleared(due: map<nat, ItemsDue>, playlist: nat): map<nat, ItemsDue> {
    if playlist in due then due[playlist := due[playlist].(cleared := true)] else due
  }

  function MembersCleared(due: map<DocKey, bool>, c: DocKey): map<DocKey, bool> {
    if c in due then due[c := true] else due
  }

  /** The view after a statement. It depends on the statement alone. */
  function ViewAfter(v: View, stmt: Stmt): View {
    match stmt
    case Load(k, row) => v.(seen := v.seen[k := row])
    case Resolve(r) => v.(held := if r.held then v.held + {r.ingested.id} else v.held)
    case Lock(k) => v.(locks := v.locks + {k})
    case CheckTombstones(ks) => v.(checked := v.checked + ks)
    case InsertRow(k, _, body) =>
      v.(written := v.written + {k},
         itemsDue := DueItems(v.itemsDue, k, body, true), membersDue := DueMembers(v.membersDue, k, true))
    case UpdateRow(k, _, body, why) =>
      v.(written := v.written + {k}, updates := v.updates[k := why],
         itemsDue := DueItems(v.itemsDue, k, body, false), membersDue := DueMembers(v.membersDue, k, false))
    case DeleteRow(k, _, because) =>
      v.(written := v.written + {k}, deletes := v.deletes[k := because], tombstoneDue := v.tombstoneDue + {k})
    case WriteTombstone(k) => v.(tombstoneDue := v.tombstoneDue - {k})
    case ClearItems(p) => v.(itemsDue := ItemsCleared(v.itemsDue, p))
    case AddItems(p, _) => v.(itemsDue := v.itemsDue - {p})
    case InsertMissing(batch, _) => v.(ensured := v.ensured + batch.Keys)
    case UpsertSources(rows) => v.(sources := v.sources + rows)
    case ClearMembers(c) => v.(membersDue := MembersCleared(v.membersDue, c))
    case AddMembers(c, refs) => v.(membersDue := v.membersDue - {c}, linked := v.linked[c := refs])
    case StartRead(_) => v.(readBegun := true, readDue := true)
    case AwaitRead(_) => v.(readDue := false)
  }

  function KeysOf(ids: set<nat>): (keys: set<DocKey>)
    ensures forall k :: k in keys <==> k.table == Playlists && k.id in ids
  {
    var keys := set id | id in ids :: PlaylistKey(id);
    assert forall k: DocKey :: k.table == Playlists ==> k == PlaylistKey(k.id);
    keys
  }

  /** The rows a batch adds: those whose id is new, with the body of the batch. */
  function MissingRows(t: Tables, p: Pending, batch: map<nat, Ingested>, now: nat): (rows: map<DocKey, Option<Row>>)
    ensures forall k :: k in rows <==> k.table == Playlists && k.id in MissingFrom(t, p, batch)
    ensures forall k :: k in rows ==> k.id in batch && rows[k] == Some(Row(batch[k.id].slug, batch[k.id].body, now,
                                                                           now))
  {
    map k | k in KeysOf(MissingFrom(t, p, batch)) :: Some(Row(batch[k.id].slug, batch[k.id].body, now, now))
  }

  function MissingItems(t: Tables, p: Pending, batch: map<nat, Ingested>): map<nat, seq<Item>> {
    map id | id in MissingFrom(t, p, batch) :: batch[id].body.payload.items
  }

  /** The row an UPDATE stores over `row`. */
  function UpdatedRow(row: Row, body: Document, now: nat): Row {
    Row(if body.payload.slug != "" then body.payload.slug else row.slug, body, row.createdAt,
        NextGeneration(row.generation, now))
  }

  function MembersOf(t: Tables, playlist: nat): map<Slot, nat> {
    map s | s in t.members && t.members[s] == playlist :: playlist
  }

  function SourcesOf(t: Tables, playlist: nat): map<string, nat> {
    map u | u in t.sources && t.sources[u] == playlist :: playlist
  }

  /** Deletes a playlist row with everything that hangs off it: index, membership and source rows. */
  function DropPlaylist(t: Tables, p: Pending, id: nat): Pending {
    p.(rows := p.rows[PlaylistKey(id) := None],
       itemsCleared := p.itemsCleared + {id}, itemsAdded := p.itemsAdded - {id},
       cut := p.cut + MembersOf(t, id), cutSources := p.cutSources + SourcesOf(t, id))
  }

  /** Deletes a container row with its membership rows. */
  function DropContainer(p: Pending, c: DocKey): Pending {
    p.(rows := p.rows[c := None], membersCleared := p.membersCleared + {c}, membersAdded := p.membersAdded - {c})
  }

  /** The pending writes after a statement. */
  function PendingAfter(t: Tables, p: Pending, stmt: Stmt, now: nat): Pending {
    match stmt
    case InsertRow(k, slug, body) => p.(rows := p.rows[k := Some(Row(slug, body, now, now))])
    case UpdateRow(k, _, body, _) =>
      if VisibleRow(t, p, k).None? then p
      else p.(rows := p.rows[k := Some(UpdatedRow(VisibleRow(t, p, k).value, body, now))])
    case DeleteRow(k, _, _) => if k.table == Playlists then DropPlaylist(t, p, k.id) else DropContainer(p, k)
    case WriteTombstone(k) => p.(tombstones := p.tombstones + {k})
    case ClearItems(pl) => p.(itemsCleared := p.itemsCleared + {pl}, itemsAdded := p.itemsAdded - {pl})
    case AddItems(pl, items) => p.(itemsAdded := p.itemsAdded[pl := items])
    case InsertMissing(batch, _) =>
      p.(rows := p.rows + MissingRows(t, p, batch, now), itemsAdded := p.itemsAdded + MissingItems(t, p, batch))
    case UpsertSources(rows) => p.(sources := p.sources + rows)
    case ClearMembers(c) => p.(membersCleared := p.membersCleared + {c}, membersAdded := p.membersAdded - {c})
    case AddMembers(c, refs) => p.(membersAdded := p.membersAdded[c := Ids(refs)])
    case _ => p
  }

  // ---------------------------------------------------------------------------------------
  // Steps
  // ---------------------------------------------------------------------------------------

  predicate RowFree(s: Store, i: nat, k: DocKey) {
    forall j :: j in s.txs && j != i ==> k !in s.txs[j].pending.rows
  }

  predicate HoldsSlug(rows: map<DocKey, Option<Row>>, table: Table, slug: string) {
    exists k :: k in rows && k.table == table && rows[k].Some? && rows[k].value.slug == slug
  }

  predicate SlugFree(s: Store, table: Table, slug: string) {
    && (forall k :: k in s.tables.rows && k.table == table ==> s.tables.rows[k].slug != slug)
    && (forall j :: j in s.txs ==> !HoldsSlug(s.txs[j].pending.rows, table, slug))
  }

  predicate MatchesGeneration(t: Tables, p: Pending, k: DocKey, expected: nat) {
    VisibleRow(t, p, k).Some? && VisibleRow(t, p, k).value.generation == expected
  }

  predicate DistinctItemIds(items: seq<Item>) {
    forall a, b :: 0 <= a < b < |items| ==> items[a].id != items[b].id
  }

  /** The statement can run now and succeeds. A statement that would fail, or that waits, does not run:
      the transaction can then only wait or roll back. */
  ghost predicate Enabled(s: Store, i: nat)
    requires i in s.txs && s.txs[i].todo != []
  {
    var t, x := s.tables, s.txs[i];
    var p := x.pending;
    match x.todo[0]
    case Load(k, row) => k in t.rows && t.rows[k] == row
    case Resolve(r) => r.held ==> PlaylistKey(r.ingested.id) in t.rows
    case Lock(k) => forall j :: j in s.txs && j != i ==> k !in s.txs[j].view.locks
    case CheckTombstones(ks) => ks !! t.tombstones + p.tombstones
    case InsertRow(k, slug, _) => RowFree(s, i, k) && VisibleRow(t, p, k).None? && SlugFree(s, k.table, slug)
    case UpdateRow(k, base, _, _) => RowFree(s, i, k) && MatchesGeneration(t, p, k, base.generation)
    case DeleteRow(k, base, _) => RowFree(s, i, k) && MatchesGeneration(t, p, k, base.generation)
    case AddItems(pl, items) =>
      && DistinctItemIds(items)
      && forall n, m :: 0 <= n < |items| && VisibleItem(t, p, ItemSlot(pl, m)).Some?
           ==> VisibleItem(t, p, ItemSlot(pl, m)).value.id != items[n].id
    case InsertMissing(batch, _) =>
      && (forall id :: id in MissingFrom(t, p, batch) ==>
            RowFree(s, i, PlaylistKey(id)) && SlugFree(s, Playlists, batch[id].slug)
            && DistinctItemIds(batch[id].body.payload.items))
      && (forall a, b :: a in MissingFrom(t, p, batch) && b in MissingFrom(t, p, batch) && a != b
            ==> batch[a].slug != batch[b].slug)
    case AddMembers(c, refs) =>
      && VisibleRow(t, p, c).Some?
      && forall n :: 0 <= n < |refs| ==>
           VisibleMember(t, p, Slot(c, n)).None? && VisibleRow(t, p, PlaylistKey(refs[n].id)).Some?
    case AwaitRead(_) => x.read.Taken?
    case _ => true
  }

  function ReadAfter(read: Read, stmt: Stmt): Read {
    if stmt.StartRead? then Waiting(stmt.playlist) else read
  }

  /** The transaction after running its next statement. */
  function Advance(t: Tables, x: Tx): Tx
    requires x.todo != []
  {
    Tx(x.op, x.todo[1..], ViewAfter(x.view, x.todo[0]), PendingAfter(t, x.pending, x.todo[0], x.now), x.now,
       ReadAfter(x.read, x.todo[0]))
  }

  function CommittedRows(t: Tables, p: Pending): (rows: map<DocKey, Row>)
    ensures forall k :: k in rows <==> VisibleRow(t, p, k).Some?
    ensures forall k :: k in rows ==> VisibleRow(t, p, k) == Some(rows[k])
  {
    map k | k in t.rows.Keys + p.rows.Keys && VisibleRow(t, p, k).Some? :: VisibleRow(t, p, k).value
  }

  function CommittedMembers(t: Tables, p: Pending): (members: map<Slot, nat>)
    ensures forall s :: s in members <==> VisibleMember(t, p, s).Some?
    ensures forall s :: s in members ==> VisibleMember(t, p, s) == Some(members[s])
  {
    var slots := t.members.Keys + set c, n | c in p.membersAdded && 0 <= n < |p.membersAdded[c]| :: Slot(c, n);
    map s | s in slots && VisibleMember(t, p, s).Some? :: VisibleMember(t, p, s).value
  }

  function CommittedItems(t: Tables, p: Pending): (items: map<ItemSlot, Item>)
    ensures forall s :: s in items <==> VisibleItem(t, p, s).Some?
    ensures forall s :: s in items ==> VisibleItem(t, p, s) == Some(items[s])
  {
    var slots := t.items.Keys + set pl, n | pl in p.itemsAdded && 0 <= n < |p.itemsAdded[pl]| :: ItemSlot(pl, n);
    map s | s in slots && VisibleItem(t, p, s).Some? :: VisibleItem(t, p, s).value
  }

  function CommittedSources(t: Tables, p: Pending): (sources: map<string, nat>)
    ensures forall u :: u in sources <==> VisibleSource(t, p, u).Some?
    ensures forall u :: u in sources ==> VisibleSource(t, p, u) == Some(sources[u])
  {
    map u | u in t.sources.Keys + p.sources.Keys && VisibleSource(t, p, u).Some? :: VisibleSource(t, p, u).value
  }

  function CommittedLinks(t: Tables, p: Pending): (linked: map<DocKey, seq<nat>>)
    ensures forall c :: c in linked <==> LinkedAfter(t, p, c).Some?
    ensures forall c :: c in linked ==> LinkedAfter(t, p, c) == Some(linked[c])
  {
    map c | c in t.linked.Keys + p.membersAdded.Keys && LinkedAfter(t, p, c).Some? :: LinkedAfter(t, p, c).value
  }

  /** The committed tables after a transaction's writes are applied. */
  function Commit(t: Tables, p: Pending): (t': Tables)
    ensures forall k :: k in t'.rows <==> VisibleRow(t, p, k).Some?
    ensures forall k :: k in t'.rows ==> VisibleRow(t, p, k) == Some(t'.rows[k])
    ensures forall s :: s in t'.members <==> VisibleMember(t, p, s).Some?
    ensures forall s :: s in t'.members ==> VisibleMember(t, p, s) == Some(t'.members[s])
    ensures forall s :: s in t'.items <==> VisibleItem(t, p, s).Some?
    ensures forall s :: s in t'.items ==> VisibleItem(t, p, s) == Some(t'.items[s])
    ensures forall u :: u in t'.sources <==> VisibleSource(t, p, u).Some?
    ensures forall u :: u in t'.sources ==> VisibleSource(t, p, u) == Some(t'.sources[u])
    ensures forall c :: c in t'.linked <==> LinkedAfter(t, p, c).Some?
    ensures forall c :: c in t'.linked ==> LinkedAfter(t, p, c) == Some(t'.linked[c])
    ensures t'.tombstones == t.tombstones + p.tombstones
  {
    Tables(CommittedRows(t, p), t.tombstones + p.tombstones, CommittedMembers(t, p), CommittedItems(t, p),
           CommittedSources(t, p), CommittedLinks(t, p))
  }

  /** A request starts. */
  ghost predicate BeginStep(w: World, s: Store, s': Store, i: nat, op: Op, now: nat) {
    && i !in s.txs
    && Admitted(w, op)
    && s' == s.(txs := s.txs[i := Tx(op, Program(w, op), EMPTY_VIEW, NOTHING_PENDING, now, NoRead)])
  }

  /** A transaction runs its next statement. */
  ghost predicate StmtStep(s: Store, s': Store, i: nat) {
    && i in s.txs && s.txs[i].todo != []
    && Enabled(s, i)
    && s' == s.(txs := s.txs[i := Advance(s.tables, s.txs[i])])
  }

  /** Channel c has a membership row for the playlist. */
  ghost predicate Lists(t: Tables, c: nat, playlist: nat) {
    exists s :: s in t.members && s.container == DocKey(Channels, c) && t.members[s] == playlist
  }

  /** rows lists, in any order and multiplicity, the channels with a membership row for the playlist. */
  ghost predicate ListsChannels(t: Tables, playlist: nat, rows: seq<nat>) {
    forall c: nat :: c in rows <==> Lists(t, c, playlist)
  }

  /** The recipient read of a delete fixes its snapshot. */
  ghost predicate SnapshotStep(s: Store, s': Store, i: nat, rows: seq<nat>) {
    && i in s.txs && s.txs[i].read.Waiting?
    && ListsChannels(s.tables, s.txs[i].read.playlist, rows)
    && s' == s.(txs := s.txs[i := s.txs[i].(read := Taken(s.txs[i].read.playlist, rows))])
  }

  /** The wait for the recipient read runs out: the read is abandoned and never collected. */
  ghost predicate TimeoutStep(s: Store, s': Store, i: nat) {
    && i in s.txs && s.txs[i].todo != [] && s.txs[i].todo[0].AwaitRead?
    && s' == s.(txs := s.txs[i := Advance(s.tables, s.txs[i]).(read := Abandoned)])
  }

  ghost predicate CommitStep(s: Store, s': Store, i: nat) {
    && i in s.txs && s.txs[i].todo == []
    && s' == Store(Commit(s.tables, s.txs[i].pending), s.txs - {i})
  }

  /** A transaction may fail at any point: a refused statement, a lost connection, a deadline. */
  ghost predicate RollbackStep(s: Store, s': Store, i: nat) {
    i in s.txs && s' == s.(txs := s.txs - {i})
  }

  ghost predicate Step(w: World, s: Store, s': Store) {
    || (exists i, op, now :: BeginStep(w, s, s', i, op, now))
    || (exists i :: StmtStep(s, s', i))
    || (exists i, rows :: SnapshotStep(s, s', i, rows))
    || (exists i :: TimeoutStep(s, s', i))
    || (exists i :: CommitStep(s, s', i))
    || (exists i :: RollbackStep(s, s', i))
  }

  ghost predicate StepsAt(w: World, run: seq<Store>, n: nat)
    requires n + 1 < |run|
  {
    Step(w, run[n], run[n + 1])
  }

  /** A run: it starts empty and each state follows from the one before by one step. */
  ghost predicate Run(w: World, run: seq<Store>) {
    && run != []
    && run[0] == EMPTY_STORE
    && forall n: nat :: n + 1 < |run| ==> StepsAt(w, run, n)
  }
}
