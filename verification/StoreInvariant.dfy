/** What holds in every reachable state of the store, whatever the interleaving. */
module StoreInvariant {
  import opened Documents
  import opened CoSigning
  import opened Authorization
  import opened OwnershipLaws
  import opened Batches
  import opened StoreModel
  import opened StoreDiscipline

  // ---------------------------------------------------------------------------------------
  // The committed tables
  // ---------------------------------------------------------------------------------------

  /** The id was used under this table at some time. */
  predicate Known(t: Tables, k: DocKey) {
    k in t.rows || k in t.tombstones
  }

  /** What the membership row at a slot should be: the reference the container was last committed with,
      while that playlist lives. Positions are never renumbered. */
  function ExpectedMember(t: Tables, s: Slot): Option<nat> {
    if s.container in t.linked && s.position < |t.linked[s.container]|
       && PlaylistKey(t.linked[s.container][s.position]) in t.rows
    then Some(t.linked[s.container][s.position])
    else None
  }

  ghost predicate MembersExact(t: Tables) {
    forall s :: if s in t.members then ExpectedMember(t, s) == Some(t.members[s]) else ExpectedMember(t, s).None?
  }

  /** What the index row at a slot should be: the item at that position of the live playlist's body. */
  function ExpectedItem(t: Tables, s: ItemSlot): Option<Item> {
    if PlaylistKey(s.playlist) in t.rows && s.position < |t.rows[PlaylistKey(s.playlist)].body.payload.items|
    then Some(t.rows[PlaylistKey(s.playlist)].body.payload.items[s.position])
    else None
  }

  ghost predicate ItemsExact(t: Tables) {
    forall s :: if s in t.items then ExpectedItem(t, s) == Some(t.items[s]) else ExpectedItem(t, s).None?
  }

  ghost predicate NoneReturned(t: Tables) {
    t.rows.Keys !! t.tombstones
  }

  ghost predicate LinkedExact(t: Tables) {
    && (forall c :: c in t.linked <==> c in t.rows && c.table != Playlists)
    && (forall c, n :: c in t.linked && 0 <= n < |t.linked[c]| ==> Known(t, PlaylistKey(t.linked[c][n])))
  }

  ghost predicate SourcesLive(t: Tables) {
    forall u :: u in t.sources ==> PlaylistKey(t.sources[u]) in t.rows
  }

  ghost predicate TablesOk(t: Tables) {
    NoneReturned(t) && MembersExact(t) && ItemsExact(t) && LinkedExact(t) && SourcesLive(t)
  }

  /** Every stored body is well owned and describes its own row. */
  ghost predicate RowsAdmissible(w: World, t: Tables) {
    forall k :: k in t.rows ==> Admissible(w, k, t.rows[k].slug, t.rows[k].body)
  }

  // ---------------------------------------------------------------------------------------
  // One transaction
  // ---------------------------------------------------------------------------------------

  /** A row read earlier is still there, or was replaced by a later generation, or was deleted. */
  ghost predicate SeenOk(t: Tables, seen: map<DocKey, Row>) {
    forall k :: k in seen ==>
      && Known(t, k)
      && (k in t.rows ==> t.rows[k] == seen[k] || seen[k].generation < t.rows[k].generation)
  }

  ghost predicate LocksOk(t: Tables, v: View, p: Pending) {
    && (forall id :: id in v.held ==> Known(t, PlaylistKey(id)))
    && v.checked <= v.locks
    && v.checked !! t.tombstones
    && v.written <= p.rows.Keys
    && v.updates.Keys <= v.written
    && v.deletes.Keys <= v.written
  }

  function UpdatedSlug(base: Row, body: Document): string {
    if body.payload.slug != "" then body.payload.slug else base.slug
  }

  ghost predicate UpdateStands(t: Tables, v: View, k: DocKey, row: Row) {
    && k in v.seen && k in t.rows && t.rows[k] == v.seen[k]
    && v.seen[k].generation < row.generation
    && row.createdAt == v.seen[k].createdAt
    && row.slug == UpdatedSlug(v.seen[k], row.body)
  }

  ghost predicate InsertStands(t: Tables, v: View, k: DocKey) {
    k !in t.rows && k in v.checked
  }

  ghost predicate DeleteStands(t: Tables, v: View, tombstones: set<DocKey>, k: DocKey) {
    && k in v.locks && k in v.seen && k in t.rows && t.rows[k] == v.seen[k]
    && k in v.deletes && k !in v.updates
    && (k in tombstones || k in v.tombstoneDue)
  }

  type Rows = map<DocKey, Option<Row>>

  ghost predicate RowStands(t: Tables, v: View, rows: Rows, tombstones: set<DocKey>, k: DocKey)
    requires k in rows
  {
    && !Untouched(v, k)
    && match rows[k]
       case None => DeleteStands(t, v, tombstones, k)
       case Some(row) => if k in v.updates then UpdateStands(t, v, k, row) else InsertStands(t, v, k)
  }

  /** Every pending row still applies to the committed row it was made for. */
  ghost predicate RowsOk(t: Tables, v: View, rows: Rows, tombstones: set<DocKey>) {
    && (forall k :: k in rows ==> RowStands(t, v, rows, tombstones, k))
    && (forall k :: k in tombstones || k in v.tombstoneDue ==> k in rows && rows[k].None?)
  }

  /** The pending write of key k was authorized for exactly the row it replaces. */
  ghost predicate WriteJustified(w: World, v: View, p: Pending, k: DocKey)
    requires k in p.rows
  {
    match p.rows[k]
    case None => k in v.seen && k in v.deletes && DeleteJustified(w, k, v.seen[k], v.deletes[k])
    case Some(row) =>
      if k in v.updates then k in v.seen && ReplaceJustified(w, k, v.seen[k], row.body, v.updates[k])
      else Admissible(w, k, row.slug, row.body)
  }

  ghost predicate WritesJustified(w: World, v: View, p: Pending) {
    forall k :: k in p.rows ==> WriteJustified(w, v, p, k)
  }

  ghost predicate ItemsStand(t: Tables, due: map<nat, ItemsDue>, rows: Rows, cleared: set<nat>, added: map<nat,
                             seq<Item>>, pl: nat)
    requires PlaylistKey(pl) in rows
  {
    match rows[PlaylistKey(pl)]
    case None => pl in cleared && pl !in added && pl !in due
    case Some(row) =>
      var clean := pl in cleared || PlaylistKey(pl) !in t.rows;
      if pl in due then
        pl !in added && due[pl].items == row.body.payload.items && (due[pl].cleared ==> clean)
      else
        pl in added && added[pl] == row.body.payload.items && clean
  }

  /** A written playlist has exactly its body's items pending, or the statements for them still due. */
  ghost predicate ItemsOk(t: Tables, due: map<nat, ItemsDue>, rows: Rows, cleared: set<nat>, added: map<nat,
                          seq<Item>>) {
    && (forall pl :: pl in cleared || pl in added || pl in due ==> PlaylistKey(pl) in rows)
    && (forall pl: nat :: PlaylistKey(pl) in rows ==> ItemsStand(t, due, rows, cleared, added, pl))
  }

  ghost predicate LinksStand(v: View, c: DocKey, ids: seq<nat>) {
    && c in v.linked
    && ids == Ids(v.linked[c])
    && (forall n :: 0 <= n < |ids| ==> ids[n] in v.ensured)
    && SourcesCover(v.sources, v.linked[c])
  }

  ghost predicate MembersStand(t: Tables, v: View, rows: Rows, cleared: set<DocKey>, added: map<DocKey, seq<nat>>,
                               c: DocKey)
    requires c in rows
  {
    match rows[c]
    case None => c in cleared && c !in added && c !in v.membersDue
    case Some(_) =>
      var clean := c in cleared || c !in t.rows;
      if c in v.membersDue then c !in added && (v.membersDue[c] ==> clean)
      else c in added && clean && LinksStand(v, c, added[c])
  }

  /** A written container has exactly its linked references pending, or the statements for them due. */
  ghost predicate MembersOk(t: Tables, v: View, rows: Rows, cleared: set<DocKey>, added: map<DocKey, seq<nat>>) {
    && (forall c :: c in cleared || c in added || c in v.membersDue ==> c in rows && c.table != Playlists)
    && (forall c :: c in rows && c.table != Playlists ==> MembersStand(t, v, rows, cleared, added, c))
  }

  /** The transaction is deleting the playlist. */
  predicate Deletes(rows: Rows, playlist: nat) {
    PlaylistKey(playlist) in rows && rows[PlaylistKey(playlist)].None?
  }

  /** A delete removed exactly the dependent rows that are there now. */
  ghost predicate CutOk(t: Tables, rows: Rows, cut: map<Slot, nat>, cutSources: map<string, nat>) {
    && (forall s :: s in t.members && Deletes(rows, t.members[s]) ==> s in cut && cut[s] == t.members[s])
    && (forall s :: s in cut ==> Deletes(rows, cut[s]))
    && (forall u :: u in t.sources && Deletes(rows, t.sources[u]) ==> u in cutSources && cutSources[u] == t.sources[u])
    && (forall u :: u in cutSources ==> Deletes(rows, cutSources[u]))
  }

  /** The playlists a transaction links are live to it, and locked. */
  ghost predicate EnsuredOk(t: Tables, v: View, p: Pending) {
    && (forall id :: id in v.ensured ==> PlaylistKey(id) in v.locks && VisibleRow(t, p, PlaylistKey(id)).Some?)
    && p.sources == v.sources
    && (forall u :: u in p.sources ==> p.sources[u] in v.ensured)
  }

  /** Every channel that still lists the playlist is in the snapshot taken for its delete. */
  ghost predicate ReadOk(t: Tables, v: View, read: Read) {
    match read
    case NoRead => true
    case Waiting(p) => v.readBegun && v.readDue && PlaylistKey(p) in v.locks
    case Taken(p, rows) => v.readBegun && PlaylistKey(p) in v.locks && forall c: nat :: Lists(t, c, p) ==> c in rows
    case Abandoned => v.readBegun
  }

  ghost predicate TxOk(t: Tables, x: Tx) {
    && SeenOk(t, x.view.seen)
    && LocksOk(t, x.view, x.pending)
    && RowsOk(t, x.view, x.pending.rows, x.pending.tombstones)
    && ItemsOk(t, x.view.itemsDue, x.pending.rows, x.pending.itemsCleared, x.pending.itemsAdded)
    && MembersOk(t, x.view, x.pending.rows, x.pending.membersCleared, x.pending.membersAdded)
    && CutOk(t, x.pending.rows, x.pending.cut, x.pending.cutSources)
    && EnsuredOk(t, x.view, x.pending)
    && ReadOk(t, x.view, x.read)
  }

  // ---------------------------------------------------------------------------------------
  // The whole store
  // ---------------------------------------------------------------------------------------

  ghost predicate Exclusive(s: Store) {
    forall i, j :: i in s.txs && j in s.txs && i != j ==>
      && s.txs[i].view.locks !! s.txs[j].view.locks
      && s.txs[i].pending.rows.Keys !! s.txs[j].pending.rows.Keys
  }

  ghost predicate StoreOk(s: Store) {
    && TablesOk(s.tables)
    && (forall i :: i in s.txs ==> TxOk(s.tables, s.txs[i]))
    && (forall i :: i in s.txs ==> Disciplined(s.txs[i].view, s.txs[i].todo))
    && Exclusive(s)
  }

  ghost predicate StoreJustified(w: World, s: Store) {
    && RowsAdmissible(w, s.tables)
    && (forall i :: i in s.txs ==>
          WritesJustified(w, s.txs[i].view, s.txs[i].pending) && AllAuthorized(w, s.txs[i].todo))
  }
}
