/** What the commit of each kind of request does to the tables. A transaction's writes are traced back
    to the request it serves. */
module StoreEffects {
  import opened Documents
  import opened CoSigning
  import opened Authorization
  import opened OwnershipLaws
  import opened Batches
  import opened StoreModel
  import opened StoreDiscipline
  import opened StoreInvariant
  import opened StoreStatements
  import opened StoreCommits
  import opened StoreHistory

  // ---------------------------------------------------------------------------------------
  // Where a write comes from
  // ---------------------------------------------------------------------------------------

  /** The document a request is about. */
  function Target(op: Op): DocKey {
    match op
    case CreatePlaylist(req) => PlaylistKey(IdOf(req.doc.payload))
    case ReplacePlaylist(id, _, _) => PlaylistKey(id)
    case DeletePlaylist(id, _, _, _) => PlaylistKey(id)
    case CreateContainer(table, req, _) => DocKey(table, IdOf(req.doc.payload))
    case ReplaceContainer(key, _, _, _) => key
    case DeleteContainer(key, _, _) => key
  }

  predicate Creates(op: Op) {
    op.CreatePlaylist? || op.CreateContainer?
  }

  predicate Replaces(op: Op) {
    op.ReplacePlaylist? || op.ReplaceContainer?
  }

  predicate Deletes(op: Op) {
    op.DeletePlaylist? || op.DeleteContainer?
  }

  predicate Links(op: Op) {
    op.CreateContainer? || op.ReplaceContainer?
  }

  /** The references a request links. */
  function Linked(op: Op): seq<Ingested> {
    if op.CreateContainer? || op.ReplaceContainer? then Ingesteds(op.refs) else []
  }

  /** The body a create or replace stores. */
  function Stored(w: World, op: Op): Document
    requires !Deletes(op)
  {
    if Creates(op) then CoSign(w, op.create.doc, CreatedTs(w, op.create.doc))
    else CoSign(w, op.replace.doc, op.replace.ts)
  }

  ghost predicate StmtOf(w: World, op: Op, stmt: Stmt) {
    match stmt
    case Load(k, row) => k == Target(op) && !Creates(op) && row == op.base
    case InsertRow(k, slug, body) =>
      k == Target(op) && Creates(op) && slug == op.create.doc.payload.slug && body == Stored(w, op)
    case UpdateRow(k, base, body, _) => k == Target(op) && Replaces(op) && base == op.base && body == Stored(w, op)
    case DeleteRow(k, _, _) => k == Target(op) && Deletes(op)
    case InsertMissing(batch, _) => Links(op) && batch == ById(Linked(op))
    case UpsertSources(rows) => Links(op) && rows == SourceRows(Linked(op))
    case AddMembers(c, refs) => Links(op) && c == Target(op) && refs == Linked(op)
    case StartRead(p) => op.DeletePlaylist? && p == op.id
    case AwaitRead(p) => op.DeletePlaylist? && p == op.id
    case _ => true
  }

  ghost predicate AllOf(w: World, op: Op, todo: seq<Stmt>) {
    forall i :: 0 <= i < |todo| ==> StmtOf(w, op, todo[i])
  }

  lemma AllOfBoth(w: World, op: Op, a: seq<Stmt>, b: seq<Stmt>)
    requires AllOf(w, op, a) && AllOf(w, op, b)
    ensures AllOf(w, op, a + b)
  {
  }

  lemma AllOfThen(w: World, op: Op, todo: seq<Stmt>, stmt: Stmt)
    requires AllOf(w, op, todo) && StmtOf(w, op, stmt)
    ensures AllOf(w, op, todo + [stmt])
  {
  }

  lemma BatchOf(w: World, op: Op, todo: seq<Stmt>, keys: set<DocKey>, held: set<nat>)
    requires Links(op) && AllOf(w, op, todo)
    ensures AllOf(w, op, todo + [CheckTombstones(keys), InsertMissing(ById(Linked(op)), held),
                                 UpsertSources(SourceRows(Linked(op)))])
  {
    var a, b, c := CheckTombstones(keys), InsertMissing(ById(Linked(op)), held),
                   UpsertSources(SourceRows(Linked(op)));
    AllOfThen(w, op, todo, a);
    AllOfThen(w, op, todo + [a], b);
    AllOfThen(w, op, todo + [a] + [b], c);
    assert todo + [a] + [b] + [c] == todo + [a, b, c];
  }

  lemma LocksOf(w: World, op: Op, ids: seq<nat>)
    ensures AllOf(w, op, LockAll(ids))
  {
  }

  lemma IngestOf(w: World, op: Op)
    requires Links(op)
    ensures AllOf(w, op, IngestStmts(op.refs))
  {
    if op.refs != [] {
      var unique := FirstOccurrences(Ingesteds(op.refs));
      FirstBodyWins(Ingesteds(op.refs));
      LocksOf(w, op, LockOrder(Ids(unique)));
      BatchOf(w, op, LockAll(LockOrder(Ids(unique))), PlaylistKeys(Ids(unique)), HeldIds(op.refs));
    }
  }

  lemma CreateContainerOf(w: World, op: Op)
    requires op.CreateContainer?
    ensures AllOf(w, op, Program(w, op))
  {
    IngestOf(w, op);
    var key := Target(op);
    AllOfBoth(w, op, ResolveAll(op.refs), [Lock(key), CheckTombstones({key})]);
    AllOfBoth(w, op, ResolveAll(op.refs) + [Lock(key), CheckTombstones({key})], IngestStmts(op.refs));
  }

  lemma ReplaceContainerOf(w: World, op: Op)
    requires op.ReplaceContainer?
    ensures AllOf(w, op, Program(w, op))
  {
    IngestOf(w, op);
    AllOfBoth(w, op, [Load(op.key, op.base)], ResolveAll(op.refs));
    AllOfBoth(w, op, [Load(op.key, op.base)] + ResolveAll(op.refs), IngestStmts(op.refs));
  }

  lemma ProgramOf(w: World, op: Op)
    ensures AllOf(w, op, Program(w, op))
  {
    if op.CreateContainer? {
      CreateContainerOf(w, op);
    } else if op.ReplaceContainer? {
      ReplaceContainerOf(w, op);
    }
  }

  predicate WritesTarget(op: Op, stmt: Stmt) {
    (stmt.InsertRow? || stmt.UpdateRow? || stmt.DeleteRow?) && stmt.key == Target(op)
  }

  ghost predicate WillWriteTarget(op: Op, todo: seq<Stmt>) {
    exists i :: 0 <= i < |todo| && WritesTarget(op, todo[i])
  }

  lemma ProgramWritesTarget(w: World, op: Op)
    ensures WillWriteTarget(op, Program(w, op))
  {
    var todo := Program(w, op);
    match op {
      case CreatePlaylist(_) => assert WritesTarget(op, todo[2]);
      case ReplacePlaylist(_, _, _) => assert WritesTarget(op, todo[1]);
      case ReplaceContainer(_, _, _, _) => assert WritesTarget(op, todo[|todo| - 3]);
      case _ => assert WritesTarget(op, todo[|todo| - 2]);
    }
  }

  // ---------------------------------------------------------------------------------------
  // Every transaction writes what its request asks for
  // ---------------------------------------------------------------------------------------

  /** A pending playlist row that is not the request's own target: the first reference to that id, as it
      was resolved. */
  predicate IngestedRow(op: Op, now: nat, ensured: set<nat>, k: DocKey, row: Option<Row>) {
    && Links(op) && k.table == Playlists && k.id in ById(Linked(op)) && k.id in ensured
    && row == Some(Row(ById(Linked(op))[k.id].slug, ById(Linked(op))[k.id].body, now, now))
  }

  /** The row a request leaves for its target, if any. */
  function TargetRow(w: World, op: Op, now: nat): Option<Row> {
    if Deletes(op) then None
    else if Creates(op) then Some(Row(op.create.doc.payload.slug, Stored(w, op), now, now))
    else Some(UpdatedRow(op.base, Stored(w, op), now))
  }

  /** The transaction writes its target, and playlists its references bring in, and nothing else. */
  ghost predicate RowsOf(w: World, op: Op, now: nat, ensured: set<nat>, rows: Rows) {
    forall k :: k in rows ==>
      if k == Target(op) then rows[k] == TargetRow(w, op, now) else IngestedRow(op, now, ensured, k, rows[k])
  }

  predicate UpdatesOf(op: Op, rows: Rows, updates: map<DocKey, ReplaceRequest>) {
    && updates.Keys <= {Target(op)}
    && (updates != map[] ==> Replaces(op))
    && (Replaces(op) && Target(op) in rows ==> Target(op) in updates)
  }

  ghost predicate SeenOf(op: Op, seen: map<DocKey, Row>) {
    forall k :: k in seen ==> k == Target(op) && !Creates(op) && seen[k] == op.base
  }

  ghost predicate LinkedOf(op: Op, linked: map<DocKey, seq<Ingested>>) {
    forall c :: c in linked ==> Links(op) && c == Target(op) && linked[c] == Linked(op)
  }

  /** The transaction records sources for its references only. */
  ghost predicate RecordsOf(op: Op, sources: map<string, nat>) {
    forall u :: u in sources ==> Links(op) && u in SourceRows(Linked(op)) && sources[u] == SourceRows(Linked(op))[u]
  }

  ghost predicate ReadOf(op: Op, read: Read) {
    read.Waiting? || read.Taken? ==> op.DeletePlaylist? && read.playlist == op.id
  }

  ghost predicate TxOrigin(w: World, x: Tx) {
    && (Links(x.op) ==> Target(x.op).table != Playlists)
    && AllOf(w, x.op, x.todo)
    && RowsOf(w, x.op, x.now, x.view.ensured, x.pending.rows)
    && (Target(x.op) in x.pending.rows || WillWriteTarget(x.op, x.todo))
    && UpdatesOf(x.op, x.pending.rows, x.view.updates)
    && SeenOf(x.op, x.view.seen)
    && LinkedOf(x.op, x.view.linked)
    && RecordsOf(x.op, x.pending.sources)
    && ReadOf(x.op, x.read)
  }

  lemma RowsOfIngest(w: World, t: Tables, op: Op, ensured: set<nat>, p: Pending, batch: map<nat, Ingested>, now: nat)
    requires RowsOf(w, op, now, ensured, p.rows)
    requires Links(op) && batch == ById(Linked(op)) && Target(op).table != Playlists
    ensures RowsOf(w, op, now, ensured + batch.Keys, p.rows + MissingRows(t, p, batch, now))
  {
  }

  lemma RowsOfWrite(w: World, t: Tables, op: Op, ensured: set<nat>, p: Pending, stmt: Stmt, now: nat)
    requires RowsOf(w, op, now, ensured, p.rows) && (stmt.InsertRow? || stmt.UpdateRow?) && StmtOf(w, op, stmt)
    requires stmt.UpdateRow? ==> VisibleRow(t, p, stmt.key) == Some(op.base)
    ensures RowsOf(w, op, now, ensured, PendingAfter(t, p, stmt, now).rows)
    ensures Target(op) in PendingAfter(t, p, stmt, now).rows
  {
    var p' := PendingAfter(t, p, stmt, now);
    assert p'.rows == p.rows[stmt.key := p'.rows[stmt.key]];
  }

  lemma RowsOfDelete(w: World, t: Tables, op: Op, ensured: set<nat>, p: Pending, stmt: Stmt, now: nat)
    requires RowsOf(w, op, now, ensured, p.rows) && stmt.DeleteRow? && StmtOf(w, op, stmt)
    ensures RowsOf(w, op, now, ensured, PendingAfter(t, p, stmt, now).rows)
    ensures Target(op) in PendingAfter(t, p, stmt, now).rows
  {
    DeletePendsNone(t, p, stmt, now);
  }

  lemma RowsOfQuiet(w: World, t: Tables, op: Op, v: View, p: Pending, stmt: Stmt, now: nat)
    requires RowsOf(w, op, now, v.ensured, p.rows) && !WritesRows(stmt)
    ensures RowsOf(w, op, now, ViewAfter(v, stmt).ensured, PendingAfter(t, p, stmt, now).rows)
    ensures PendingAfter(t, p, stmt, now).rows == p.rows
  {
    assert PendingAfter(t, p, stmt, now).rows == p.rows && ViewAfter(v, stmt).ensured == v.ensured;
  }

  lemma RowsOfKept(w: World, t: Tables, op: Op, v: View, p: Pending, stmt: Stmt, now: nat)
    requires RowsOf(w, op, now, v.ensured, p.rows) && StmtOf(w, op, stmt)
    requires Links(op) ==> Target(op).table != Playlists
    requires stmt.UpdateRow? ==> VisibleRow(t, p, stmt.key) == Some(op.base)
    ensures RowsOf(w, op, now, ViewAfter(v, stmt).ensured, PendingAfter(t, p, stmt, now).rows)
    ensures Target(op) in p.rows || WritesTarget(op, stmt) ==> Target(op) in PendingAfter(t, p, stmt, now).rows
  {
    match stmt {
      case InsertRow(_, _, _) => RowsOfWrite(w, t, op, v.ensured, p, stmt, now);
      case UpdateRow(_, _, _, _) => RowsOfWrite(w, t, op, v.ensured, p, stmt, now);
      case DeleteRow(_, _, _) => RowsOfDelete(w, t, op, v.ensured, p, stmt, now);
      case InsertMissing(batch, _) =>
        RowsOfIngest(w, t, op, v.ensured, p, batch, now);
      case WriteTombstone(_) =>
      case _ => RowsOfQuiet(w, t, op, v, p, stmt, now);
    }
  }

  /** An update that runs finds the row it was authorized against. */
  lemma UpdateMeetsBase(w: World, t: Tables, op: Op, v: View, p: Pending, stmt: Stmt)
    requires SeenOk(t, v.seen) && LocksOk(t, v, p) && RowsOk(t, v, p.rows, p.tombstones)
    requires stmt.UpdateRow? && StmtOk(v, stmt) && Runs(t, p, stmt) && StmtOf(w, op, stmt)
    ensures VisibleRow(t, p, stmt.key) == Some(op.base)
  {
    UpdateMeetsRow(t, v, p, stmt);
  }

  lemma UpdatesOfQuiet(w: World, t: Tables, op: Op, v: View, p: Pending, stmt: Stmt, now: nat)
    requires UpdatesOf(op, p.rows, v.updates) && (!WritesRows(stmt) || stmt.WriteTombstone?)
    ensures UpdatesOf(op, PendingAfter(t, p, stmt, now).rows, ViewAfter(v, stmt).updates)
  {
    assert PendingAfter(t, p, stmt, now).rows == p.rows && ViewAfter(v, stmt).updates == v.updates;
  }

  lemma UpdatesOfKept(w: World, t: Tables, op: Op, v: View, p: Pending, stmt: Stmt, now: nat)
    requires UpdatesOf(op, p.rows, v.updates) && StmtOf(w, op, stmt) && (Links(op) ==> Target(op).table != Playlists)
    ensures UpdatesOf(op, PendingAfter(t, p, stmt, now).rows, ViewAfter(v, stmt).updates)
  {
    if !WritesRows(stmt) || stmt.WriteTombstone? {
      UpdatesOfQuiet(w, t, op, v, p, stmt, now);
    } else if stmt.DeleteRow? {
      DeletePendsNone(t, p, stmt, now);
    }
  }

  lemma SeenOfKept(w: World, op: Op, v: View, stmt: Stmt)
    requires SeenOf(op, v.seen) && StmtOf(w, op, stmt)
    ensures SeenOf(op, ViewAfter(v, stmt).seen)
  {
  }

  lemma LinkedOfKept(w: World, op: Op, v: View, stmt: Stmt)
    requires LinkedOf(op, v.linked) && StmtOf(w, op, stmt)
    ensures LinkedOf(op, ViewAfter(v, stmt).linked)
  {
  }

  lemma RecordsOfKept(w: World, t: Tables, op: Op, p: Pending, stmt: Stmt, now: nat)
    requires RecordsOf(op, p.sources) && StmtOf(w, op, stmt)
    ensures RecordsOf(op, PendingAfter(t, p, stmt, now).sources)
  {
    if !stmt.UpsertSources? {
      assert PendingAfter(t, p, stmt, now).sources == p.sources;
    }
  }

  lemma WillWriteKept(t: Tables, x: Tx, todo: seq<Stmt>)
    requires WillWriteTarget(x.op, todo) && !WritesTarget(x.op, todo[0])
    ensures WillWriteTarget(x.op, todo[1..])
  {
    var i :| 0 <= i < |todo| && WritesTarget(x.op, todo[i]);
    assert WritesTarget(x.op, todo[1..][i - 1]);
  }

  lemma AdvanceRows(w: World, t: Tables, x: Tx)
    requires TxOrigin(w, x) && TxOk(t, x) && Disciplined(x.view, x.todo) && x.todo != []
    requires Runs(t, x.pending, x.todo[0])
    ensures RowsOf(w, x.op, x.now, Advance(t, x).view.ensured, Advance(t, x).pending.rows)
    ensures Target(x.op) in x.pending.rows || WritesTarget(x.op, x.todo[0]) ==>
              Target(x.op) in Advance(t, x).pending.rows
  {
    var stmt := x.todo[0];
    assert StmtOf(w, x.op, stmt);
    if stmt.UpdateRow? {
      DisciplinedTail(x.view, x.todo);
      UpdateMeetsBase(w, t, x.op, x.view, x.pending, stmt);
    }
    RowsOfKept(w, t, x.op, x.view, x.pending, stmt, x.now);
  }

  lemma AdvanceTarget(w: World, t: Tables, x: Tx)
    requires TxOrigin(w, x) && TxOk(t, x) && Disciplined(x.view, x.todo) && x.todo != []
    requires Runs(t, x.pending, x.todo[0])
    ensures Target(x.op) in Advance(t, x).pending.rows || WillWriteTarget(x.op, Advance(t, x).todo)
  {
    AdvanceRows(w, t, x);
    if Target(x.op) !in x.pending.rows && !WritesTarget(x.op, x.todo[0]) {
      WillWriteKept(t, x, x.todo);
    }
  }

  lemma AdvanceOrigin(w: World, t: Tables, x: Tx)
    requires TxOrigin(w, x) && TxOk(t, x) && Disciplined(x.view, x.todo) && x.todo != []
    requires Runs(t, x.pending, x.todo[0])
    ensures TxOrigin(w, Advance(t, x))
    ensures TxOrigin(w, Advance(t, x).(read := Abandoned))
  {
    AdvanceRows(w, t, x);
    AdvanceTarget(w, t, x);
    assert StmtOf(w, x.op, x.todo[0]);
    UpdatesOfKept(w, t, x.op, x.view, x.pending, x.todo[0], x.now);
    SeenOfKept(w, x.op, x.view, x.todo[0]);
    LinkedOfKept(w, x.op, x.view, x.todo[0]);
    RecordsOfKept(w, t, x.op, x.pending, x.todo[0], x.now);
  }

  lemma BeginOrigin(w: World, op: Op, now: nat)
    requires Admitted(w, op)
    ensures TxOrigin(w, Tx(op, Program(w, op), EMPTY_VIEW, NOTHING_PENDING, now, NoRead))
  {
    ProgramOf(w, op);
    ProgramWritesTarget(w, op);
  }

  ghost predicate Origins(w: World, s: Store) {
    forall i :: i in s.txs ==> TxOrigin(w, s.txs[i])
  }

  lemma PutKeepsOrigins(w: World, s: Store, s': Store, i: nat, y: Tx)
    requires Origins(w, s) && s'.txs == s.txs[i := y] && TxOrigin(w, y)
    ensures Origins(w, s')
  {
    forall j | j in s'.txs
      ensures TxOrigin(w, s'.txs[j])
    {
      assert s'.txs[j] == if j == i then y else s.txs[j];
    }
  }

  lemma BeginKeepsOrigins(w: World, s: Store, s': Store, i: nat, op: Op, now: nat)
    requires Origins(w, s) && BeginStep(w, s, s', i, op, now)
    ensures Origins(w, s')
  {
    BeginOrigin(w, op, now);
    PutKeepsOrigins(w, s, s', i, s'.txs[i]);
  }

  lemma StmtKeepsOrigins(w: World, s: Store, s': Store, i: nat)
    requires StoreOk(s) && Origins(w, s) && StmtStep(s, s', i)
    ensures Origins(w, s')
  {
    EnabledRuns(s, i);
    AdvanceOrigin(w, s.tables, s.txs[i]);
    PutKeepsOrigins(w, s, s', i, Advance(s.tables, s.txs[i]));
  }

  lemma SnapshotKeepsOrigins(w: World, s: Store, s': Store, i: nat, rows: seq<nat>)
    requires Origins(w, s) && SnapshotStep(s, s', i, rows)
    ensures Origins(w, s')
  {
    assert TxOrigin(w, s.txs[i]);
    PutKeepsOrigins(w, s, s', i, s.txs[i].(read := Taken(s.txs[i].read.playlist, rows)));
  }

  lemma TimeoutKeepsOrigins(w: World, s: Store, s': Store, i: nat)
    requires StoreOk(s) && Origins(w, s) && TimeoutStep(s, s', i)
    ensures Origins(w, s')
  {
    AdvanceOrigin(w, s.tables, s.txs[i]);
    PutKeepsOrigins(w, s, s', i, Advance(s.tables, s.txs[i]).(read := Abandoned));
  }

  lemma RemoveKeepsOrigins(w: World, s: Store, s': Store, i: nat)
    requires Origins(w, s) && s'.txs == s.txs - {i}
    ensures Origins(w, s')
  {
    forall j | j in s'.txs
      ensures TxOrigin(w, s'.txs[j])
    {
      assert s'.txs[j] == s.txs[j];
    }
  }

  lemma StepKeepsOrigins(w: World, s: Store, s': Store)
    requires StoreOk(s) && Origins(w, s) && Step(w, s, s')
    ensures Origins(w, s')
  {
    if i, op, now :| BeginStep(w, s, s', i, op, now) {
      BeginKeepsOrigins(w, s, s', i, op, now);
    } else if i :| StmtStep(s, s', i) {
      StmtKeepsOrigins(w, s, s', i);
    } else if i, rows :| SnapshotStep(s, s', i, rows) {
      SnapshotKeepsOrigins(w, s, s', i, rows);
    } else if i :| TimeoutStep(s, s', i) {
      TimeoutKeepsOrigins(w, s, s', i);
    } else {
      var i :| i in s.txs && s'.txs == s.txs - {i};
      RemoveKeepsOrigins(w, s, s', i);
    }
  }

  // ---------------------------------------------------------------------------------------
  // What a commit does
  // ---------------------------------------------------------------------------------------

  /** A transaction about to commit. */
  ghost predicate Committing(w: World, t: Tables, x: Tx) {
    Finished(t, x) && TxOrigin(w, x) && x.todo == []
  }

  lemma TargetStands(w: World, t: Tables, x: Tx)
    requires Committing(w, t, x)
    ensures Target(x.op) in x.pending.rows && x.pending.rows[Target(x.op)] == TargetRow(w, x.op, x.now)
    ensures RowStands(t, x.view, x.pending.rows, x.pending.tombstones, Target(x.op))
  {
  }

  /** A create commits its co-signed body under an id never used before. */
  lemma CreateInstalls(w: World, t: Tables, x: Tx)
    requires Committing(w, t, x) && Creates(x.op) && NoneReturned(t)
    ensures var k, t' := Target(x.op), Commit(t, x.pending);
            && !Known(t, k)
            && k in t'.rows
            && var doc := x.op.create.doc;
               t'.rows[k] == Row(doc.payload.slug, CoSign(w, doc, CreatedTs(w, doc)), x.now, x.now)
  {
    TargetStands(w, t, x);
  }

  /** A replace commits only against the very row it was authorized against, with its co-signed body, under
      the old creation time and, whatever the clock says, a later generation. */
  lemma ReplaceInstalls(w: World, t: Tables, x: Tx)
    requires Committing(w, t, x) && Replaces(x.op)
    ensures var k, t' := Target(x.op), Commit(t, x.pending);
            && k in t.rows && t.rows[k] == x.op.base && k in t'.rows
            && t'.rows[k].body == CoSign(w, x.op.replace.doc, x.op.replace.ts)
            && t'.rows[k].slug == (if x.op.replace.doc.payload.slug == "" then x.op.base.slug
                                   else x.op.replace.doc.payload.slug)
            && t'.rows[k].createdAt == x.op.base.createdAt
            && t'.rows[k].generation == (if x.now > x.op.base.generation then x.now else x.op.base.generation + 1)
  {
    TargetStands(w, t, x);
  }

  /** A delete commits only against the very row it was authorized against, and buries it. */
  lemma DeleteRemoves(w: World, t: Tables, x: Tx)
    requires Committing(w, t, x) && Deletes(x.op)
    ensures var k, t' := Target(x.op), Commit(t, x.pending);
            && k in t.rows && t.rows[k] == x.op.base
            && k !in t'.rows && k in t'.tombstones
  {
    TargetStands(w, t, x);
    CommitBuries(t, x, Target(x.op));
  }

  /** A playlist row that a write of a group or channel brings in is new. */
  lemma IngestedRowsAreNew(w: World, t: Tables, x: Tx, k: DocKey)
    requires Committing(w, t, x) && Target(x.op).table != Playlists && k.table == Playlists
    requires k in x.pending.rows
    ensures k !in t.rows
  {
    assert RowStands(t, x.view, x.pending.rows, x.pending.tombstones, k);
  }

  /** A write of a group or channel leaves every live playlist alone: its row and its index rows. */
  lemma ContainerWriteLeavesPlaylists(w: World, t: Tables, x: Tx, id: nat)
    requires Committing(w, t, x) && TablesOk(t) && Target(x.op).table != Playlists
    requires PlaylistKey(id) in t.rows
    ensures var t' := Commit(t, x.pending);
            && PlaylistKey(id) in t'.rows && t'.rows[PlaylistKey(id)] == t.rows[PlaylistKey(id)]
            && forall n: nat ::
                 var s := ItemSlot(id, n);
                 if s in t.items then s in t'.items && t'.items[s] == t.items[s] else s !in t'.items
  {
    assert PlaylistKey(id) !in x.pending.rows by {
      if PlaylistKey(id) in x.pending.rows {
        IngestedRowsAreNew(w, t, x, PlaylistKey(id));
      }
    }
    CommitItemsExact(t, x);
  }

  /** A playlist that a write of a group or channel brings in has the body and slug of the first reference
      to its id, and the time of the write. */
  lemma FirstReferenceWins(w: World, t: Tables, x: Tx, id: nat)
    requires Committing(w, t, x) && Target(x.op).table != Playlists
    requires PlaylistKey(id) !in t.rows && PlaylistKey(id) in Commit(t, x.pending).rows
    ensures var refs, row := Linked(x.op), Commit(t, x.pending).rows[PlaylistKey(id)];
            exists i :: 0 <= i < |refs| && refs[i].id == id && IsFirst(refs, i)
              && row == Row(refs[i].slug, refs[i].body, x.now, x.now)
  {
    ByIdCorrect(Linked(x.op));
    assert IngestedRow(x.op, x.now, x.view.ensured, PlaylistKey(id), x.pending.rows[PlaylistKey(id)]);
  }

  lemma ContainerWritePending(w: World, t: Tables, x: Tx)
    requires Committing(w, t, x) && Links(x.op)
    ensures var c := Target(x.op);
            && c in x.pending.rows && c.table != Playlists
            && c in x.pending.membersAdded && x.pending.membersAdded[c] == Ids(Linked(x.op))
            && SourcesCover(x.pending.sources, Linked(x.op))
  {
    var c := Target(x.op);
    TargetStands(w, t, x);
    assert MembersStand(t, x.view, x.pending.rows, x.pending.membersCleared, x.pending.membersAdded, c);
    assert LinksStand(x.view, c, x.pending.membersAdded[c]);
  }

  lemma ExactMember(t: Tables, s: Slot)
    requires MembersExact(t)
    ensures s in t.members <==> ExpectedMember(t, s).Some?
    ensures s in t.members ==> ExpectedMember(t, s) == Some(t.members[s])
  {
  }

  lemma ContainerWriteLinked(w: World, t: Tables, x: Tx)
    requires Committing(w, t, x) && Links(x.op)
    ensures var c, t' := Target(x.op), Commit(t, x.pending);
            c in t'.linked && t'.linked[c] == Ids(Linked(x.op))
  {
    ContainerWritePending(w, t, x);
    TargetStands(w, t, x);
  }

  lemma ContainerWriteMember(w: World, t: Tables, x: Tx, n: nat)
    requires Committing(w, t, x) && TablesOk(t) && Links(x.op)
    ensures VisibleMember(t, x.pending, Slot(Target(x.op), n))
         == if n < |Linked(x.op)| then Some(Linked(x.op)[n].id) else None
  {
    ContainerWritePending(w, t, x);
    ContainerWriteLinked(w, t, x);
    WrittenContainerMember(t, x, Slot(Target(x.op), n));
  }

  lemma ContainerWriteEnsures(w: World, t: Tables, x: Tx, n: nat)
    requires Committing(w, t, x) && Links(x.op) && n < |Linked(x.op)|
    ensures PlaylistKey(Linked(x.op)[n].id) in Commit(t, x.pending).rows
  {
    ContainerWritePending(w, t, x);
    LinkedPlaylistsLive(t, x, Target(x.op), n);
    assert Ids(Linked(x.op))[n] == Linked(x.op)[n].id;
  }

  /** After a group or channel is written its membership rows are its references in order, all of them
      live, and no more. */
  lemma ContainerWriteLinks(w: World, t: Tables, x: Tx, n: nat)
    requires Committing(w, t, x) && TablesOk(t) && Links(x.op)
    ensures var c, refs, t' := Target(x.op), Linked(x.op), Commit(t, x.pending);
            && c in t'.linked && t'.linked[c] == Ids(refs)
            && (if n < |refs| then
                  && PlaylistKey(refs[n].id) in t'.rows
                  && Slot(c, n) in t'.members && t'.members[Slot(c, n)] == refs[n].id
                else Slot(c, n) !in t'.members)
  {
    ContainerWriteLinked(w, t, x);
    ContainerWriteMember(w, t, x, n);
    if n < |Linked(x.op)| {
      ContainerWriteEnsures(w, t, x, n);
    }
  }

  /** After a group or channel is written each remote URI among its references is recorded with the
      playlist linked at every one of its positions. */
  lemma ContainerWriteRecordsSources(w: World, t: Tables, x: Tx, n: nat)
    requires Committing(w, t, x) && Links(x.op) && n < |Linked(x.op)| && Linked(x.op)[n].sourceUri != ""
    ensures var ref, t' := Linked(x.op)[n], Commit(t, x.pending);
            ref.sourceUri in t'.sources && t'.sources[ref.sourceUri] == ref.id
  {
    ContainerWritePending(w, t, x);
  }

  // ---------------------------------------------------------------------------------------
  // The recipients of a delete
  // ---------------------------------------------------------------------------------------

  /** The channels a committed delete notifies: those its recipient read found, if it was collected. */
  function Recipients(x: Tx): Option<seq<nat>> {
    if x.read.Taken? then Some(LockOrder(x.read.rows)) else None
  }

  /** The collected channels are sorted, each once, and include every channel with a membership row that the
      delete's cascade removes. */
  lemma DeleteNotifiesAllChannels(w: World, t: Tables, x: Tx, c: nat, n: nat)
    requires Committing(w, t, x) && x.op.DeletePlaylist? && x.read.Taken?
    requires Slot(DocKey(Channels, c), n) in t.members && t.members[Slot(DocKey(Channels, c), n)] == x.op.id
    ensures Recipients(x).Some? && c in Recipients(x).value
    ensures forall i, j :: 0 <= i < j < |Recipients(x).value| ==> Recipients(x).value[i] < Recipients(x).value[j]
  {
    assert Lists(t, c, x.op.id);
    LockOrderCorrect(x.read.rows);
  }

  /** After a playlist delete nothing of the playlist is left: no membership row, no index row, no source. */
  lemma DeleteLeavesNothing(w: World, t: Tables, x: Tx)
    requires Committing(w, t, x) && TablesOk(t) && x.op.DeletePlaylist?
    ensures var t' := Commit(t, x.pending);
            && (forall s :: s in t'.members ==> t'.members[s] != x.op.id)
            && (forall s :: s in t'.items ==> s.playlist != x.op.id)
            && (forall u :: u in t'.sources ==> t'.sources[u] != x.op.id)
  {
    DeleteRemoves(w, t, x);
    CommitKeepsTables(t, x);
    var t' := Commit(t, x.pending);
    forall s | s in t'.members
      ensures t'.members[s] != x.op.id
    {
      ExactMember(t', s);
    }
    forall s | s in t'.items
      ensures s.playlist != x.op.id
    {
      assert ExpectedItem(t', s).Some?;
    }
  }

  /** A delete that commits has collected its read or never will: none is still on its way. */
  lemma NoReadInFlightAtCommit(t: Tables, x: Tx)
    requires Finished(t, x)
    ensures !x.read.Waiting?
  {
  }

  lemma StmtKeepsAbandoned(s: Store, s': Store, i: nat)
    requires StmtStep(s, s', i) && s.txs[i].read.Abandoned?
    requires ReadOk(s.tables, s.txs[i].view, s.txs[i].read) && Disciplined(s.txs[i].view, s.txs[i].todo)
    ensures s'.txs[i].read.Abandoned?
  {
    DisciplinedTail(s.txs[i].view, s.txs[i].todo);
  }

  /** An abandoned read is never taken up again. */
  lemma AbandonedStaysAbandoned(w: World, s: Store, s': Store, i: nat)
    requires Step(w, s, s') && i in s.txs && i in s'.txs && s.txs[i].read.Abandoned?
    requires ReadOk(s.tables, s.txs[i].view, s.txs[i].read) && Disciplined(s.txs[i].view, s.txs[i].todo)
    ensures s'.txs[i].read.Abandoned?
  {
    if j, op, now :| BeginStep(w, s, s', j, op, now) {
      assert s'.txs[i] == s.txs[i];
    } else if j :| StmtStep(s, s', j) {
      if j == i {
        StmtKeepsAbandoned(s, s', i);
      } else {
        assert s'.txs[i] == s.txs[i];
      }
    } else if j, rows :| SnapshotStep(s, s', j, rows) {
      assert s'.txs[i] == s.txs[i];
    } else if j :| TimeoutStep(s, s', j) {
      assert j == i || s'.txs[i] == s.txs[i];
    } else if j :| CommitStep(s, s', j) {
      assert s'.txs[i] == s.txs[i];
    } else {
      var j :| RollbackStep(s, s', j);
      assert s'.txs[i] == s.txs[i];
    }
  }
}
