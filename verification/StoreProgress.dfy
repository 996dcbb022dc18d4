/** The guarantees are not bought by refusing requests: an admitted request of any kind that has the store
    to itself, and that nothing stored stands against, commits. */
module StoreProgress {
  import opened Documents
  import opened CoSigning
  import opened Authorization
  import opened OwnershipLaws
  import opened Batches
  import opened StoreModel
  import opened StoreDiscipline
  import opened StoreInvariant
  import opened StoreStatements
  import opened StoreCommits
  import opened StoreHistory
  import opened StoreRuns
  import opened StoreEffects
  import opened StoreClear

  // ---------------------------------------------------------------------------------------
  // Paths
  // ---------------------------------------------------------------------------------------

  /** States that follow from one another by single steps. */
  ghost predicate StepsOn(w: World, path: seq<Store>) {
    path != [] && forall n: nat :: n + 1 < |path| ==> StepsAt(w, path, n)
  }

  predicate LoneAt(path: seq<Store>, n: nat)
    requires n < |path|
  {
    |path[n].txs| <= 1
  }

  /** No two transactions are ever open at once. */
  ghost predicate OneAtATime(path: seq<Store>) {
    forall n: nat :: n < |path| ==> LoneAt(path, n)
  }

  ghost predicate Path(w: World, path: seq<Store>) {
    StepsOn(w, path) && OneAtATime(path)
  }

  lemma SameStates(w: World, a: seq<Store>, m: nat, b: seq<Store>, n: nat)
    requires m + 1 < |a| && n + 1 < |b| && a[m] == b[n] && a[m + 1] == b[n + 1]
    requires StepsAt(w, a, m)
    ensures StepsAt(w, b, n)
  {
  }

  lemma SameAsStep(w: World, a: seq<Store>, n: nat, s: Store, s': Store)
    requires n + 1 < |a| && a[n] == s && a[n + 1] == s' && Step(w, s, s')
    ensures StepsAt(w, a, n)
  {
  }

  lemma StepsGrowAt(w: World, path: seq<Store>, next: Store, n: nat)
    requires path != [] && n < |path| && Step(w, path[|path| - 1], next)
    requires n + 1 < |path| ==> StepsAt(w, path, n)
    ensures StepsAt(w, path + [next], n)
  {
    if n + 1 < |path| {
      SameStates(w, path, n, path + [next], n);
    } else {
      SameAsStep(w, path + [next], n, path[n], next);
    }
  }

  lemma StepsGrow(w: World, path: seq<Store>, next: Store)
    requires StepsOn(w, path) && Step(w, path[|path| - 1], next)
    ensures StepsOn(w, path + [next])
  {
    forall n: nat | n + 1 < |path + [next]|
      ensures StepsAt(w, path + [next], n)
    {
      StepsGrowAt(w, path, next, n);
    }
  }

  lemma OneAtATimeGrows(path: seq<Store>, next: Store)
    requires OneAtATime(path) && |next.txs| <= 1
    ensures OneAtATime(path + [next])
  {
    var longer := path + [next];
    forall n: nat | n < |longer|
      ensures LoneAt(longer, n)
    {
      assert n < |path| ==> LoneAt(path, n);
    }
  }

  lemma PathGrows(w: World, path: seq<Store>, next: Store)
    requires Path(w, path) && Step(w, path[|path| - 1], next) && |next.txs| <= 1
    ensures Path(w, path + [next])
  {
    StepsGrow(w, path, next);
    OneAtATimeGrows(path, next);
  }

  /** A sound state whose transactions do what their requests ask. */
  ghost predicate Sound(w: World, s: Store) {
    StoreOk(s) && Origins(w, s)
  }

  lemma EmptyIsSound(w: World, t: Tables)
    requires TablesOk(t)
    ensures Sound(w, Store(t, map[]))
  {
  }

  lemma StepKeepsSound(w: World, s: Store, s': Store)
    requires Sound(w, s) && Step(w, s, s')
    ensures Sound(w, s')
  {
    StepKeepsStore(w, s, s');
    StepKeepsOrigins(w, s, s');
  }

  lemma SoundNext(w: World, path: seq<Store>, n: nat)
    requires StepsOn(w, path) && n + 1 < |path| && Sound(w, path[n])
    ensures Sound(w, path[n + 1])
  {
    assert StepsAt(w, path, n);
    StepKeepsSound(w, path[n], path[n + 1]);
  }

  ghost predicate Carries(holds: nat -> bool, m: nat) {
    holds(m) ==> holds(m + 1)
  }

  /** What carries from each number to the next holds of all of them. */
  lemma {:induction false} Induction(holds: nat -> bool, n: nat)
    requires holds(0)
    requires forall m: nat :: m < n ==> Carries(holds, m)
    ensures holds(n)
  {
    if n > 0 {
      Induction(holds, n - 1);
      assert Carries(holds, n - 1);
    }
  }

  lemma SoundCarries(w: World, path: seq<Store>, m: nat, holds: nat -> bool)
    requires StepsOn(w, path) && m + 1 < |path|
    requires holds == ((k: nat) => k < |path| && Sound(w, path[k]))
    ensures Carries(holds, m)
  {
    if holds(m) {
      SoundNext(w, path, m);
    }
  }

  lemma PathKeepsSound(w: World, path: seq<Store>, n: nat)
    requires StepsOn(w, path) && Sound(w, path[0]) && n < |path|
    ensures Sound(w, path[n])
  {
    var holds := (k: nat) => k < |path| && Sound(w, path[k]);
    forall m: nat | m < n
      ensures Carries(holds, m)
    {
      SoundCarries(w, path, m, holds);
    }
    Induction(holds, n);
  }

  /** A path on which one transaction runs alone. */
  ghost predicate Alone(w: World, path: seq<Store>, t: Tables, i: nat, x: Tx) {
    Path(w, path) && path[0] == Store(t, map[]) && path[|path| - 1] == Store(t, map[i := x])
  }

  lemma AloneGrows(w: World, path: seq<Store>, t: Tables, i: nat, x: Tx, y: Tx)
    requires Alone(w, path, t, i, x) && Step(w, Store(t, map[i := x]), Store(t, map[i := y]))
    ensures Alone(w, path + [Store(t, map[i := y])], t, i, y)
  {
    PathGrows(w, path, Store(t, map[i := y]));
  }

  function Begun(w: World, op: Op, now: nat): Tx {
    Tx(op, Program(w, op), EMPTY_VIEW, NOTHING_PENDING, now, NoRead)
  }

  lemma BeginIsStep(w: World, t: Tables, i: nat, op: Op, now: nat)
    requires Admitted(w, op)
    ensures Step(w, Store(t, map[]), Store(t, map[i := Begun(w, op, now)]))
  {
    assert BeginStep(w, Store(t, map[]), Store(t, map[i := Begun(w, op, now)]), i, op, now);
  }

  lemma BeginAlone(w: World, t: Tables, i: nat, op: Op, now: nat) returns (path: seq<Store>)
    requires Admitted(w, op)
    ensures Alone(w, path, t, i, Begun(w, op, now))
  {
    BeginIsStep(w, t, i, op, now);
    PathGrows(w, [Store(t, map[])], Store(t, map[i := Begun(w, op, now)]));
    path := [Store(t, map[])] + [Store(t, map[i := Begun(w, op, now)])];
  }

  lemma StmtIsStep(w: World, t: Tables, i: nat, x: Tx)
    requires x.todo != [] && Succeeds(t, x.pending, x.todo[0])
    requires x.todo[0].AwaitRead? ==> x.read.Taken?
    ensures Step(w, Store(t, map[i := x]), Store(t, map[i := Advance(t, x)]))
  {
    var s, s' := Store(t, map[i := x]), Store(t, map[i := Advance(t, x)]);
    SucceedsIsEnabled(t, i, x);
    assert s' == s.(txs := s.txs[i := Advance(s.tables, s.txs[i])]);
    assert StmtStep(s, s', i);
  }

  lemma SnapshotIsStep(w: World, t: Tables, i: nat, x: Tx, rows: seq<nat>)
    requires x.read.Waiting? && ListsChannels(t, x.read.playlist, rows)
    ensures Step(w, Store(t, map[i := x]), Store(t, map[i := x.(read := Taken(x.read.playlist, rows))]))
  {
    var s, s' := Store(t, map[i := x]), Store(t, map[i := x.(read := Taken(x.read.playlist, rows))]);
    assert s' == s.(txs := s.txs[i := s.txs[i].(read := Taken(s.txs[i].read.playlist, rows))]);
    assert SnapshotStep(s, s', i, rows);
  }

  // ---------------------------------------------------------------------------------------
  // The recipient read
  // ---------------------------------------------------------------------------------------

  lemma {:induction false} Enumerate(s: set<nat>) returns (rows: seq<nat>)
    ensures forall c :: c in rows <==> c in s
    decreases |s|
  {
    if s == {} {
      rows := [];
    } else {
      var c :| c in s;
      rows := Enumerate(s - {c});
      rows := rows + [c];
    }
  }

  lemma TakeSnapshot(t: Tables, playlist: nat) returns (rows: seq<nat>)
    ensures ListsChannels(t, playlist, rows)
  {
    var channels := set s | s in t.members && s.container.table == Channels && t.members[s] == playlist
                      :: s.container.id;
    rows := Enumerate(channels);
    forall c: nat
      ensures c in channels <==> Lists(t, c, playlist)
    {
      if c in channels {
        var s :| s in t.members && s.container.table == Channels && t.members[s] == playlist && s.container.id == c;
        assert s.container == DocKey(Channels, c);
      }
    }
  }

  /** A read that was taken found exactly the channels that list the playlist. */
  ghost predicate ReadExact(t: Tables, read: Read) {
    && !read.Waiting?
    && (read.Taken? ==> ListsChannels(t, read.playlist, read.rows))
  }

  predicate StartsBefore(todo: seq<Stmt>, n: nat) {
    exists m :: 0 <= m < n && m < |todo| && todo[m].StartRead?
  }

  /** Every wait for a read comes after its start. */
  predicate AwaitsReady(taken: bool, todo: seq<Stmt>) {
    forall n :: 0 <= n < |todo| && todo[n].AwaitRead? ==> taken || StartsBefore(todo, n)
  }

  lemma AwaitsRest(taken: bool, todo: seq<Stmt>)
    requires AwaitsReady(taken, todo) && todo != []
    ensures todo[0].AwaitRead? ==> taken
    ensures AwaitsReady(taken || todo[0].StartRead?, todo[1..])
    ensures StartsBefore(todo, |todo|) ==> todo[0].StartRead? || StartsBefore(todo[1..], |todo[1..]|)
  {
    forall n | 0 <= n < |todo[1..]| && todo[1..][n].AwaitRead?
      ensures taken || todo[0].StartRead? || StartsBefore(todo[1..], n)
    {
      assert todo[n + 1].AwaitRead?;
      if !taken {
        var m :| 0 <= m < n + 1 && todo[m].StartRead?;
        assert m > 0 ==> todo[1..][m - 1].StartRead?;
      }
    }
    if StartsBefore(todo, |todo|) && !todo[0].StartRead? {
      var m :| 0 <= m < |todo| && todo[m].StartRead?;
      assert todo[1..][m - 1].StartRead?;
    }
  }

  lemma ProgramAwaitsReady(w: World, op: Op)
    ensures AwaitsReady(false, Program(w, op))
  {
    ProgramOf(w, op);
    var todo := Program(w, op);
    forall n | 0 <= n < |todo| && todo[n].AwaitRead?
      ensures StartsBefore(todo, n)
    {
      assert StmtOf(w, op, todo[n]);
      assert op.DeletePlaylist? && op.capture && n == 3;
      assert todo[2].StartRead?;
    }
  }

  // ---------------------------------------------------------------------------------------
  // A whole request on its own
  // ---------------------------------------------------------------------------------------

  /** One statement, and the snapshot if it starts the read. */
  lemma OneAlone(w: World, path: seq<Store>, t: Tables, i: nat, x: Tx) returns (path': seq<Store>, y: Tx)
    requires Alone(w, path, t, i, x) && x.todo != [] && Succeeds(t, x.pending, x.todo[0])
    requires (x.todo[0].AwaitRead? ==> x.read.Taken?) && ReadExact(t, x.read)
    ensures Alone(w, path', t, i, y) && ReadExact(t, y.read)
    ensures y == Advance(t, x).(read := y.read)
    ensures y.read.Taken? <==> x.todo[0].StartRead? || x.read.Taken?
  {
    StmtIsStep(w, t, i, x);
    y := Advance(t, x);
    AloneGrows(w, path, t, i, x, y);
    path' := path + [Store(t, map[i := y])];
    if x.todo[0].StartRead? {
      var rows := TakeSnapshot(t, x.todo[0].playlist);
      SnapshotIsStep(w, t, i, y, rows);
      AloneGrows(w, path', t, i, y, y.(read := Taken(y.read.playlist, rows)));
      y := y.(read := Taken(y.read.playlist, rows));
      path' := path' + [Store(t, map[i := y])];
    }
  }

  lemma {:induction false} RunAlone(w: World, path: seq<Store>, t: Tables, i: nat, x: Tx)
    returns (path': seq<Store>, y: Tx)
    requires Alone(w, path, t, i, x) && Clear(t, x.pending, x.todo, x.now)
    requires AwaitsReady(x.read.Taken?, x.todo) && ReadExact(t, x.read)
    ensures Alone(w, path', t, i, y) && ReadExact(t, y.read)
    ensures y == Tx(x.op, [], ViewAfterAll(x.view, x.todo), PendingAfterAll(t, x.pending, x.todo, x.now), x.now, y.read)
    ensures StartsBefore(x.todo, |x.todo|) || x.read.Taken? ==> y.read.Taken?
    decreases |x.todo|
  {
    if x.todo == [] {
      path', y := path, x;
    } else {
      AwaitsRest(x.read.Taken?, x.todo);
      path', y := OneAlone(w, path, t, i, x);
      path', y := RunAlone(w, path', t, i, y);
    }
  }

  /** From tables t one transaction, alone in the store from its begin to its commit, led to tables t'. */
  ghost predicate LeadsTo(w: World, path: seq<Store>, t: Tables, y: Tx, t': Tables) {
    && Path(w, path) && path[0] == Store(t, map[])
    && |path| > 1 && path[|path| - 2] == Store(t, map[0 := y]) && path[|path| - 1] == Store(t', map[])
  }

  lemma CommitIsStep(w: World, t: Tables, i: nat, x: Tx)
    requires x.todo == []
    ensures Step(w, Store(t, map[i := x]), Store(Commit(t, x.pending), map[]))
  {
    assert map[i := x] - {i} == map[];
    assert CommitStep(Store(t, map[i := x]), Store(Commit(t, x.pending), map[]), i);
  }

  lemma FinishedIsCommitting(w: World, s: Store, i: nat)
    requires Sound(w, s) && i in s.txs && s.txs[i].todo == []
    ensures Committing(w, s.tables, s.txs[i])
  {
    assert Disciplined(s.txs[i].view, s.txs[i].todo);
  }

  lemma AloneIsCommitting(w: World, path: seq<Store>, t: Tables, x: Tx)
    requires TablesOk(t) && Alone(w, path, t, 0, x) && x.todo == []
    ensures Committing(w, t, x)
  {
    EmptyIsSound(w, t);
    PathKeepsSound(w, path, |path| - 1);
    FinishedIsCommitting(w, path[|path| - 1], 0);
  }

  lemma LeadsToEnd(w: World, path: seq<Store>, t: Tables, y: Tx, t': Tables)
    requires Alone(w, path, t, 0, y) && Path(w, path + [Store(t', map[])])
    ensures LeadsTo(w, path + [Store(t', map[])], t, y, t')
  {
    var longer := path + [Store(t', map[])];
    assert longer[|longer| - 2] == path[|path| - 1];
  }

  lemma CommitAlone(w: World, path: seq<Store>, t: Tables, x: Tx) returns (path': seq<Store>)
    requires Alone(w, path, t, 0, x) && x.todo == []
    ensures LeadsTo(w, path', t, x, Commit(t, x.pending))
  {
    CommitIsStep(w, t, 0, x);
    PathGrows(w, path, Store(Commit(t, x.pending), map[]));
    LeadsToEnd(w, path, t, x, Commit(t, x.pending));
    path' := path + [Store(Commit(t, x.pending), map[])];
  }

  lemma AdmittedIsShaped(w: World, op: Op)
    requires Admitted(w, op)
    ensures Shaped(op)
  {
  }

  lemma CaptureStartsRead(w: World, op: Op)
    requires op.DeletePlaylist? && op.capture
    ensures StartsBefore(Program(w, op), |Program(w, op)|)
  {
    assert Program(w, op)[2].StartRead?;
  }

  /** The transaction of a request that ran alone, ready to commit. */
  ghost predicate Served(w: World, t: Tables, op: Op, now: nat, y: Tx) {
    && Committing(w, t, y) && y.op == op && y.now == now
    && y.view == ViewAfterAll(EMPTY_VIEW, Program(w, op))
    && ReadExact(t, y.read)
  }

  /** A request and the time its transaction starts. */
  datatype Request = Request(op: Op, now: nat)

  /** The tables after a request has been run alone on tables t. */
  function Performed(w: World, t: Tables, r: Request): Tables {
    Commit(t, PendingAfterAll(t, NOTHING_PENDING, Program(w, r.op), r.now))
  }

  lemma BegunGoesThrough(w: World, t: Tables, op: Op, now: nat, path: seq<Store>) returns (path': seq<Store>, y: Tx)
    requires TablesOk(t) && Alone(w, path, t, 0, Begun(w, op, now)) && Shaped(op) && Unobstructed(t, op)
    ensures Served(w, t, op, now, y) && LeadsTo(w, path', t, y, Commit(t, y.pending))
    ensures Commit(t, y.pending) == Performed(w, t, Request(op, now))
    ensures op.DeletePlaylist? && op.capture ==> y.read.Taken?
  {
    ClearIsUnobstructed(w, t, op, now);
    ProgramAwaitsReady(w, op);
    path', y := RunAlone(w, path, t, 0, Begun(w, op, now));
    AloneIsCommitting(w, path', t, y);
    path' := CommitAlone(w, path', t, y);
    if op.DeletePlaylist? && op.capture {
      CaptureStartsRead(w, op);
    }
  }

  /** An admitted request that nothing stored stands against commits, and a delete that asks for its
      recipients has them by then. */
  lemma RequestGoesThrough(w: World, t: Tables, op: Op, now: nat) returns (path: seq<Store>, y: Tx)
    requires TablesOk(t) && Admitted(w, op) && Unobstructed(t, op)
    ensures Served(w, t, op, now, y) && LeadsTo(w, path, t, y, Commit(t, y.pending))
    ensures Commit(t, y.pending) == Performed(w, t, Request(op, now))
    ensures op.DeletePlaylist? && op.capture ==> y.read.Taken?
  {
    AdmittedIsShaped(w, op);
    path := BeginAlone(w, t, 0, op, now);
    path, y := BegunGoesThrough(w, t, op, now, path);
  }

  // ---------------------------------------------------------------------------------------
  // In company
  // ---------------------------------------------------------------------------------------

  /** An open transaction has a pending row of the table with the slug. */
  predicate TakesSlug(x: Tx, table: Table, slug: string) {
    exists k :: k in x.pending.rows && k.table == table
      && x.pending.rows[k].Some? && x.pending.rows[k].value.slug == slug
  }

  /** The other transaction holds the lock the statement takes, has written a row it writes, or has taken a
      slug it takes. */
  predicate Hinders(other: Tx, t: Tables, p: Pending, stmt: Stmt) {
    match stmt
    case Lock(k) => k in other.view.locks
    case InsertRow(k, slug, _) => k in other.pending.rows || TakesSlug(other, k.table, slug)
    case UpdateRow(k, _, _, _) => k in other.pending.rows
    case DeleteRow(k, _, _) => k in other.pending.rows
    case InsertMissing(batch, _) =>
      exists id :: id in batch && VisibleRow(t, p, PlaylistKey(id)).None?
        && (PlaylistKey(id) in other.pending.rows || TakesSlug(other, Playlists, batch[id].slug))
    case _ => false
  }

  lemma SlugFreeInCompany(s: Store, i: nat, table: Table, slug: string)
    requires i in s.txs
    ensures SlugFree(s, table, slug)
       <==> SlugOpen(s.tables, s.txs[i].pending, table, slug)
            && forall j :: j in s.txs && j != i ==> !TakesSlug(s.txs[j], table, slug)
  {
  }

  lemma InsertInCompany(s: Store, i: nat)
    requires i in s.txs && s.txs[i].todo != [] && s.txs[i].todo[0].InsertRow?
    ensures Enabled(s, i)
       <==> Succeeds(s.tables, s.txs[i].pending, s.txs[i].todo[0])
            && forall j :: j in s.txs && j != i ==> !Hinders(s.txs[j], s.tables, s.txs[i].pending, s.txs[i].todo[0])
  {
    SlugFreeInCompany(s, i, s.txs[i].todo[0].key.table, s.txs[i].todo[0].slug);
  }

  lemma BatchInCompany(s: Store, i: nat)
    requires i in s.txs && s.txs[i].todo != [] && s.txs[i].todo[0].InsertMissing?
    ensures Enabled(s, i)
       <==> Succeeds(s.tables, s.txs[i].pending, s.txs[i].todo[0])
            && forall j :: j in s.txs && j != i ==> !Hinders(s.txs[j], s.tables, s.txs[i].pending, s.txs[i].todo[0])
  {
    var t, p, batch := s.tables, s.txs[i].pending, s.txs[i].todo[0].batch;
    forall id | id in MissingFrom(t, p, batch)
      ensures SlugFree(s, Playlists, batch[id].slug)
         <==> SlugOpen(t, p, Playlists, batch[id].slug)
              && forall j :: j in s.txs && j != i ==> !TakesSlug(s.txs[j], Playlists, batch[id].slug)
    {
      SlugFreeInCompany(s, i, Playlists, batch[id].slug);
    }
  }

  /** Whatever else is going on, a statement that would succeed alone waits only for another transaction
      that holds its lock, has written its row or has taken its slug. */
  lemma WaitsOnlyForOthers(s: Store, i: nat)
    requires i in s.txs && s.txs[i].todo != [] && (s.txs[i].todo[0].AwaitRead? ==> s.txs[i].read.Taken?)
    ensures (exists s' :: StmtStep(s, s', i))
       <==> Succeeds(s.tables, s.txs[i].pending, s.txs[i].todo[0])
            && forall j :: j in s.txs && j != i ==> !Hinders(s.txs[j], s.tables, s.txs[i].pending, s.txs[i].todo[0])
  {
    if Enabled(s, i) {
      assert StmtStep(s, s.(txs := s.txs[i := Advance(s.tables, s.txs[i])]), i);
    }
    match s.txs[i].todo[0] {
      case InsertRow(_, _, _) => InsertInCompany(s, i);
      case InsertMissing(_, _) => BatchInCompany(s, i);
      case _ =>
    }
  }

  // ---------------------------------------------------------------------------------------
  // Each kind of request
  // ---------------------------------------------------------------------------------------

  lemma OnlyTargetPending(w: World, t: Tables, x: Tx)
    requires Committing(w, t, x) && !Links(x.op)
    ensures x.pending.rows == map[Target(x.op) := TargetRow(w, x.op, x.now)]
  {
    TargetStands(w, t, x);
    assert x.pending.rows.Keys == {Target(x.op)};
  }

  function Put(rows: map<DocKey, Row>, k: DocKey, row: Option<Row>): map<DocKey, Row> {
    if row.Some? then rows[k := row.value] else rows - {k}
  }

  lemma CommitOne(t: Tables, p: Pending, k: DocKey, row: Option<Row>)
    requires p.rows == map[k := row]
    ensures Commit(t, p).rows == Put(t.rows, k, row)
  {
    var rows := Put(t.rows, k, row);
    forall h: DocKey
      ensures VisibleRow(t, p, h) == if h in rows then Some(rows[h]) else None
    {
    }
  }

  /** A request that links nothing and that nothing stands against writes one row. */
  lemma OneRowGoesThrough(w: World, t: Tables, op: Op, now: nat) returns (path: seq<Store>, y: Tx, t': Tables)
    requires TablesOk(t) && Admitted(w, op) && Unobstructed(t, op) && !Links(op)
    ensures LeadsTo(w, path, t, y, t') && Served(w, t, op, now, y) && t' == Commit(t, y.pending)
    ensures t' == Performed(w, t, Request(op, now))
    ensures t'.rows == Put(t.rows, Target(op), TargetRow(w, op, now))
    ensures op.DeletePlaylist? && op.capture ==> y.read.Taken?
  {
    path, y := RequestGoesThrough(w, t, op, now);
    t' := Commit(t, y.pending);
    OnlyTargetPending(w, t, y);
    CommitOne(t, y.pending, Target(op), TargetRow(w, op, now));
  }

  /** A create of a playlist commits if its id was never used, its slug is free and its items have
      distinct ids. */
  lemma CreateGoesThrough(w: World, t: Tables, op: Op, now: nat) returns (path: seq<Store>, y: Tx, t': Tables)
    requires TablesOk(t) && op.CreatePlaylist? && AuthorizeCreate(w, Playlists, op.create).Pass?
    requires var p := op.create.doc.payload;
             && Target(op) !in t.rows && Target(op) !in t.tombstones
             && (forall k :: k in t.rows && k.table == Playlists ==> t.rows[k].slug != p.slug)
             && forall a, b :: 0 <= a < b < |p.items| ==> p.items[a].id != p.items[b].id
    ensures LeadsTo(w, path, t, y, t')
    ensures var doc := op.create.doc;
            t'.rows == t.rows[Target(op) := Row(doc.payload.slug, CoSign(w, doc, CreatedTs(w, doc)), now, now)]
  {
    path, y, t' := OneRowGoesThrough(w, t, op, now);
  }

  /** The row a replace leaves: the co-signed body under the old creation time, later than the old row. */
  lemma ReplacedRow(w: World, op: Op, now: nat)
    requires Replaces(op)
    ensures var p, base := op.replace.doc.payload, op.base;
            TargetRow(w, op, now) == Some(Row(if p.slug == "" then base.slug else p.slug,
                                              CoSign(w, op.replace.doc, op.replace.ts), base.createdAt,
                                              if now > base.generation then now else base.generation + 1))
  {
  }

  lemma ReplaceIsUnobstructed(t: Tables, op: Op)
    requires op.ReplacePlaylist? && Current(t, Target(op), op.base)
    requires var items := op.replace.doc.payload.items;
             forall a, b :: 0 <= a < b < |items| ==> items[a].id != items[b].id
    ensures Unobstructed(t, op) && !Links(op)
  {
  }

  /** A replace of a playlist commits if the row is still the one it was authorized against and its items
      have distinct ids. */
  lemma ReplaceGoesThrough(w: World, t: Tables, op: Op, now: nat) returns (path: seq<Store>, y: Tx, t': Tables)
    requires TablesOk(t) && op.ReplacePlaylist?
    requires AuthorizeReplace(w, Playlists, op.id, op.base.slug, op.base.body, op.replace).Pass?
    requires Target(op) in t.rows && t.rows[Target(op)] == op.base
    requires var items := op.replace.doc.payload.items;
             forall a, b :: 0 <= a < b < |items| ==> items[a].id != items[b].id
    ensures LeadsTo(w, path, t, y, t')
    ensures var p, base := op.replace.doc.payload, op.base;
            t'.rows == t.rows[Target(op) := Row(if p.slug == "" then base.slug else p.slug,
                                                CoSign(w, op.replace.doc, op.replace.ts), base.createdAt,
                                                if now > base.generation then now else base.generation + 1)]
  {
    ReplaceIsUnobstructed(t, op);
    ReplacedRow(w, op, now);
    path, y, t' := OneRowGoesThrough(w, t, op, now);
  }

  lemma DeleteIsUnobstructed(w: World, t: Tables, op: Op, now: nat)
    requires (op.DeletePlaylist? || op.DeleteContainer?) && Target(op) in t.rows && t.rows[Target(op)] == op.base
    ensures Unobstructed(t, op) && !Links(op)
    ensures Put(t.rows, Target(op), TargetRow(w, op, now)) == t.rows - {Target(op)}
  {
  }

  /** A delete of any kind commits if the row is still the one it was authorized against. The document is
      gone and buried, and if the delete asked for its recipients it has exactly the channels that listed
      the playlist, sorted. */
  lemma DeleteGoesThrough(w: World, t: Tables, op: Op, now: nat) returns (path: seq<Store>, y: Tx, t': Tables)
    requires TablesOk(t) && (op.DeletePlaylist? || (op.DeleteContainer? && op.key.table != Playlists))
    requires AuthorizeDelete(w, Target(op).table, Target(op).id, op.base.slug, op.base.body, op.delete).Pass?
    requires Target(op) in t.rows && t.rows[Target(op)] == op.base
    ensures LeadsTo(w, path, t, y, t')
    ensures t'.rows == t.rows - {Target(op)} && Target(op) in t'.tombstones
    ensures op.DeletePlaylist? && op.capture ==> Recipients(y).Some? && StrictlyAscending(Recipients(y).value)
    ensures op.DeletePlaylist? && op.capture ==>
              forall c: nat :: c in Recipients(y).value <==>
                exists n: nat :: Slot(DocKey(Channels, c), n) in t.members
                  && t.members[Slot(DocKey(Channels, c), n)] == op.id
  {
    DeleteIsUnobstructed(w, t, op, now);
    path, y, t' := OneRowGoesThrough(w, t, op, now);
    DeleteRemoves(w, t, y);
    if op.DeletePlaylist? && op.capture {
      ReadIsOfTarget(w, t, y);
      RecipientsAreListers(t, y);
    }
  }

  lemma ReadIsOfTarget(w: World, t: Tables, x: Tx)
    requires Committing(w, t, x) && x.read.Taken?
    ensures x.op.DeletePlaylist? && x.read.playlist == x.op.id
  {
  }

  lemma RecipientsAreListers(t: Tables, x: Tx)
    requires ReadExact(t, x.read) && x.read.Taken?
    ensures Recipients(x).Some? && StrictlyAscending(Recipients(x).value)
    ensures forall c: nat :: c in Recipients(x).value <==>
              exists n: nat :: Slot(DocKey(Channels, c), n) in t.members
                && t.members[Slot(DocKey(Channels, c), n)] == x.read.playlist
  {
    LockOrderCorrect(x.read.rows);
    forall c: nat
      ensures c in Recipients(x).value <==>
                exists n: nat :: Slot(DocKey(Channels, c), n) in t.members
                  && t.members[Slot(DocKey(Channels, c), n)] == x.read.playlist
    {
      ListingIsSlots(t, c, x.read.playlist);
    }
  }

  /** A channel lists a playlist exactly when some slot of it holds the playlist. */
  lemma ListingIsSlots(t: Tables, c: nat, playlist: nat)
    ensures Lists(t, c, playlist) <==>
              exists n: nat :: Slot(DocKey(Channels, c), n) in t.members
                && t.members[Slot(DocKey(Channels, c), n)] == playlist
  {
    if Lists(t, c, playlist) {
      var s :| s in t.members && s.container == DocKey(Channels, c) && t.members[s] == playlist;
      assert s == Slot(DocKey(Channels, c), s.position);
    }
  }

  /** Nothing stands against the references, said of each: a held one is stored, none is buried, and what is
      new has a free slug, a slug of its own among the new, and items with distinct ids. Of the references to
      one id the first counts. */
  ghost predicate ReferencesStand(t: Tables, refs: seq<Reference>) {
    && (forall i :: 0 <= i < |refs| ==> ReferenceStands(t, refs, i))
    && (forall i, j :: 0 <= i < |refs| && 0 <= j < |refs| && IsNew(t, refs, i) && IsNew(t, refs, j)
                       && refs[i].ingested.id != refs[j].ingested.id
          ==> refs[i].ingested.slug != refs[j].ingested.slug)
  }

  /** The reference is the first to its id, and no such playlist is stored. */
  predicate IsNew(t: Tables, refs: seq<Reference>, i: int)
    requires 0 <= i < |refs|
  {
    && DocKey(Playlists, refs[i].ingested.id) !in t.rows
    && forall j :: 0 <= j < i ==> refs[j].ingested.id != refs[i].ingested.id
  }

  ghost predicate ReferenceStands(t: Tables, refs: seq<Reference>, i: int)
    requires 0 <= i < |refs|
  {
    var r := refs[i];
    && (r.held ==> DocKey(Playlists, r.ingested.id) in t.rows)
    && DocKey(Playlists, r.ingested.id) !in t.tombstones
    && (IsNew(t, refs, i) ==>
          && (forall k :: k in t.rows && k.table == Playlists ==> t.rows[k].slug != r.ingested.slug)
          && var items := r.ingested.body.payload.items;
             forall a, b :: 0 <= a < b < |items| ==> items[a].id != items[b].id)
  }

  lemma NewcomerIsFirst(t: Tables, refs: seq<Reference>, id: nat) returns (i: nat)
    requires id in ById(Ingesteds(refs)) && DocKey(Playlists, id) !in t.rows
    ensures i < |refs| && refs[i].ingested.id == id && IsNew(t, refs, i)
    ensures ById(Ingesteds(refs))[id] == refs[i].ingested
  {
    ByIdCorrect(Ingesteds(refs));
    i :| 0 <= i < |refs| && Ingesteds(refs)[i].id == id && IsFirst(Ingesteds(refs), i)
         && ById(Ingesteds(refs))[id] == Ingesteds(refs)[i];
    forall j | 0 <= j < i
      ensures refs[j].ingested.id != refs[i].ingested.id
    {
      assert Ingesteds(refs)[j].id != Ingesteds(refs)[i].id;
    }
  }

  lemma StandingReferencesFit(t: Tables, refs: seq<Reference>)
    requires ReferencesStand(t, refs)
    ensures ReferencesFit(t, refs)
  {
    var batch := ById(Ingesteds(refs));
    forall r | r in refs
      ensures r.held ==> PlaylistKey(r.ingested.id) in t.rows
      ensures PlaylistKey(r.ingested.id) !in t.tombstones
    {
      var i :| 0 <= i < |refs| && refs[i] == r;
      assert ReferenceStands(t, refs, i);
    }
    forall id | id in batch && PlaylistKey(id) !in t.rows
      ensures SlugUnused(t, Playlists, batch[id].slug) && DistinctItemIds(batch[id].body.payload.items)
    {
      var i := NewcomerIsFirst(t, refs, id);
      assert ReferenceStands(t, refs, i);
    }
    forall a, b | a in batch && PlaylistKey(a) !in t.rows && b in batch && PlaylistKey(b) !in t.rows && a != b
      ensures batch[a].slug != batch[b].slug
    {
      var i := NewcomerIsFirst(t, refs, a);
      var j := NewcomerIsFirst(t, refs, b);
    }
  }

  /** What a request that writes a group or channel, and that nothing stands against, leaves. */
  lemma LinksGoThrough(w: World, t: Tables, op: Op, now: nat) returns (path: seq<Store>, y: Tx, t': Tables)
    requires TablesOk(t) && Admitted(w, op) && Unobstructed(t, op) && Links(op)
    ensures LeadsTo(w, path, t, y, t')
    ensures Target(op) in t'.rows && Some(t'.rows[Target(op)]) == TargetRow(w, op, now)
    ensures HasMembers(t', Target(op), op.refs)
  {
    path, y := RequestGoesThrough(w, t, op, now);
    t' := Commit(t, y.pending);
    WrittenTarget(w, t, y);
    WrittenMembers(w, t, y);
  }

  lemma WrittenTarget(w: World, t: Tables, x: Tx)
    requires Committing(w, t, x) && Links(x.op)
    ensures Target(x.op) in Commit(t, x.pending).rows
    ensures Some(Commit(t, x.pending).rows[Target(x.op)]) == TargetRow(w, x.op, x.now)
  {
    TargetStands(w, t, x);
  }

  lemma WrittenMember(w: World, t: Tables, x: Tx, n: nat)
    requires Committing(w, t, x) && TablesOk(t) && Links(x.op)
    ensures HasMember(Commit(t, x.pending), Target(x.op), x.op.refs, n)
  {
    ContainerWriteMember(w, t, x, n);
  }

  lemma WrittenMembers(w: World, t: Tables, x: Tx)
    requires Committing(w, t, x) && TablesOk(t) && Links(x.op)
    ensures HasMembers(Commit(t, x.pending), Target(x.op), x.op.refs)
  {
    forall n: nat
      ensures HasMember(Commit(t, x.pending), Target(x.op), x.op.refs, n)
    {
      WrittenMember(w, t, x, n);
    }
  }

  /** The membership row at position n is the n-th reference, if there is one. */
  predicate HasMember(t: Tables, c: DocKey, refs: seq<Reference>, n: nat) {
    if n < |refs| then Slot(c, n) in t.members && t.members[Slot(c, n)] == refs[n].ingested.id
    else Slot(c, n) !in t.members
  }

  ghost predicate HasMembers(t: Tables, c: DocKey, refs: seq<Reference>) {
    forall n: nat :: HasMember(t, c, refs, n)
  }

  /** A create of a group or channel commits if its id was never used, its slug is free and its references
      fit. Its membership is its reference list. */
  lemma ContainerCreateGoesThrough(w: World, t: Tables, op: Op, now: nat)
    returns (path: seq<Store>, y: Tx, t': Tables)
    requires TablesOk(t) && op.CreateContainer? && op.table != Playlists
    requires AuthorizeCreate(w, op.table, op.create).Pass? && ReferencesOk(w, op.refs)
    requires Target(op) !in t.rows && Target(op) !in t.tombstones
    requires forall k :: k in t.rows && k.table == op.table ==> t.rows[k].slug != op.create.doc.payload.slug
    requires ReferencesStand(t, op.refs)
    ensures LeadsTo(w, path, t, y, t')
    ensures Target(op) in t'.rows
    ensures var doc := op.create.doc;
            t'.rows[Target(op)] == Row(doc.payload.slug, CoSign(w, doc, CreatedTs(w, doc)), now, now)
    ensures HasMembers(t', Target(op), op.refs)
  {
    StandingReferencesFit(t, op.refs);
    path, y, t' := LinksGoThrough(w, t, op, now);
  }

  /** A replace of a group or channel commits if the row is still the one it was authorized against and its
      references fit. Its membership is its new reference list. */
  lemma ContainerReplaceGoesThrough(w: World, t: Tables, op: Op, now: nat)
    returns (path: seq<Store>, y: Tx, t': Tables)
    requires TablesOk(t) && op.ReplaceContainer? && op.key.table != Playlists && ReferencesOk(w, op.refs)
    requires AuthorizeReplace(w, op.key.table, op.key.id, op.base.slug, op.base.body, op.replace).Pass?
    requires Target(op) in t.rows && t.rows[Target(op)] == op.base && ReferencesStand(t, op.refs)
    ensures LeadsTo(w, path, t, y, t')
    ensures Target(op) in t'.rows && HasMembers(t', Target(op), op.refs)
    ensures var p, base := op.replace.doc.payload, op.base;
            t'.rows[Target(op)] == Row(if p.slug == "" then base.slug else p.slug,
                                       CoSign(w, op.replace.doc, op.replace.ts), base.createdAt,
                                       if now > base.generation then now else base.generation + 1)
  {
    StandingReferencesFit(t, op.refs);
    ReplacedRow(w, op, now);
    path, y, t' := LinksGoThrough(w, t, op, now);
  }
}
