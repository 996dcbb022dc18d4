/** A document with the nil id passes every guard of a create, and then ends the directory for whoever pages
    through it: a run of two creates that gets there. */
module NilIds {
  import opened Text
  import opened Documents
  import opened CoSigning
  import opened Ownership
  import opened Authorization
  import opened OwnershipLaws
  import opened SplitSigners
  import opened Batches
  import opened StoreModel
  import opened StoreDiscipline
  import opened StoreInvariant
  import opened StoreCommits
  import opened StoreEffects
  import opened StoreClear
  import opened StoreProgress
  import opened StoreSerial
  import opened Keyset
  import opened Listing
  import opened ListingWalks

  lemma NothingBuried(w: World, t: Tables, x: Tx)
    requires Committing(w, t, x) && x.op.CreatePlaylist?
    ensures Commit(t, x.pending).tombstones == t.tombstones
  {
    OnlyTargetPending(w, t, x);
    forall k
      ensures k !in x.pending.tombstones
    {
      CommitBuries(t, x, k);
    }
  }

  /** The row a create leaves. */
  function Created(w: World, op: Op, now: nat): Row
    requires op.CreatePlaylist?
  {
    Row(op.create.doc.payload.slug, Stored(w, op), now, now)
  }

  /** One more create of a playlist at the end of a serial run. */
  lemma CreateNext(w: World, run: seq<Store>, t: Tables, op: Op, now: nat) returns (longer: seq<Store>, t': Tables)
    requires SerialRun(w, run, t) && TablesOk(t) && Admitted(w, op) && op.CreatePlaylist? && Unobstructed(t, op)
    ensures SerialRun(w, longer, t') && TablesOk(t') && t'.tombstones == t.tombstones
    ensures t'.rows == t.rows[Target(op) := Created(w, op, now)]
  {
    var path, y;
    path, y, t' := OneRowGoesThrough(w, t, op, now);
    NothingBuried(w, t, y);
    longer := SerialRunGrows(w, run, t, Request(op, now));
  }

  function OneAPage(): DirectoryRequest {
    DirectoryRequest(Playlists, SORT_ASC, 1, doc => true)
  }

  /** The page is row k alone, and the cursor it gives is refused. */
  ghost predicate LastPage(t: Tables, k: Key, first: Reply<Key>) {
    && first.Served? && first.page.rows == [k] && first.next.Some?
    && forall second :: AnswersDirectory(t, OneAPage(), first.next, second) ==> second == Refused
  }

  /** A client that pages one row at a time gets row k and is then refused its own cursor. */
  ghost predicate StopsAfter(t: Tables, k: Key) {
    forall first :: AnswersDirectory(t, OneAPage(), None, first) ==> LastPage(t, k, first)
  }

  /** One row a page, a row that the decoder refuses first, another after it: the first page's own cursor
      is refused, so no client can reach the other row by paging. */
  lemma RefusedRowStopsTheDirectory(t: Tables, k: Key, other: Key, first: Reply<Key>)
    requires Listed(t, OneAPage()) == {k, other} && Earlier(k, other) && (k.at == ZERO_TIME || k.id == 0)
    requires AnswersDirectory(t, OneAPage(), None, first)
    ensures LastPage(t, k, first)
  {
    var req := OneAPage();
    DirectoryPage(t, req, None, first);
    EarlierIsStrict();
    assert k in Listed(t, req) && other in Listed(t, req);
    PageMeans(OrderBy(Earlier, SqlOrder(req.sort)), Listed(t, req), None, 1, first.page);
    assert first.page.rows[0] in first.page.rows;
    CursorRoundTrip(first.page.next.value);
  }

  /** Two creates of playlists that both go through, one after the other. */
  ghost predicate TwoCreates(w: World, a: Op, b: Op) {
    && FeedSigns(w)
    && a.CreatePlaylist? && Admitted(w, a) && DistinctItemIds(a.create.doc.payload.items)
    && b.CreatePlaylist? && Admitted(w, b) && DistinctItemIds(b.create.doc.payload.items)
    && Target(a) != Target(b) && a.create.doc.payload.slug != b.create.doc.payload.slug
  }

  lemma EmptyIsSerial(w: World)
    ensures SerialRun(w, [EMPTY_STORE], EMPTY_TABLES) && TablesOk(EMPTY_TABLES)
  {
  }

  lemma TwoCreatesRun(w: World, a: Op, b: Op, now: nat, later: nat) returns (run: seq<Store>, t: Tables)
    requires TwoCreates(w, a, b)
    ensures SerialRun(w, run, t)
    ensures t.rows == map[Target(a) := Created(w, a, now), Target(b) := Created(w, b, later)]
  {
    EmptyIsSerial(w);
    run, t := CreateNext(w, [EMPTY_STORE], EMPTY_TABLES, a, now);
    assert t.rows == map[Target(a) := Created(w, a, now)];
    assert Unobstructed(t, b);
    run, t := CreateNext(w, run, t, b, later);
  }

  lemma ListsTwo(t: Tables, a: nat, b: nat, first: Row, second: Row)
    requires t.rows == map[PlaylistKey(a) := first, PlaylistKey(b) := second] && a != b
    ensures Listed(t, OneAPage()) == {Key(first.createdAt, a), Key(second.createdAt, b)}
  {
    assert PlaylistKey(a) in t.rows && PlaylistKey(b) in t.rows;
  }

  /** After any accepted create of a playlist with the nil id and a later one of another, a client that
      pages through the directory one row at a time is refused its own cursor after the first row. */
  lemma NilIdStopsTheDirectory(w: World, a: Op, b: Op, now: nat, later: nat) returns (run: seq<Store>, t: Tables)
    requires TwoCreates(w, a, b) && Target(a).id == 0 && now <= later
    ensures Run(w, run) && run[|run| - 1].tables == t
    ensures Target(a) in t.rows && Target(b) in t.rows && StopsAfter(t, Key(now, 0))
  {
    run, t := TwoCreatesRun(w, a, b, now, later);
    ListsTwo(t, 0, Target(b).id, Created(w, a, now), Created(w, b, later));
    ListOfTwoStops(t, Key(now, 0), Key(later, Target(b).id));
  }

  lemma ListOfTwoStops(t: Tables, k: Key, other: Key)
    requires Listed(t, OneAPage()) == {k, other} && Earlier(k, other) && (k.at == ZERO_TIME || k.id == 0)
    ensures StopsAfter(t, k)
  {
    forall first | AnswersDirectory(t, OneAPage(), None, first)
      ensures LastPage(t, k, first)
    {
      RefusedRowStopsTheDirectory(t, k, other, first);
    }
  }

  /** A playlist of one owner, with the given id and slug. */
  function Plain(id: nat, slug: string): Op {
    CreatePlaylist(CreateRequest(
      Document(Payload(Some(id), slug, Instant(0, ""), [], None, "", [], [], ""), [Signature("k", Curator, "", "")]),
      0))
  }

  lemma PlainIsAdmitted(id: nat, slug: string)
    requires slug == "a" || slug == "b"
    ensures Admitted(LenientWorld(), Plain(id, slug))
  {
    var doc := Plain(id, slug).create.doc;
    TrimUnpadded(slug);
    TrimUnpadded("k");
    assert doc.signatures[0] in doc.signatures;
    assert RoleSigners(Curator, doc.signatures) == {"k"};
    assert EntityKeys([]) == {};
    SignedByOwnerIsMembership({"k"}, Curator, doc.signatures);
  }

  /** Such creates exist. */
  lemma NilIdExample() returns (run: seq<Store>, t: Tables)
    ensures Run(LenientWorld(), run) && run[|run| - 1].tables == t
    ensures PlaylistKey(0) in t.rows && PlaylistKey(1) in t.rows && StopsAfter(t, Key(1, 0))
  {
    var a, b := Plain(0, "a"), Plain(1, "b");
    PlainIsAdmitted(0, "a");
    PlainIsAdmitted(1, "b");
    assert Target(a) == PlaylistKey(0) && Target(b) == PlaylistKey(1);
    run, t := NilIdStopsTheDirectory(LenientWorld(), a, b, 1, 2);
  }
}
