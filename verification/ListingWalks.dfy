/** Following cursors through the two playlist lists while other requests change the store. */
module ListingWalks {
  import opened Documents
  import opened StoreModel
  import opened StoreInvariant
  import opened StoreRuns
  import opened StoreGuarantees
  import opened Keyset
  import opened Listing

  // ---------------------------------------------------------------------------------------
  // Walks over any list
  // ---------------------------------------------------------------------------------------

  function TokenAt<K>(replies: seq<Reply<K>>, i: nat): Option<Token>
    requires i <= |replies|
    requires forall j :: 0 <= j < |replies| ==> replies[j].Served?
  {
    if i == 0 then None else replies[i - 1].next
  }

  /** Requests made one after the other, each answered with a page and followed by the cursor it gave. */
  predicate Followed<K>(run: seq<Store>, visits: seq<nat>, replies: seq<Reply<K>>) {
    && |visits| == |replies|
    && (forall i :: 0 <= i < |visits| ==> visits[i] < |run|)
    && (forall i, j :: 0 <= i < j < |visits| ==> visits[i] <= visits[j])
    && (forall i :: 0 <= i < |replies| ==> replies[i].Served?)
    && (forall i :: 0 <= i < |replies| - 1 ==> replies[i].next.Some?)
  }

  function Pages<K>(replies: seq<Reply<K>>): seq<Page<K>>
    requires forall j :: 0 <= j < |replies| ==> replies[j].Served?
  {
    seq(|replies|, i requires 0 <= i < |replies| => replies[i].page)
  }

  /** Reply i is cut from snapshot i past the last row of the reply before it, and says whether there is
      more. */
  ghost predicate ServesAt<K(!new)>(before: (K, K) -> bool, limit: nat, snapshots: seq<set<K>>, replies: seq<Reply<K>>,
                                    i: nat)
    requires limit > 0 && i < |replies| == |snapshots|
    requires forall j :: 0 <= j < |replies| ==> replies[j].Served?
  {
    && Serves(before, snapshots[i], if i == 0 then None else replies[i - 1].page.next, limit, replies[i].page)
    && (replies[i].next.Some? <==> replies[i].page.next.Some?)
  }

  lemma ReplyIsPage<K(!new)>(before: (K, K) -> bool, limit: nat, snapshots: seq<set<K>>, replies: seq<Reply<K>>, i: nat)
    requires limit > 0 && i < |replies| == |snapshots|
    requires forall j :: 0 <= j < |replies| ==> replies[j].Served?
    requires ServesAt(before, limit, snapshots, replies, i) && (i + 1 < |replies| ==> replies[i].next.Some?)
    ensures PageAt(before, limit, snapshots, Pages(replies), i)
    ensures Pages(replies)[i].next.Some? <==> replies[i].next.Some?
  {
    assert CursorOf(Pages(replies), i) == if i == 0 then None else replies[i - 1].page.next;
  }

  // ---------------------------------------------------------------------------------------
  // The directory
  // ---------------------------------------------------------------------------------------

  lemma EarlierIsStrict()
    ensures StrictOrder(Earlier)
  {
  }

  function Snapshots(run: seq<Store>, visits: seq<nat>, req: DirectoryRequest): seq<set<Key>>
    requires forall i :: 0 <= i < |visits| ==> visits[i] < |run|
  {
    seq(|visits|, i requires 0 <= i < |visits| => Listed(run[visits[i]].tables, req))
  }

  ghost predicate DirectoryAt(run: seq<Store>, visits: seq<nat>, req: DirectoryRequest, replies: seq<Reply<Key>>,
                              i: nat)
    requires Followed(run, visits, replies) && i < |visits|
  {
    AnswersDirectory(run[visits[i]].tables, req, TokenAt(replies, i), replies[i])
  }

  /** A client pages through the directory. */
  ghost predicate DirectoryWalk(run: seq<Store>, visits: seq<nat>, req: DirectoryRequest, replies: seq<Reply<Key>>) {
    && Followed(run, visits, replies)
    && forall i: nat :: i < |visits| ==> DirectoryAt(run, visits, req, replies, i)
  }

  /** A directory page is cut from its snapshot past its cursor, and its token is its last row. */
  lemma DirectoryPage(t: Tables, req: DirectoryRequest, token: Option<Token>, reply: Reply<Key>)
    requires AnswersDirectory(t, req, token, reply) && reply.Served?
    ensures ResolveListLimit(req.limit).Some?
    ensures token.Some? ==> DecodeCursor(token.value).Some?
    ensures reply.next == if reply.page.next.Some? then Some(EncodeCursor(reply.page.next.value)) else None
    ensures Serves(OrderBy(Earlier, SqlOrder(req.sort)), Listed(t, req),
                   if token.Some? then DecodeCursor(token.value) else None, ResolveListLimit(req.limit).value,
                       reply.page)
  {
    var cursor := if token.Some? then DecodeCursor(token.value) else None;
    PageQueryServes(Earlier, req.sort, Listed(t, req), cursor, ResolveListLimit(req.limit).value, reply.page);
  }

  /** The next directory page starts where the last one ended. */
  lemma NextDirectoryPage(before: Tables, t: Tables, req: DirectoryRequest, token: Option<Token>, reply: Reply<Key>,
                          following: Reply<Key>)
    requires AnswersDirectory(before, req, token, reply) && reply.Served? && reply.next.Some?
    requires AnswersDirectory(t, req, reply.next, following) && following.Served?
    ensures ResolveListLimit(req.limit).Some?
    ensures Serves(OrderBy(Earlier, SqlOrder(req.sort)), Listed(t, req), reply.page.next,
                   ResolveListLimit(req.limit).value, following.page)
    ensures following.next.Some? <==> following.page.next.Some?
  {
    DirectoryPage(before, req, token, reply);
    DirectoryPage(t, req, reply.next, following);
    CursorRoundTrip(reply.page.next.value);
  }

  lemma DirectoryPageOfWalk(run: seq<Store>, visits: seq<nat>, req: DirectoryRequest, replies: seq<Reply<Key>>, i: nat)
    requires DirectoryWalk(run, visits, req, replies) && i < |replies|
    ensures ResolveListLimit(req.limit).Some?
    ensures Serves(OrderBy(Earlier, SqlOrder(req.sort)), Listed(run[visits[i]].tables, req),
                   if i == 0 then None else replies[i - 1].page.next, ResolveListLimit(req.limit).value,
                       replies[i].page)
    ensures replies[i].next.Some? <==> replies[i].page.next.Some?
  {
    assert DirectoryAt(run, visits, req, replies, i);
    if i == 0 {
      DirectoryPage(run[visits[0]].tables, req, None, replies[0]);
    } else {
      assert DirectoryAt(run, visits, req, replies, i - 1);
      var token, reply, following := TokenAt(replies, i - 1), replies[i - 1], replies[i];
      assert TokenAt(replies, i) == reply.next;
      NextDirectoryPage(run[visits[i - 1]].tables, run[visits[i]].tables, req, token, reply, following);
    }
  }

  lemma DirectoryPageInWalk(run: seq<Store>, visits: seq<nat>, req: DirectoryRequest, replies: seq<Reply<Key>>, i: nat)
    requires DirectoryWalk(run, visits, req, replies) && i < |replies|
    ensures ResolveListLimit(req.limit).Some?
    ensures PageAt(OrderBy(Earlier, SqlOrder(req.sort)), ResolveListLimit(req.limit).value,
                   Snapshots(run, visits, req), Pages(replies), i)
    ensures Pages(replies)[i].next.Some? <==> replies[i].next.Some?
  {
    DirectoryPageOfWalk(run, visits, req, replies, i);
    ReplyIsPage(OrderBy(Earlier, SqlOrder(req.sort)), ResolveListLimit(req.limit).value, Snapshots(run, visits, req),
                replies, i);
  }

  lemma DirectoryIsWalk(run: seq<Store>, visits: seq<nat>, req: DirectoryRequest, replies: seq<Reply<Key>>)
    requires DirectoryWalk(run, visits, req, replies) && replies != []
    ensures ResolveListLimit(req.limit).Some?
    ensures Walk(OrderBy(Earlier, SqlOrder(req.sort)), ResolveListLimit(req.limit).value, Snapshots(run, visits, req),
                 Pages(replies))
    ensures replies[|replies| - 1].next.Some? <==> Pages(replies)[|replies| - 1].next.Some?
  {
    DirectoryPageInWalk(run, visits, req, replies, |replies| - 1);
    forall i: nat | i < |replies|
      ensures PageAt(OrderBy(Earlier, SqlOrder(req.sort)), ResolveListLimit(req.limit).value,
                     Snapshots(run, visits, req), Pages(replies), i)
    {
      DirectoryPageInWalk(run, visits, req, replies, i);
    }
  }

  /** A document that is live and matches the filters in every state visited. */
  ghost predicate ListedThroughout(run: seq<Store>, visits: seq<nat>, req: DirectoryRequest, id: nat)
    requires forall i :: 0 <= i < |visits| ==> visits[i] < |run|
  {
    forall i :: 0 <= i < |visits| ==>
      var rows := run[visits[i]].tables.rows;
      DocKey(req.table, id) in rows && req.keep(rows[DocKey(req.table, id)].body)
  }

  /** It is listed under the same key all along. */
  lemma SameKeyThroughout(w: World, run: seq<Store>, visits: seq<nat>, req: DirectoryRequest, id: nat, i: nat)
    requires (forall j :: 0 <= j < |visits| ==> visits[j] < |run|) && ListedThroughout(run, visits, req, id)
    requires i < |visits| && Reached(w, run, visits[i]) && visits[0] <= visits[i]
    ensures Key(run[visits[0]].tables.rows[DocKey(req.table, id)].createdAt, id) in Listed(run[visits[i]].tables, req)
  {
    var k := DocKey(req.table, id);
    OwnershipOnlyGrows(w, run, visits[0], visits[i], k);
    assert k.id == id && k in run[visits[i]].tables.rows;
  }

  /** A document that is live and matches the filters at every page of a finished walk is returned exactly
      once, and the walk is in strict order of creation, whatever is created, replaced or deleted between
      the pages. */
  lemma DirectoryReturnsSurvivorsOnce(w: World, run: seq<Store>, visits: seq<nat>, req: DirectoryRequest,
                                      replies: seq<Reply<Key>>, id: nat)
    requires DirectoryWalk(run, visits, req, replies) && replies != [] && replies[|replies| - 1].next.None?
    requires FeedSigns(w) && Run(w, run) && ListedThroughout(run, visits, req, id)
    ensures InOrder(OrderBy(Earlier, SqlOrder(req.sort)), Returned(Pages(replies)))
    ensures multiset(Returned(Pages(replies)))[Key(run[visits[0]].tables.rows[DocKey(req.table, id)].createdAt,
                                                   id)] == 1
  {
    var key := Key(run[visits[0]].tables.rows[DocKey(req.table, id)].createdAt, id);
    forall i | 0 <= i < |visits|
      ensures key in Snapshots(run, visits, req)[i]
    {
      SameKeyThroughout(w, run, visits, req, id, i);
    }
    DirectoryWalkReturns(run, visits, req, replies, key);
  }

  lemma DirectoryWalkReturns(run: seq<Store>, visits: seq<nat>, req: DirectoryRequest, replies: seq<Reply<Key>>,
                             key: Key)
    requires DirectoryWalk(run, visits, req, replies) && replies != [] && replies[|replies| - 1].next.None?
    requires forall i :: 0 <= i < |visits| ==> key in Snapshots(run, visits, req)[i]
    ensures InOrder(OrderBy(Earlier, SqlOrder(req.sort)), Returned(Pages(replies)))
    ensures multiset(Returned(Pages(replies)))[key] == 1
  {
    DirectoryIsWalk(run, visits, req, replies);
    EarlierIsStrict();
    OrderIsStrict(Earlier, SqlOrder(req.sort));
    WalkReturnsSurvivorsOnce(OrderBy(Earlier, SqlOrder(req.sort)), ResolveListLimit(req.limit).value,
                             Snapshots(run, visits, req), Pages(replies), key);
  }

  /** A directory cursor is refused on the next request exactly when the row it names has a zero time or
      the nil id, whatever has happened to the store in the meantime. */
  lemma DirectoryCursorRefused(t: Tables, req: DirectoryRequest, k: Key, reply: Reply<Key>)
    requires ResolveListLimit(req.limit).Some?
    requires AnswersDirectory(t, req, Some(EncodeCursor(k)), reply)
    ensures reply == Refused <==> k.at == -62_135_596_800_000_000 || k.id == 0
  {
    CursorRoundTrip(k);
  }

  // ---------------------------------------------------------------------------------------
  // The members of a group or channel
  // ---------------------------------------------------------------------------------------

  lemma SmallerIsStrict()
    ensures StrictOrder(Smaller)
  {
  }

  function MemberOrder(req: MemberRequest): (int, int) -> bool {
    OrderBy(Smaller, SqlOrder(Canonical(req.sort)))
  }

  ghost predicate MembersAt(run: seq<Store>, visits: seq<nat>, req: MemberRequest, replies: seq<Reply<int>>, i: nat)
    requires Followed(run, visits, replies) && i < |visits|
  {
    AnswersMembers(run[visits[i]].tables, req, TokenAt(replies, i), replies[i])
  }

  /** A client pages through the members of a container. */
  ghost predicate MemberWalk(run: seq<Store>, visits: seq<nat>, req: MemberRequest, replies: seq<Reply<int>>) {
    && req.container.table != Playlists
    && (req.sort == "" || req.sort == SORT_ASC || req.sort == SORT_DESC)
    && Followed(run, visits, replies)
    && forall i: nat :: i < |visits| ==> MembersAt(run, visits, req, replies, i)
  }

  function PositionSnapshots(run: seq<Store>, visits: seq<nat>, req: MemberRequest): seq<set<int>>
    requires forall i :: 0 <= i < |visits| ==> visits[i] < |run|
  {
    seq(|visits|, i requires 0 <= i < |visits| => MemberPositions(run[visits[i]].tables, req.container))
  }

  /** The cursor of a served page, as the decoder gives it back. */
  function CursorIn(token: Option<Token>): Option<int> {
    if token.Some? && DecodeMemberCursor(token.value).Some? then Some(DecodeMemberCursor(token.value).value.pos)
    else None
  }

  /** A page of members of a container that is there. */
  lemma MemberPage(t: Tables, req: MemberRequest, token: Option<Token>, reply: Reply<int>)
    requires AnswersMembers(t, req, token, reply) && reply.Served? && req.container in t.rows
    ensures ResolveListLimit(req.limit).Some?
    ensures token.Some? ==> DecodeMemberCursor(token.value).Some?
                            && Fits(DecodeMemberCursor(token.value).value, req, t.rows[req.container].generation)
    ensures reply.next == NextMember(req, t.rows[req.container].generation, reply.page)
    ensures Serves(MemberOrder(req), MemberPositions(t, req.container), CursorIn(token),
                   ResolveListLimit(req.limit).value, reply.page)
  {
    PageQueryServes(Smaller, Canonical(req.sort), MemberPositions(t, req.container), CursorIn(token),
                    ResolveListLimit(req.limit).value, reply.page);
  }

  /** Once the container is gone the next page is empty and last. */
  lemma GoneContainerPage(w: World, run: seq<Store>, n: nat, req: MemberRequest, token: Option<Token>,
                          reply: Reply<int>)
    requires Reached(w, run, n) && req.container.table != Playlists && req.container !in run[n].tables.rows
    requires AnswersMembers(run[n].tables, req, token, reply) && reply.Served?
    ensures ResolveListLimit(req.limit).Some? && (token.Some? ==> DecodeMemberCursor(token.value).Some?)
    ensures reply == Served(Page([], None), None) && MemberPositions(run[n].tables, req.container) == {}
    ensures Serves(MemberOrder(req), {}, CursorIn(token), ResolveListLimit(req.limit).value, reply.page)
  {
    forall s | s in run[n].tables.members
      ensures s.container != req.container
    {
      MembershipIsExact(w, run, n, s.container, s.position);
      assert s == Slot(s.container, s.position);
    }
    assert Answers(MemberOrder(req), {}, CursorIn(token), ResolveListLimit(req.limit).value + 1, []);
    assert Cut<int>([], ResolveListLimit(req.limit).value) == Page([], None);
  }

  lemma AnyMemberPage(w: World, run: seq<Store>, n: nat, req: MemberRequest, token: Option<Token>, reply: Reply<int>)
    requires Reached(w, run, n) && req.container.table != Playlists
    requires AnswersMembers(run[n].tables, req, token, reply) && reply.Served?
    ensures ResolveListLimit(req.limit).Some? && (token.Some? ==> DecodeMemberCursor(token.value).Some?)
    ensures Serves(MemberOrder(req), MemberPositions(run[n].tables, req.container), CursorIn(token),
                   ResolveListLimit(req.limit).value, reply.page)
    ensures reply.next.Some? <==> reply.page.next.Some?
    ensures reply.next.Some? ==> req.container in run[n].tables.rows
                                 && reply.next == NextMember(req, run[n].tables.rows[req.container].generation,
                                                             reply.page)
  {
    if req.container in run[n].tables.rows {
      MemberPage(run[n].tables, req, token, reply);
    } else {
      GoneContainerPage(w, run, n, req, token, reply);
    }
  }

  /** A token that decodes, decodes to the page boundary it was made from. */
  lemma NextMemberDecodes(req: MemberRequest, revision: int, page: Page<int>)
    requires req.sort == "" || req.sort == SORT_ASC || req.sort == SORT_DESC
    requires page.next.Some? && DecodeMemberCursor(NextMember(req, revision, page).value).Some?
    ensures CursorIn(NextMember(req, revision, page)) == page.next
    ensures DecodeMemberCursor(NextMember(req, revision, page).value).value.rev == revision
  {
    MemberCursorRoundTrip(MemberCursor(Kind(req.container.table), req.container.id, Canonical(req.sort), revision,
                                       page.next.value));
  }

  /** The next page of a walk starts where the last one ended, in the same revision of the container. */
  lemma NextPageContinues(w: World, run: seq<Store>, m: nat, n: nat, req: MemberRequest, token: Option<Token>,
                          reply: Reply<int>, following: Reply<int>)
    requires Reached(w, run, n) && m <= n && req.container.table != Playlists
    requires req.sort == "" || req.sort == SORT_ASC || req.sort == SORT_DESC
    requires AnswersMembers(run[m].tables, req, token, reply) && reply.Served? && reply.next.Some?
    requires AnswersMembers(run[n].tables, req, reply.next, following) && following.Served?
    ensures reply.page.next.Some? && CursorIn(reply.next) == reply.page.next
    ensures req.container in run[m].tables.rows
    ensures req.container in run[n].tables.rows ==>
              run[n].tables.rows[req.container].generation == run[m].tables.rows[req.container].generation
  {
    AnyMemberPage(w, run, m, req, token, reply);
    AnyMemberPage(w, run, n, req, reply.next, following);
    NextMemberDecodes(req, run[m].tables.rows[req.container].generation, reply.page);
    if req.container in run[n].tables.rows {
      MemberPage(run[n].tables, req, reply.next, following);
    }
  }

  lemma FollowingPage(w: World, run: seq<Store>, m: nat, n: nat, req: MemberRequest, token: Option<Token>,
                      reply: Reply<int>, following: Reply<int>)
    requires Reached(w, run, n) && m <= n && req.container.table != Playlists
    requires req.sort == "" || req.sort == SORT_ASC || req.sort == SORT_DESC
    requires AnswersMembers(run[m].tables, req, token, reply) && reply.Served? && reply.next.Some?
    requires AnswersMembers(run[n].tables, req, reply.next, following) && following.Served?
    ensures ResolveListLimit(req.limit).Some?
    ensures Serves(MemberOrder(req), MemberPositions(run[n].tables, req.container), reply.page.next,
                   ResolveListLimit(req.limit).value, following.page)
    ensures following.next.Some? <==> following.page.next.Some?
  {
    NextPageContinues(w, run, m, n, req, token, reply, following);
    AnyMemberPage(w, run, n, req, reply.next, following);
  }

  lemma MemberPageOfWalk(w: World, run: seq<Store>, visits: seq<nat>, req: MemberRequest, replies: seq<Reply<int>>,
                         i: nat)
    requires FeedSigns(w) && Run(w, run) && MemberWalk(run, visits, req, replies) && i < |replies|
    ensures ResolveListLimit(req.limit).Some?
    ensures Serves(MemberOrder(req), MemberPositions(run[visits[i]].tables, req.container),
                   if i == 0 then None else replies[i - 1].page.next, ResolveListLimit(req.limit).value,
                       replies[i].page)
    ensures replies[i].next.Some? <==> replies[i].page.next.Some?
  {
    assert MembersAt(run, visits, req, replies, i);
    if i == 0 {
      AnyMemberPage(w, run, visits[0], req, None, replies[0]);
    } else {
      assert MembersAt(run, visits, req, replies, i - 1);
      var token, reply, following := TokenAt(replies, i - 1), replies[i - 1], replies[i];
      assert TokenAt(replies, i) == reply.next;
      FollowingPage(w, run, visits[i - 1], visits[i], req, token, reply, following);
    }
  }

  lemma MemberPageInWalk(w: World, run: seq<Store>, visits: seq<nat>, req: MemberRequest, replies: seq<Reply<int>>,
                         i: nat)
    requires FeedSigns(w) && Run(w, run) && MemberWalk(run, visits, req, replies) && i < |replies|
    ensures ResolveListLimit(req.limit).Some?
    ensures PageAt(MemberOrder(req), ResolveListLimit(req.limit).value, PositionSnapshots(run, visits, req),
                   Pages(replies), i)
    ensures Pages(replies)[i].next.Some? <==> replies[i].next.Some?
  {
    MemberPageOfWalk(w, run, visits, req, replies, i);
    ReplyIsPage(MemberOrder(req), ResolveListLimit(req.limit).value, PositionSnapshots(run, visits, req), replies, i);
  }

  lemma MembersAreWalk(w: World, run: seq<Store>, visits: seq<nat>, req: MemberRequest, replies: seq<Reply<int>>)
    requires FeedSigns(w) && Run(w, run) && MemberWalk(run, visits, req, replies) && replies != []
    ensures ResolveListLimit(req.limit).Some?
    ensures Walk(MemberOrder(req), ResolveListLimit(req.limit).value, PositionSnapshots(run, visits, req),
                 Pages(replies))
    ensures replies[|replies| - 1].next.Some? <==> Pages(replies)[|replies| - 1].next.Some?
  {
    MemberPageInWalk(w, run, visits, req, replies, |replies| - 1);
    forall i: nat | i < |replies|
      ensures PageAt(MemberOrder(req), ResolveListLimit(req.limit).value, PositionSnapshots(run, visits, req),
                     Pages(replies), i)
    {
      MemberPageInWalk(w, run, visits, req, replies, i);
    }
  }

  /** From one page to the next the members only thin out, in one revision of the container. */
  lemma NextPageThins(w: World, run: seq<Store>, m: nat, n: nat, req: MemberRequest, token: Option<Token>,
                      reply: Reply<int>, following: Reply<int>)
    requires Reached(w, run, n) && m <= n && req.container.table != Playlists
    requires req.sort == "" || req.sort == SORT_ASC || req.sort == SORT_DESC
    requires AnswersMembers(run[m].tables, req, token, reply) && reply.Served? && reply.next.Some?
    requires AnswersMembers(run[n].tables, req, reply.next, following) && following.Served?
    ensures MemberPositions(run[n].tables, req.container) <= MemberPositions(run[m].tables, req.container)
    ensures SameRevision(run[m].tables, run[n].tables, req.container)
  {
    NextPageContinues(w, run, m, n, req, token, reply, following);
    PositionsThin(w, run, m, n, req.container);
  }

  /** The container, as far as it is there in the later state, is there in the earlier one at the same
      generation. */
  predicate SameRevision(t: Tables, t': Tables, c: DocKey) {
    c in t'.rows ==> c in t.rows && t'.rows[c].generation == t.rows[c].generation
  }

  lemma PageThins(w: World, run: seq<Store>, visits: seq<nat>, req: MemberRequest, replies: seq<Reply<int>>, i: nat)
    requires FeedSigns(w) && Run(w, run) && MemberWalk(run, visits, req, replies) && i + 1 < |replies|
    ensures MemberPositions(run[visits[i + 1]].tables, req.container)
         <= MemberPositions(run[visits[i]].tables, req.container)
    ensures SameRevision(run[visits[i]].tables, run[visits[i + 1]].tables, req.container)
    ensures req.container in run[visits[i]].tables.rows
  {
    assert MembersAt(run, visits, req, replies, i) && MembersAt(run, visits, req, replies, i + 1);
    var token, reply, following := TokenAt(replies, i), replies[i], replies[i + 1];
    assert TokenAt(replies, i + 1) == reply.next;
    NextPageContinues(w, run, visits[i], visits[i + 1], req, token, reply, following);
    NextPageThins(w, run, visits[i], visits[i + 1], req, token, reply, following);
  }

  /** From page to page the members only thin out. */
  lemma {:induction false} MembersShrink(w: World, run: seq<Store>, visits: seq<nat>, req: MemberRequest,
                                         replies: seq<Reply<int>>, i: nat)
    requires FeedSigns(w) && Run(w, run) && MemberWalk(run, visits, req, replies) && i < |replies|
    ensures MemberPositions(run[visits[i]].tables, req.container) <= MemberPositions(run[visits[0]].tables,
            req.container)
    ensures SameRevision(run[visits[0]].tables, run[visits[i]].tables, req.container)
  {
    if i > 0 {
      MembersShrink(w, run, visits, req, replies, i - 1);
      PageThins(w, run, visits, req, replies, i - 1);
    }
  }

  lemma PositionsThin(w: World, run: seq<Store>, m: nat, n: nat, c: DocKey)
    requires Reached(w, run, n) && m <= n && c.table != Playlists && c in run[m].tables.rows
    requires c in run[n].tables.rows ==> run[n].tables.rows[c].generation == run[m].tables.rows[c].generation
    ensures MemberPositions(run[n].tables, c) <= MemberPositions(run[m].tables, c)
  {
    forall x | x in MemberPositions(run[n].tables, c)
      ensures x in MemberPositions(run[m].tables, c)
    {
      MembershipIsExact(w, run, n, c, x);
      MembershipOnlyThins(w, run, m, n, c, x);
      MembershipIsExact(w, run, m, c, x);
      assert Slot(c, x) in run[m].tables.members;
    }
  }

  lemma MemberWalkReturns(w: World, run: seq<Store>, visits: seq<nat>, req: MemberRequest, replies: seq<Reply<int>>,
                          i: int)
    requires FeedSigns(w) && Run(w, run) && MemberWalk(run, visits, req, replies)
    requires replies != [] && replies[|replies| - 1].next.None?
    requires forall j :: 0 <= j < |visits| ==> i in PositionSnapshots(run, visits, req)[j]
    ensures InOrder(MemberOrder(req), Returned(Pages(replies)))
    ensures multiset(Returned(Pages(replies)))[i] == 1
  {
    MembersAreWalk(w, run, visits, req, replies);
    SmallerIsStrict();
    OrderIsStrict(Smaller, SqlOrder(Canonical(req.sort)));
    WalkReturnsSurvivorsOnce(MemberOrder(req), ResolveListLimit(req.limit).value, PositionSnapshots(run, visits, req),
                             Pages(replies), i);
  }

  lemma MemberIsListed(w: World, run: seq<Store>, n: nat, c: DocKey, i: nat)
    requires Reached(w, run, n) && c.table != Playlists && Slot(c, i) in run[n].tables.members
    ensures i as int in MemberPositions(run[n].tables, c)
    ensures c in run[n].tables.rows
  {
    MembershipIsExact(w, run, n, c, i);
    assert Slot(c, i).container == c;
  }

  /** A slot that is there in every state visited holds the same playlist in all of them. */
  lemma SlotKeepsPlaylist(w: World, run: seq<Store>, visits: seq<nat>, req: MemberRequest, replies: seq<Reply<int>>,
                          i: nat, j: nat)
    requires FeedSigns(w) && Run(w, run) && MemberWalk(run, visits, req, replies) && j < |visits|
    requires Slot(req.container, i) in run[visits[0]].tables.members
    requires Slot(req.container, i) in run[visits[j]].tables.members
    ensures run[visits[j]].tables.members[Slot(req.container, i)] == run[visits[0]].tables.members[Slot(req.container,
            i)]
  {
    MemberIsListed(w, run, visits[j], req.container, i);
    MembersShrink(w, run, visits, req, replies, j);
    MembershipOnlyThins(w, run, visits[0], visits[j], req.container, i);
  }

  /** A member position that is there in every state visited is returned exactly once by a finished walk,
      in strict position order, and always with the same playlist. */
  lemma MembersReturnSurvivorsOnce(w: World, run: seq<Store>, visits: seq<nat>, req: MemberRequest,
                                   replies: seq<Reply<int>>, i: nat)
    requires FeedSigns(w) && Run(w, run) && MemberWalk(run, visits, req, replies)
    requires replies != [] && replies[|replies| - 1].next.None?
    requires forall j :: 0 <= j < |visits| ==> Slot(req.container, i) in run[visits[j]].tables.members
    ensures InOrder(MemberOrder(req), Returned(Pages(replies)))
    ensures multiset(Returned(Pages(replies)))[i as int] == 1
    ensures forall j :: 0 <= j < |visits| ==>
              run[visits[j]].tables.members[Slot(req.container,
                                                 i)] == run[visits[0]].tables.members[Slot(req.container, i)]
  {
    forall j | 0 <= j < |visits|
      ensures i as int in PositionSnapshots(run, visits, req)[j]
      ensures run[visits[j]].tables.members[Slot(req.container,
                                                 i)] == run[visits[0]].tables.members[Slot(req.container, i)]
    {
      MemberIsListed(w, run, visits[j], req.container, i);
      SlotKeepsPlaylist(w, run, visits, req, replies, i, j);
    }
    MemberWalkReturns(w, run, visits, req, replies, i as int);
  }

  /** Paging through members ends: after the first page there is at most one page for each full page of
      the members there were at the start. */
  lemma MemberWalkEnds(w: World, run: seq<Store>, visits: seq<nat>, req: MemberRequest, replies: seq<Reply<int>>)
    requires FeedSigns(w) && Run(w, run) && MemberWalk(run, visits, req, replies) && replies != []
    ensures ResolveListLimit(req.limit).Some?
    ensures (|replies| - 1) * ResolveListLimit(req.limit).value <= |MemberPositions(run[visits[0]].tables,
            req.container)|
  {
    MembersAreWalk(w, run, visits, req, replies);
    SmallerIsStrict();
    OrderIsStrict(Smaller, SqlOrder(Canonical(req.sort)));
    forall i | 0 <= i < |visits|
      ensures PositionSnapshots(run, visits, req)[i] <= PositionSnapshots(run, visits, req)[0]
    {
      MembersShrink(w, run, visits, req, replies, i);
    }
    WalkEnds(MemberOrder(req), ResolveListLimit(req.limit).value, PositionSnapshots(run, visits, req), Pages(replies),
             PositionSnapshots(run, visits, req)[0]);
  }

  /** A member cursor is honoured exactly by the list it came from: the same container, the same
      direction, and no replace of the container in between. Presented to a container that is there, it is
      refused for another container or kind, for the other direction, and once the container was replaced.
      The decoder also refuses a nil container and a position past 32 bits. */
  lemma MemberCursorHonoured(w: World, run: seq<Store>, m: nat, n: nat, req: MemberRequest, token: Option<Token>,
                             reply: Reply<int>, other: MemberRequest, following: Reply<int>)
    requires Reached(w, run, n) && m <= n
    requires req.container.table != Playlists && other.container.table != Playlists
    requires req.sort == "" || req.sort == SORT_ASC || req.sort == SORT_DESC
    requires AnswersMembers(run[m].tables, req, token, reply) && reply.Served? && reply.next.Some?
    requires other.container in run[n].tables.rows && ResolveListLimit(other.limit).Some?
    requires AnswersMembers(run[n].tables, other, reply.next, following)
    ensures reply.page.next.Some? && req.container in run[m].tables.rows
    ensures following.Served? <==>
              && req.container.id != 0 && 0 <= reply.page.next.value <= 2_147_483_647
              && other.container == req.container && Canonical(other.sort) == Canonical(req.sort)
              && run[n].tables.rows[other.container].generation == run[m].tables.rows[req.container].generation
  {
    AnyMemberPage(w, run, m, req, token, reply);
    var revision := run[m].tables.rows[req.container].generation;
    var c := MemberCursor(Kind(req.container.table), req.container.id, Canonical(req.sort), revision,
                          reply.page.next.value);
    assert reply.next == Some(EncodeMemberCursor(c));
    MemberCursorRoundTrip(c);
    KindsDiffer(req.container.table, other.container.table);
  }

  lemma KindsDiffer(a: Table, b: Table)
    requires a != Playlists && b != Playlists
    ensures Kind(a) == Kind(b) <==> a == b
  {
    assert |Kind(Channels)| != |Kind(Groups)|;
  }
}
