/** What the two paged lists return, said of the rows themselves: which, and in what order. */
module ListingLaws {
  import opened Text
  import opened Documents
  import opened StoreModel
  import opened StoreInvariant
  import opened StoreRuns
  import opened StoreGuarantees
  import opened Keyset
  import opened Listing
  import opened ListingWalks

  // ---------------------------------------------------------------------------------------
  // The directory
  // ---------------------------------------------------------------------------------------

  /** The row of key k is of the list's kind, was created when the key says, and passes the filters. */
  predicate Qualifies(t: Tables, req: DirectoryRequest, k: Key) {
    && DocKey(req.table, k.id) in t.rows
    && t.rows[DocKey(req.table, k.id)].createdAt == k.at
    && req.keep(t.rows[DocKey(req.table, k.id)].body)
  }

  /** Oldest first, and by id among those created at the same time; newest first only for "desc". */
  predicate InTurn(sort: string, a: Key, b: Key) {
    if sort == "desc" then a.at > b.at || (a.at == b.at && a.id > b.id)
    else a.at < b.at || (a.at == b.at && a.id < b.id)
  }

  lemma ListedMeans(t: Tables, req: DirectoryRequest, k: Key)
    ensures k in Listed(t, req) <==> Qualifies(t, req, k)
  {
    if k in Listed(t, req) {
      var d :| d in t.rows && d.table == req.table && req.keep(t.rows[d].body) && k == Key(t.rows[d].createdAt, d.id);
      assert d == DocKey(req.table, k.id);
    }
    if Qualifies(t, req, k) {
      assert DocKey(req.table, k.id) in t.rows;
    }
  }

  lemma KeywordMeans(sort: SortOrder)
    ensures SqlOrder(sort) == "DESC" <==> sort == "desc"
  {
    assert "ASC"[0] != "DESC"[0];
  }

  lemma OrderMeans<K(!new)>(less: (K, K) -> bool, keyword: string, a: K, b: K)
    ensures OrderBy(less, keyword)(a, b) <==> if keyword == "DESC" then less(b, a) else less(a, b)
  {
  }

  lemma DirectoryOrderMeans(sort: SortOrder, a: Key, b: Key)
    ensures OrderBy(Earlier, SqlOrder(sort))(a, b) <==> InTurn(sort, a, b)
  {
    KeywordMeans(sort);
    OrderMeans(Earlier, SqlOrder(sort), a, b);
  }

  /** A token is a directory cursor for key k exactly when it is an object that carries the time and the id
      of k, neither of them zero, and no member position. */
  lemma CursorMeans(token: Token, k: Key)
    ensures DecodeCursor(token) == Some(k) <==>
              && token.Object? && "pos" !in token.fields
              && "t" in token.fields && token.fields["t"] == Time(k.at) && k.at != -62_135_596_800_000_000
              && "id" in token.fields && token.fields["id"] == Uuid(k.id) && k.id != 0
  {
  }

  /** A limit above the maximum and a token that is no cursor are all that is refused. */
  lemma DirectoryRefusals(t: Tables, req: DirectoryRequest, token: Option<Token>, reply: Reply<Key>)
    requires AnswersDirectory(t, req, token, reply)
    ensures reply.LimitExceeded? <==> req.limit > 512
    ensures reply.Refused? <==> req.limit <= 512 && token.Some? && forall k :: DecodeCursor(token.value) != Some(k)
  {
    if req.limit <= 512 && token.Some? && DecodeCursor(token.value).Some? {
      assert DecodeCursor(token.value) == Some(DecodeCursor(token.value).value);
    }
  }

  /** A page of the directory holds rows that qualify, past the cursor it was asked for, in turn and no more
      than the limit; a row that qualifies, lies past the cursor and is not on the page comes after the whole
      page, which then is full and gives a cursor. */
  lemma DirectoryPageMeans(t: Tables, req: DirectoryRequest, token: Option<Token>, reply: Reply<Key>, limit: nat,
                           k: Key)
    requires AnswersDirectory(t, req, token, reply) && reply.Served? && ResolveListLimit(req.limit) == Some(limit)
    ensures |reply.page.rows| <= limit
    ensures token.Some? ==> DecodeCursor(token.value).Some?
    ensures k in reply.page.rows ==>
              Qualifies(t, req, k) && (token.Some? ==> InTurn(req.sort, DecodeCursor(token.value).value, k))
    ensures Qualifies(t, req, k) && (token.Some? ==> InTurn(req.sort, DecodeCursor(token.value).value, k))
            && k !in reply.page.rows ==>
              |reply.page.rows| == limit && reply.next.Some?
              && forall r :: r in reply.page.rows ==> InTurn(req.sort, r, k)
    ensures forall i, j :: 0 <= i < j < |reply.page.rows| ==> InTurn(req.sort, reply.page.rows[i], reply.page.rows[j])
  {
    var before, cursor := OrderBy(Earlier, SqlOrder(req.sort)), if token.Some? then DecodeCursor(token.value) else None;
    DirectoryPage(t, req, token, reply);
    EarlierIsStrict();
    OrderIsStrict(Earlier, SqlOrder(req.sort));
    PageMeans(before, Listed(t, req), cursor, limit, reply.page);
    ListedMeans(t, req, k);
    forall a, b
      ensures before(a, b) <==> InTurn(req.sort, a, b)
    {
      DirectoryOrderMeans(req.sort, a, b);
    }
    if reply.page.next.Some? {
      forall r | r in reply.page.rows
        ensures r == reply.page.next.value || before(r, reply.page.next.value)
      {
        var i :| 0 <= i < |reply.page.rows| && reply.page.rows[i] == r;
      }
    }
  }

  /** Whatever a walk through the directory returns qualified in the state its page was cut from. */
  lemma DirectoryReturnsOnlyQualified(run: seq<Store>, visits: seq<nat>, req: DirectoryRequest,
                                      replies: seq<Reply<Key>>, k: Key)
    requires DirectoryWalk(run, visits, req, replies) && k in Returned(Pages(replies))
    ensures exists i :: 0 <= i < |visits| && k in replies[i].page.rows && Qualifies(run[visits[i]].tables, req, k)
  {
    DirectoryIsWalk(run, visits, req, replies);
    EarlierIsStrict();
    OrderIsStrict(Earlier, SqlOrder(req.sort));
    WalkReturnsOnlyRows(OrderBy(Earlier, SqlOrder(req.sort)), ResolveListLimit(req.limit).value,
                        Snapshots(run, visits, req), Pages(replies), k);
    var i :| 0 <= i < |visits| && k in Snapshots(run, visits, req)[i] && k in Pages(replies)[i].rows;
    ListedMeans(run[visits[i]].tables, req, k);
  }

  /** And it is returned in turn, across all pages. */
  lemma DirectoryReturnsInTurn(run: seq<Store>, visits: seq<nat>, req: DirectoryRequest, replies: seq<Reply<Key>>,
                               i: nat, j: nat)
    requires DirectoryWalk(run, visits, req, replies) && i < j < |Returned(Pages(replies))|
    ensures InTurn(req.sort, Returned(Pages(replies))[i], Returned(Pages(replies))[j])
  {
    DirectoryIsWalk(run, visits, req, replies);
    EarlierIsStrict();
    OrderIsStrict(Earlier, SqlOrder(req.sort));
    WalkInOrder(OrderBy(Earlier, SqlOrder(req.sort)), ResolveListLimit(req.limit).value, Snapshots(run, visits, req),
                Pages(replies));
    DirectoryOrderMeans(req.sort, Returned(Pages(replies))[i], Returned(Pages(replies))[j]);
  }

  // ---------------------------------------------------------------------------------------
  // The members of a group or channel
  // ---------------------------------------------------------------------------------------

  /** The container has a membership row at the position, for a playlist that is there. */
  predicate Holds(t: Tables, c: DocKey, position: int) {
    position >= 0 && Slot(c, position) in t.members && PlaylistKey(t.members[Slot(c, position)]) in t.rows
  }

  predicate PositionsInTurn(sort: string, a: int, b: int) {
    if sort == "desc" then a > b else a < b
  }

  lemma PositionsMean(t: Tables, c: DocKey, position: int)
    ensures position in MemberPositions(t, c) <==> Holds(t, c, position)
  {
    if position in MemberPositions(t, c) {
      var s :| s in t.members && s.container == c && PlaylistKey(t.members[s]) in t.rows && s.position == position;
      assert s == Slot(c, position);
    }
    if Holds(t, c, position) {
      assert Slot(c, position).container == c;
    }
  }

  lemma MemberOrderMeans(req: MemberRequest, a: int, b: int)
    ensures MemberOrder(req)(a, b) <==> PositionsInTurn(req.sort, a, b)
  {
    KeywordMeans(Canonical(req.sort));
    OrderMeans(Smaller, SqlOrder(Canonical(req.sort)), a, b);
    assert "asc"[0] != "desc"[0];
  }

  /** A token is a member cursor exactly when it is an object that carries the kind and the id of a container,
      a direction, a revision and a position that is a 32-bit number, and no creation time. */
  lemma MemberCursorMeans(token: Token, c: MemberCursor)
    ensures DecodeMemberCursor(token) == Some(c) <==>
              && token.Object? && "t" !in token.fields
              && "kind" in token.fields && token.fields["kind"] == Str(c.kind)
              && (c.kind == "channel" || c.kind == "playlist-group")
              && "cid" in token.fields && token.fields["cid"] == Uuid(c.container) && c.container != 0
              && "sort" in token.fields && token.fields["sort"] == Str(c.sort) && IsDirection(c.sort)
              && "rev" in token.fields && token.fields["rev"] == Time(c.rev) && c.rev != -62_135_596_800_000_000
              && "pos" in token.fields && token.fields["pos"] == Number(c.pos) && 0 <= c.pos <= 2_147_483_647
  {
    DirectionMeans(c.sort);
  }

  /** "asc" or "desc" in capitals or not, maybe between blanks, or nothing but blanks. */
  predicate IsDirection(s: string) {
    var t := Trim(s);
    s != "" && (t == "" || SameLetters(t, "asc") || SameLetters(t, "desc"))
  }

  predicate SameLetters(s: string, lower: string) {
    |s| == |lower| && forall i :: 0 <= i < |s| ==> s[i] == lower[i] || s[i] as int + 32 == lower[i] as int
  }

  lemma LowerMeans(s: string, lower: string)
    requires forall i :: 0 <= i < |lower| ==> 'a' <= lower[i] <= 'z'
    ensures Lower(s) == lower <==> SameLetters(s, lower)
  {
    if Lower(s) == lower {
      forall i | 0 <= i < |s|
        ensures s[i] == lower[i] || s[i] as int + 32 == lower[i] as int
      {
        assert Lower(s)[i] == lower[i];
      }
    }
    if SameLetters(s, lower) {
      assert |Lower(s)| == |lower| && forall i :: 0 <= i < |s| ==> Lower(s)[i] == lower[i];
    }
  }

  lemma DirectionMeans(s: string)
    ensures ParseSortOrder(s).Some? && s != "" <==> IsDirection(s)
  {
    LowerMeans(Trim(s), "asc");
    LowerMeans(Trim(s), "desc");
    assert Lower(Trim(s)) == "" <==> Trim(s) == "";
  }

  /** A page of a container's members holds positions that hold a playlist, past the cursor it was asked for,
      in turn and no more than the limit; one that is past the cursor and not on the page comes after the
      whole page, which then is full and gives a cursor. */
  lemma MemberPageMeans(t: Tables, req: MemberRequest, token: Option<Token>, reply: Reply<int>, limit: nat, i: int)
    requires AnswersMembers(t, req, token, reply) && reply.Served? && req.container in t.rows
    requires ResolveListLimit(req.limit) == Some(limit)
    ensures |reply.page.rows| <= limit
    ensures token.Some? ==> DecodeMemberCursor(token.value).Some?
    ensures i in reply.page.rows ==>
              Holds(t, req.container, i)
              && (token.Some? ==> PositionsInTurn(req.sort, DecodeMemberCursor(token.value).value.pos, i))
    ensures Holds(t, req.container, i) && i !in reply.page.rows
            && (token.Some? ==> PositionsInTurn(req.sort, DecodeMemberCursor(token.value).value.pos, i)) ==>
              |reply.page.rows| == limit && reply.next.Some?
              && forall r :: r in reply.page.rows ==> PositionsInTurn(req.sort, r, i)
  {
    MemberPage(t, req, token, reply);
    SmallerIsStrict();
    OrderIsStrict(Smaller, SqlOrder(Canonical(req.sort)));
    PageMeans(MemberOrder(req), MemberPositions(t, req.container), CursorIn(token), limit, reply.page);
    PositionsMean(t, req.container, i);
    forall a, b
      ensures MemberOrder(req)(a, b) <==> PositionsInTurn(req.sort, a, b)
    {
      MemberOrderMeans(req, a, b);
    }
    if reply.page.next.Some? {
      forall r | r in reply.page.rows
        ensures r == reply.page.next.value || MemberOrder(req)(r, reply.page.next.value)
      {
        var j :| 0 <= j < |reply.page.rows| && reply.page.rows[j] == r;
      }
    }
  }

  /** Whatever a walk through the members returns was a member in the state its page was cut from. */
  lemma MembersReturnOnlyMembers(w: World, run: seq<Store>, visits: seq<nat>, req: MemberRequest,
                                 replies: seq<Reply<int>>, position: int)
    requires FeedSigns(w) && Run(w, run) && MemberWalk(run, visits, req, replies)
    requires position in Returned(Pages(replies))
    ensures exists i :: 0 <= i < |visits| && position in replies[i].page.rows
              && Holds(run[visits[i]].tables, req.container, position)
  {
    MembersAreWalk(w, run, visits, req, replies);
    SmallerIsStrict();
    OrderIsStrict(Smaller, SqlOrder(Canonical(req.sort)));
    WalkReturnsOnlyRows(MemberOrder(req), ResolveListLimit(req.limit).value, PositionSnapshots(run, visits, req),
                        Pages(replies), position);
    var i :| 0 <= i < |visits| && position in PositionSnapshots(run, visits, req)[i]
             && position in Pages(replies)[i].rows;
    PositionsMean(run[visits[i]].tables, req.container, position);
  }

  /** And positions are returned ascending, or descending for "desc", across all pages. */
  lemma MembersReturnInTurn(w: World, run: seq<Store>, visits: seq<nat>, req: MemberRequest, replies: seq<Reply<int>>,
                            i: nat, j: nat)
    requires FeedSigns(w) && Run(w, run) && MemberWalk(run, visits, req, replies)
    requires i < j < |Returned(Pages(replies))|
    ensures PositionsInTurn(req.sort, Returned(Pages(replies))[i], Returned(Pages(replies))[j])
  {
    MembersAreWalk(w, run, visits, req, replies);
    SmallerIsStrict();
    OrderIsStrict(Smaller, SqlOrder(Canonical(req.sort)));
    WalkInOrder(MemberOrder(req), ResolveListLimit(req.limit).value, PositionSnapshots(run, visits, req),
                Pages(replies));
    MemberOrderMeans(req, Returned(Pages(replies))[i], Returned(Pages(replies))[j]);
  }
}
