/** The two paged playlist lists: the directory, ordered by creation, and the members of a group or
    channel, ordered by position. */
module Listing {
  import opened Text
  import opened Documents
  import opened StoreModel
  import opened Keyset

  // ---------------------------------------------------------------------------------------
  // Direction
  // ---------------------------------------------------------------------------------------

  type SortOrder = string

  const SORT_ASC: SortOrder := "asc"
  const SORT_DESC: SortOrder := "desc"

  function Lower(s: string): string {
    seq(|s|, i requires 0 <= i < |s| => if 'A' <= s[i] <= 'Z' then (s[i] as int + 32) as char else s[i])
  }

  function ParseSortOrder(s: string): Option<SortOrder> {
    var t := Lower(Trim(s));
    if t == "" || t == SORT_ASC then Some(SORT_ASC)
    else if t == SORT_DESC then Some(SORT_DESC)
    else None
  }

  function SqlOrder(o: SortOrder): string {
    if o == SORT_DESC then "DESC" else "ASC"
  }

  function TupleAfterCursorOp(o: SortOrder): string {
    if o == SORT_DESC then "<" else ">"
  }

  /** ORDER BY with the given keyword. */
  function OrderBy<K>(less: (K, K) -> bool, keyword: string): (K, K) -> bool {
    if keyword == "DESC" then (a, b) => less(b, a) else less
  }

  /** `k op c` in a WHERE clause. */
  predicate Compares<K>(less: (K, K) -> bool, op: string, k: K, c: K) {
    if op == "<" then less(k, c) else less(c, k)
  }

  /** The rows the WHERE clause of a page query lets through. */
  ghost function Where<K(!new)>(less: (K, K) -> bool, op: string, snapshot: set<K>, cursor: Option<K>): set<K> {
    set k | k in snapshot && (cursor.Some? ==> Compares(less, op, k, cursor.value))
  }

  /** What the page query selects: the rows past the cursor by the comparison, in the order of the
      keyword, at most n of them. */
  ghost predicate Selects<K(!new)>(less: (K, K) -> bool, keyword: string, op: string, snapshot: set<K>,
                                   cursor: Option<K>, n: nat, rows: seq<K>) {
    Answers(OrderBy(less, keyword), Where(less, op, snapshot, cursor), None, n, rows)
  }

  /** The order keyword and the comparison of a sort order agree, whatever the sort order is, the empty
      one included: the query continues strictly after the cursor. */
  lemma DirectionsPair<K(!new)>(less: (K, K) -> bool, sort: SortOrder, snapshot: set<K>, cursor: Option<K>, n: nat,
                                rows: seq<K>)
    ensures Selects(less, SqlOrder(sort), TupleAfterCursorOp(sort), snapshot, cursor, n, rows)
            <==> Answers(OrderBy(less, SqlOrder(sort)), snapshot, cursor, n, rows)
  {
    var before := OrderBy(less, SqlOrder(sort));
    var past := Where(less, TupleAfterCursorOp(sort), snapshot, cursor);
    assert forall k :: k in past <==> k in snapshot && Past(before, cursor, k);
    assert forall k :: Past(before, None, k);
  }

  /** A page cut from what the query for a sort order selects. */
  ghost predicate SelectsPage<K(!new)>(less: (K, K) -> bool, sort: SortOrder, snapshot: set<K>, cursor: Option<K>,
                                       limit: nat, page: Page<K>)
    requires limit > 0
  {
    exists rows ::
      && Selects(less, SqlOrder(sort), TupleAfterCursorOp(sort), snapshot, cursor, limit + 1, rows)
      && page == Cut(rows, limit)
  }

  /** The page query is a keyset query in the sort order's direction. */
  lemma PageQueryServes<K(!new)>(less: (K, K) -> bool, sort: SortOrder, snapshot: set<K>, cursor: Option<K>,
                                 limit: nat, page: Page<K>)
    requires limit > 0 && SelectsPage(less, sort, snapshot, cursor, limit, page)
    ensures Serves(OrderBy(less, SqlOrder(sort)), snapshot, cursor, limit, page)
  {
    var rows :|
      && Selects(less, SqlOrder(sort), TupleAfterCursorOp(sort), snapshot, cursor, limit + 1, rows)
      && page == Cut(rows, limit);
    DirectionsPair(less, sort, snapshot, cursor, limit + 1, rows);
  }

  lemma OrderIsStrict<K(!new)>(less: (K, K) -> bool, keyword: string)
    requires StrictOrder(less)
    ensures StrictOrder(OrderBy(less, keyword))
  {
  }

  // ---------------------------------------------------------------------------------------
  // Limits
  // ---------------------------------------------------------------------------------------

  const STORE_DEFAULT_LIST_LIMIT: nat := 100
  const STORE_MAX_LIST_LIMIT: nat := 512

  function ResolveListLimit(n: int): (limit: Option<nat>)
    ensures limit.None? <==> n > 512
    ensures n <= 0 ==> limit == Some(100)
    ensures 1 <= n <= 512 ==> limit == Some(n)
  {
    if n <= 0 then Some(STORE_DEFAULT_LIST_LIMIT)
    else if n > STORE_MAX_LIST_LIMIT then None
    else Some(n)
  }

  // ---------------------------------------------------------------------------------------
  // Cursors
  // ---------------------------------------------------------------------------------------

  /** A member of a token's JSON object. */
  datatype Field = Null | Time(at: int) | Uuid(id: nat) | Str(text: string) | Number(n: int)

  datatype Token = Malformed | Object(fields: map<string, Field>)

  /** Microseconds from the Unix epoch to the zero time, the start of year 1. */
  const ZERO_TIME: int := -62_135_596_800_000_000
  const MAX_INT32: int := 0x7fff_ffff

  datatype Key = Key(at: int, id: nat)

  predicate Earlier(a: Key, b: Key) {
    a.at < b.at || (a.at == b.at && a.id < b.id)
  }

  predicate Smaller(a: int, b: int) {
    a < b
  }

  /** The token carries the key with a value other than null. */
  predicate Carries(fields: map<string, Field>, key: string) {
    key in fields && fields[key] != Null
  }

  function EncodeCursor(k: Key): Token {
    Object(map["t" := Time(k.at), "id" := Uuid(k.id)])
  }

  function DecodeCursor(token: Token): Option<Key> {
    if token.Malformed? || "pos" in token.fields then None
    else
      var f := token.fields;
      if !Carries(f, "t") || !Carries(f, "id") then None
      else if !f["t"].Time? || !f["id"].Uuid? then None
      else if f["t"].at == ZERO_TIME || f["id"].id == 0 then None
      else Some(Key(f["t"].at, f["id"].id))
  }

  datatype MemberCursor = MemberCursor(kind: string, container: nat, sort: string, rev: int, pos: int)

  function Kind(table: Table): string {
    if table == Channels then "channel" else "playlist-group"
  }

  function EncodeMemberCursor(c: MemberCursor): Token {
    Object(map["kind" := Str(c.kind), "cid" := Uuid(c.container), "sort" := Str(c.sort), "rev" := Time(c.rev),
               "pos" := Number(c.pos)])
  }

  function DecodeMemberCursor(token: Token): Option<MemberCursor> {
    if token.Malformed? || "t" in token.fields then None
    else
      var f := token.fields;
      if !(Carries(f, "kind") && Carries(f, "cid") && Carries(f, "sort") && Carries(f, "rev") &&
           Carries(f, "pos")) then None
      else if !(f["kind"].Str? && f["cid"].Uuid? && f["sort"].Str? && f["rev"].Time? && f["pos"].Number?) then None
      else
        var c := MemberCursor(f["kind"].text, f["cid"].id, f["sort"].text, f["rev"].at, f["pos"].n);
        if c.kind != Kind(Channels) && c.kind != Kind(Groups) then None
        else if c.container == 0 then None
        else if ParseSortOrder(c.sort).None? || c.sort == "" then None
        else if c.rev == ZERO_TIME then None
        else if c.pos < 0 || c.pos > MAX_INT32 then None
        else Some(c)
  }

  /** A directory cursor decodes to its row unless the row's time or id is zero, which the decoder
      refuses. */
  lemma CursorRoundTrip(k: Key)
    ensures DecodeCursor(EncodeCursor(k)) == if k.at != ZERO_TIME && k.id != 0 then Some(k) else None
  {
  }

  /** A member cursor decodes to itself exactly when it could have been issued by a list: a known kind, a
      non-nil container, a canonical direction, a set revision and a position in range. */
  lemma MemberCursorRoundTrip(c: MemberCursor)
    requires c.kind == Kind(Channels) || c.kind == Kind(Groups)
    requires c.sort == SORT_ASC || c.sort == SORT_DESC
    ensures DecodeMemberCursor(EncodeMemberCursor(c))
            == if c.container != 0 && c.rev != -62_135_596_800_000_000 && 0 <= c.pos <= 2_147_483_647 then Some(c)
               else None
  {
    SortOrdersParse();
  }

  lemma SortOrdersParse()
    ensures ParseSortOrder(SORT_ASC) == Some(SORT_ASC) && ParseSortOrder(SORT_DESC) == Some(SORT_DESC)
  {
    assert Trim(SORT_ASC) == SORT_ASC && Trim(SORT_DESC) == SORT_DESC;
    assert Lower(SORT_ASC) == SORT_ASC && Lower(SORT_DESC) == SORT_DESC;
  }

  /** No token is good for both lists. */
  lemma CursorsAreDisjoint(token: Token)
    ensures DecodeCursor(token).None? || DecodeMemberCursor(token).None?
  {
  }

  // ---------------------------------------------------------------------------------------
  // The directory
  // ---------------------------------------------------------------------------------------

  datatype Reply<K> = LimitExceeded | Refused | Served(page: Page<K>, next: Option<Token>)

  /** `keep` is the conjunction of the list's filters. */
  datatype DirectoryRequest = DirectoryRequest(table: Table, sort: SortOrder, limit: int, keep: Document -> bool)

  function Listed(t: Tables, req: DirectoryRequest): set<Key> {
    set k | k in t.rows && k.table == req.table && req.keep(t.rows[k].body) :: Key(t.rows[k].createdAt, k.id)
  }

  /** The store's answer to one page of a directory list. */
  ghost predicate AnswersDirectory(t: Tables, req: DirectoryRequest, token: Option<Token>, reply: Reply<Key>) {
    var limit := ResolveListLimit(req.limit);
    if limit.None? then reply == LimitExceeded
    else if token.Some? && DecodeCursor(token.value).None? then reply == Refused
    else
      var cursor := if token.Some? then DecodeCursor(token.value) else None;
      && reply.Served?
      && SelectsPage(Earlier, req.sort, Listed(t, req), cursor, limit.value, reply.page)
      && reply.next == if reply.page.next.Some? then Some(EncodeCursor(reply.page.next.value)) else None
  }

  // ---------------------------------------------------------------------------------------
  // Members
  // ---------------------------------------------------------------------------------------

  datatype MemberRequest = MemberRequest(container: DocKey, sort: SortOrder, limit: int)

  function MemberPositions(t: Tables, c: DocKey): set<int> {
    set s | s in t.members && s.container == c && PlaylistKey(t.members[s]) in t.rows :: s.position
  }

  function Canonical(sort: SortOrder): SortOrder {
    if sort == "" then SORT_ASC else sort
  }

  /** The cursor was issued for this list, in this direction, in this revision of the container. */
  predicate Fits(c: MemberCursor, req: MemberRequest, revision: int) {
    && c.kind == Kind(req.container.table) && c.container == req.container.id && c.sort == Canonical(req.sort)
    && c.rev == revision
  }

  function NextMember(req: MemberRequest, revision: int, page: Page<int>): Option<Token> {
    if page.next.None? then None
    else Some(EncodeMemberCursor(MemberCursor(Kind(req.container.table), req.container.id, Canonical(req.sort),
                                              revision, page.next.value)))
  }

  /** The store's answer to one page of a member list, from one snapshot. */
  ghost predicate AnswersMembers(t: Tables, req: MemberRequest, token: Option<Token>, reply: Reply<int>) {
    var limit := ResolveListLimit(req.limit);
    if limit.None? then reply == LimitExceeded
    else if token.Some? && DecodeMemberCursor(token.value).None? then reply == Refused
    else if req.container !in t.rows then reply == Served(Page([], None), None)
    else
      var revision := t.rows[req.container].generation;
      if token.Some? && !Fits(DecodeMemberCursor(token.value).value, req, revision) then reply == Refused
      else
        var cursor := if token.Some? then Some(DecodeMemberCursor(token.value).value.pos) else None;
        && reply.Served?
        && SelectsPage(Smaller, Canonical(req.sort), MemberPositions(t, req.container), cursor, limit.value, reply.page)
        && reply.next == NextMember(req, revision, reply.page)
  }
}
