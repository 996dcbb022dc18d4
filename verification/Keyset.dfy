/** Keyset paging over any strict total order, with every page cut from its own snapshot of the rows. */
module Keyset {
  import opened Documents

  ghost predicate StrictOrder<K(!new)>(before: (K, K) -> bool) {
    && (forall a :: !before(a, a))
    && (forall a, b, c :: before(a, b) && before(b, c) ==> before(a, c))
    && (forall a, b :: a != b ==> before(a, b) || before(b, a))
  }

  ghost predicate InOrder<K>(before: (K, K) -> bool, s: seq<K>) {
    forall i, j :: 0 <= i < j < |s| ==> before(s[i], s[j])
  }

  predicate Past<K>(before: (K, K) -> bool, cursor: Option<K>, k: K) {
    cursor.None? || before(cursor.value, k)
  }

  /** The first n rows past the cursor, in order: a row of the snapshot past the cursor is missing only if
      there are n rows already, all before it. */
  ghost predicate Answers<K(!new)>(before: (K, K) -> bool, snapshot: set<K>, cursor: Option<K>, n: nat, rows: seq<K>) {
    && |rows| <= n
    && InOrder(before, rows)
    && (forall k :: k in rows ==> k in snapshot && Past(before, cursor, k))
    && (forall k :: k in snapshot && Past(before, cursor, k) && k !in rows ==>
          |rows| == n && forall r :: r in rows ==> before(r, k))
  }

  datatype Page<K> = Page(rows: seq<K>, next: Option<K>)

  /** Cuts an answer of up to limit + 1 rows to a page; an extra row means there is a next page, and the
      cursor to it is the last row kept. */
  function Cut<K>(rows: seq<K>, limit: nat): (page: Page<K>)
    requires limit > 0
    ensures page.rows == if |rows| > limit then rows[..limit] else rows
    ensures page.next.Some? <==> |rows| > limit
  {
    if |rows| > limit then Page(rows[..limit], Some(rows[limit - 1])) else Page(rows, None)
  }

  ghost predicate Serves<K(!new)>(before: (K, K) -> bool, snapshot: set<K>, cursor: Option<K>, limit: nat,
                                  page: Page<K>)
    requires limit > 0
  {
    exists rows :: Answers(before, snapshot, cursor, limit + 1, rows) && page == Cut(rows, limit)
  }

  /** What a page is: in order, past the cursor, of at most limit rows, complete up to its last row; and
      a next cursor is given exactly when the snapshot holds a further row. */
  lemma PageMeans<K(!new)>(before: (K, K) -> bool, snapshot: set<K>, cursor: Option<K>, limit: nat, page: Page<K>)
    requires StrictOrder(before) && limit > 0 && Serves(before, snapshot, cursor, limit, page)
    ensures |page.rows| <= limit && InOrder(before, page.rows)
    ensures forall k :: k in page.rows ==> k in snapshot && Past(before, cursor, k)
    ensures forall k :: k in snapshot && Past(before, cursor, k) && k !in page.rows ==>
              page.next.Some? && before(page.next.value, k)
    ensures page.next.Some? ==> |page.rows| == limit && page.next.value == page.rows[limit - 1]
    ensures page.next.Some? <==> exists k :: k in snapshot && Past(before, cursor, k) && k !in page.rows
  {
    var rows :| Answers(before, snapshot, cursor, limit + 1, rows) && page == Cut(rows, limit);
    if |rows| > limit {
      assert rows == page.rows + [rows[limit]];
      assert rows[limit] in snapshot && rows[limit] !in page.rows;
      assert rows[limit - 1] in rows;
    }
  }

  // ---------------------------------------------------------------------------------------
  // Walks
  // ---------------------------------------------------------------------------------------

  function CursorOf<K>(pages: seq<Page<K>>, i: nat): Option<K>
    requires i <= |pages|
  {
    if i == 0 then None else pages[i - 1].next
  }

  /** Page i is cut from snapshot i past the cursor of the page before it, and gives a cursor if another
      page follows. */
  ghost predicate PageAt<K(!new)>(before: (K, K) -> bool, limit: nat, snapshots: seq<set<K>>, pages: seq<Page<K>>,
                                  i: nat)
    requires limit > 0 && i < |pages| == |snapshots|
  {
    && Serves(before, snapshots[i], CursorOf(pages, i), limit, pages[i])
    && (i + 1 < |pages| ==> pages[i].next.Some?)
  }

  /** Pages fetched one after the other, each from its own snapshot, each with the cursor of the one
      before it. */
  ghost predicate Walk<K(!new)>(before: (K, K) -> bool, limit: nat, snapshots: seq<set<K>>, pages: seq<Page<K>>)
    requires limit > 0
  {
    && |snapshots| == |pages|
    && forall i: nat :: i < |pages| ==> PageAt(before, limit, snapshots, pages, i)
  }

  ghost predicate Finished<K>(pages: seq<Page<K>>) {
    pages != [] && pages[|pages| - 1].next.None?
  }

  /** Everything the walk returned, in the order returned. */
  function Returned<K>(pages: seq<Page<K>>): seq<K> {
    if pages == [] then [] else Returned(pages[..|pages| - 1]) + pages[|pages| - 1].rows
  }

  lemma WalkInit<K(!new)>(before: (K, K) -> bool, limit: nat, snapshots: seq<set<K>>, pages: seq<Page<K>>)
    requires limit > 0 && Walk(before, limit, snapshots, pages) && pages != []
    ensures Walk(before, limit, snapshots[..|pages| - 1], pages[..|pages| - 1])
  {
    var s, p := snapshots[..|pages| - 1], pages[..|pages| - 1];
    forall i: nat | i < |p|
      ensures PageAt(before, limit, s, p, i)
    {
      assert PageAt(before, limit, snapshots, pages, i);
      assert CursorOf(p, i) == CursorOf(pages, i);
    }
  }

  lemma InOrderBoth<K(!new)>(before: (K, K) -> bool, a: seq<K>, b: seq<K>)
    requires InOrder(before, a) && InOrder(before, b)
    requires forall x, y :: x in a && y in b ==> before(x, y)
    ensures InOrder(before, a + b)
  {
    forall i, j | 0 <= i < j < |a + b|
      ensures before((a + b)[i], (a + b)[j])
    {
      if i < |a| <= j {
        assert a[i] in a && b[j - |a|] in b;
      }
    }
  }

  /** No row returned lies past the next cursor. */
  ghost predicate UpTo<K(!new)>(before: (K, K) -> bool, rows: seq<K>, cursor: Option<K>) {
    cursor.Some? ==> forall k :: k in rows ==> k == cursor.value || before(k, cursor.value)
  }

  /** One more page keeps the order. */
  lemma PageExtends<K(!new)>(before: (K, K) -> bool, snapshot: set<K>, cursor: Option<K>, limit: nat, page: Page<K>,
                             rows: seq<K>)
    requires StrictOrder(before) && limit > 0 && Serves(before, snapshot, cursor, limit, page)
    requires InOrder(before, rows) && UpTo(before, rows, cursor) && (cursor.None? ==> rows == [])
    ensures InOrder(before, rows + page.rows) && UpTo(before, rows + page.rows, page.next)
  {
    PageMeans(before, snapshot, cursor, limit, page);
    InOrderBoth(before, rows, page.rows);
    if page.next.Some? {
      assert page.next.value in page.rows;
    }
  }

  /** A walk returns rows in strict order, so none twice, and none past its next cursor. */
  lemma {:induction false} WalkInOrder<K(!new)>(before: (K, K) -> bool, limit: nat, snapshots: seq<set<K>>,
                                                pages: seq<Page<K>>)
    requires StrictOrder(before) && limit > 0 && Walk(before, limit, snapshots, pages)
    ensures InOrder(before, Returned(pages))
    ensures UpTo(before, Returned(pages), CursorOf(pages, |pages|))
    decreases |pages|
  {
    if pages != [] {
      var n := |pages| - 1;
      WalkInit(before, limit, snapshots, pages);
      WalkInOrder(before, limit, snapshots[..n], pages[..n]);
      assert CursorOf(pages[..n], n) == CursorOf(pages, n);
      assert n > 0 ==> PageAt(before, limit, snapshots, pages, n - 1);
      assert CursorOf(pages, n).None? ==> pages[..n] == [];
      assert PageAt(before, limit, snapshots, pages, n);
      PageExtends(before, snapshots[n], CursorOf(pages, n), limit, pages[n], Returned(pages[..n]));
    }
  }

  /** A row present at every page so far has been returned, or lies past the next cursor. */
  lemma {:induction false} WalkMisses<K(!new)>(before: (K, K) -> bool, limit: nat, snapshots: seq<set<K>>,
                                               pages: seq<Page<K>>, k: K)
    requires StrictOrder(before) && limit > 0 && Walk(before, limit, snapshots, pages)
    requires forall i :: 0 <= i < |snapshots| ==> k in snapshots[i]
    ensures k in Returned(pages) || Past(before, CursorOf(pages, |pages|), k)
    ensures pages != [] && k !in Returned(pages) ==> pages[|pages| - 1].next.Some?
    decreases |pages|
  {
    if pages != [] {
      var n := |pages| - 1;
      WalkInit(before, limit, snapshots, pages);
      WalkMisses(before, limit, snapshots[..n], pages[..n], k);
      assert CursorOf(pages[..n], n) == CursorOf(pages, n);
      assert PageAt(before, limit, snapshots, pages, n);
      PageMeans(before, snapshots[n], CursorOf(pages, n), limit, pages[n]);
    }
  }

  /** However the rows change between pages, a walk to the end returns every row that was there at every
      page, exactly once, and in strict order. */
  lemma WalkReturnsSurvivorsOnce<K(!new)>(before: (K, K) -> bool, limit: nat, snapshots: seq<set<K>>,
                                          pages: seq<Page<K>>, k: K)
    requires StrictOrder(before) && limit > 0 && Walk(before, limit, snapshots, pages) && Finished(pages)
    requires forall i :: 0 <= i < |snapshots| ==> k in snapshots[i]
    ensures InOrder(before, Returned(pages))
    ensures multiset(Returned(pages))[k] == 1
  {
    WalkInOrder(before, limit, snapshots, pages);
    WalkMisses(before, limit, snapshots, pages, k);
    OnceInOrder(before, Returned(pages), k);
  }

  lemma {:induction false} OnceInOrder<K(!new)>(before: (K, K) -> bool, s: seq<K>, k: K)
    requires StrictOrder(before) && InOrder(before, s)
    ensures multiset(s)[k] == if k in s then 1 else 0
  {
    if s != [] {
      OnceInOrder(before, s[1..], k);
      assert s == [s[0]] + s[1..];
      assert s[0] !in s[1..];
    }
  }

  /** Nothing is returned that was not there when its page was cut. */
  lemma {:induction false} WalkReturnsOnlyRows<K(!new)>(before: (K, K) -> bool, limit: nat, snapshots: seq<set<K>>,
                                                        pages: seq<Page<K>>, k: K)
    requires StrictOrder(before) && limit > 0 && Walk(before, limit, snapshots, pages) && k in Returned(pages)
    ensures exists i :: 0 <= i < |snapshots| && k in snapshots[i] && k in pages[i].rows
    decreases |pages|
  {
    var n := |pages| - 1;
    if k in pages[n].rows {
      assert PageAt(before, limit, snapshots, pages, n);
      PageMeans(before, snapshots[n], CursorOf(pages, n), limit, pages[n]);
    } else {
      WalkInit(before, limit, snapshots, pages);
      WalkReturnsOnlyRows(before, limit, snapshots[..n], pages[..n], k);
      var i :| 0 <= i < |snapshots[..n]| && k in snapshots[..n][i] && k in pages[..n][i].rows;
      assert k in snapshots[i] && k in pages[i].rows;
    }
  }

  /** Over rows that do not change, a walk to the end is one pass over the sorted rows. */
  lemma StableWalkIsOnePass<K(!new)>(before: (K, K) -> bool, limit: nat, snapshots: seq<set<K>>, pages: seq<Page<K>>,
                                     rows: set<K>)
    requires StrictOrder(before) && limit > 0 && Walk(before, limit, snapshots, pages) && Finished(pages)
    requires forall i :: 0 <= i < |snapshots| ==> snapshots[i] == rows
    ensures InOrder(before, Returned(pages))
    ensures forall k :: k in Returned(pages) <==> k in rows
  {
    WalkInOrder(before, limit, snapshots, pages);
    forall k
      ensures k in Returned(pages) <==> k in rows
    {
      if k in rows {
        WalkMisses(before, limit, snapshots, pages, k);
      } else if k in Returned(pages) {
        WalkReturnsOnlyRows(before, limit, snapshots, pages, k);
      }
    }
  }

  lemma {:induction false} FullPages<K(!new)>(before: (K, K) -> bool, limit: nat, snapshots: seq<set<K>>,
                                              pages: seq<Page<K>>)
    requires StrictOrder(before) && limit > 0 && Walk(before, limit, snapshots, pages)
    ensures pages != [] ==> (|pages| - 1) * limit <= |Returned(pages)|
    ensures pages != [] && pages[|pages| - 1].next.Some? ==> |pages| * limit <= |Returned(pages)|
    decreases |pages|
  {
    if pages != [] {
      var n := |pages| - 1;
      WalkInit(before, limit, snapshots, pages);
      FullPages(before, limit, snapshots[..n], pages[..n]);
      assert PageAt(before, limit, snapshots, pages, n);
      PageMeans(before, snapshots[n], CursorOf(pages, n), limit, pages[n]);
      assert n > 0 ==> PageAt(before, limit, snapshots, pages, n - 1);
      assert n > 0 ==> pages[..n][n - 1] == pages[n - 1];
      assert (n + 1) * limit == n * limit + limit;
    }
  }

  lemma {:induction false} InOrderFits<K(!new)>(before: (K, K) -> bool, s: seq<K>, rows: set<K>)
    requires StrictOrder(before) && InOrder(before, s) && forall k :: k in s ==> k in rows
    ensures |s| <= |rows|
    decreases |s|
  {
    if s != [] {
      assert s == [s[0]] + s[1..];
      assert s[0] !in s[1..];
      InOrderFits(before, s[1..], rows - {s[0]});
    }
  }

  /** As long as no row outside a finite set ever shows up, a walk ends: it has at most one page for each
      limit rows of the set, and one more. */
  lemma WalkEnds<K(!new)>(before: (K, K) -> bool, limit: nat, snapshots: seq<set<K>>, pages: seq<Page<K>>, rows: set<K>)
    requires StrictOrder(before) && limit > 0 && Walk(before, limit, snapshots, pages) && pages != []
    requires forall i :: 0 <= i < |snapshots| ==> snapshots[i] <= rows
    ensures (|pages| - 1) * limit <= |rows|
  {
    WalkInOrder(before, limit, snapshots, pages);
    FullPages(before, limit, snapshots, pages);
    forall k | k in Returned(pages)
      ensures k in rows
    {
      WalkReturnsOnlyRows(before, limit, snapshots, pages, k);
    }
    InOrderFits(before, Returned(pages), rows);
  }
}
