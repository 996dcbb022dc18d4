/** The list-shaped work around an ingest or a delete: lock order, first occurrences, source rows and
    the distinct channels of a listing. */
module Batches {
  import opened Documents

  /** A reference of a group or channel after resolution. `sourceUri` is empty for a same-origin one. */
  datatype Ingested = Ingested(id: nat, slug: string, body: Document, sourceUri: string)

  // ---------------------------------------------------------------------------------------
  // Ascending identifiers
  // ---------------------------------------------------------------------------------------

  ghost predicate Ascending(s: seq<nat>) {
    forall i, j :: 0 <= i < j < |s| ==> s[i] <= s[j]
  }

  ghost predicate StrictlyAscending(s: seq<nat>) {
    forall i, j :: 0 <= i < j < |s| ==> s[i] < s[j]
  }

  ghost predicate SameElements(a: seq<nat>, b: seq<nat>) {
    forall x :: x in a <==> x in b
  }

  function Insert(x: nat, s: seq<nat>): seq<nat> {
    if s == [] then [x]
    else if x <= s[0] then [x] + s
    else [s[0]] + Insert(x, s[1..])
  }

  function Sorted(s: seq<nat>): seq<nat> {
    if s == [] then [] else Insert(s[0], Sorted(s[1..]))
  }

  /** Drops each element equal to the one before it. */
  function SkipRepeats(s: seq<nat>): seq<nat> {
    if |s| <= 1 then s
    else if s[|s| - 1] == s[|s| - 2] then SkipRepeats(s[..|s| - 1])
    else SkipRepeats(s[..|s| - 1]) + [s[|s| - 1]]
  }

  /** The order in which a batch takes its locks. */
  function LockOrder(ids: seq<nat>): seq<nat> {
    SkipRepeats(Sorted(ids))
  }

  lemma AscendingCons(x: nat, s: seq<nat>)
    requires Ascending(s) && forall y :: y in s ==> x <= y
    ensures Ascending([x] + s)
  {
    forall i, j | 0 <= i < j < |s| + 1
      ensures ([x] + s)[i] <= ([x] + s)[j]
    {
      assert ([x] + s)[j] == s[j - 1] && s[j - 1] in s;
      if i > 0 {
        assert ([x] + s)[i] == s[i - 1];
      }
    }
  }

  lemma {:induction false} InsertSorts(x: nat, s: seq<nat>)
    requires Ascending(s)
    ensures Ascending(Insert(x, s))
    ensures forall y :: y in Insert(x, s) <==> y == x || y in s
  {
    if s == [] {
    } else if x <= s[0] {
      AscendingCons(x, s);
    } else {
      InsertSorts(x, s[1..]);
      assert s == [s[0]] + s[1..];
      AscendingCons(s[0], Insert(x, s[1..]));
    }
  }

  lemma {:induction false} SortedSorts(s: seq<nat>)
    ensures Ascending(Sorted(s))
    ensures SameElements(Sorted(s), s)
  {
    if s != [] {
      SortedSorts(s[1..]);
      InsertSorts(s[0], Sorted(s[1..]));
      assert s == [s[0]] + s[1..];
    }
  }

  lemma StrictlyAscendingSnoc(s: seq<nat>, x: nat)
    requires StrictlyAscending(s) && (s != [] ==> s[|s| - 1] < x)
    ensures StrictlyAscending(s + [x])
  {
  }

  lemma {:induction false} SkipRepeatsStrict(s: seq<nat>)
    requires Ascending(s)
    ensures StrictlyAscending(SkipRepeats(s))
    ensures SameElements(SkipRepeats(s), s)
    ensures s != [] ==> SkipRepeats(s) != [] && SkipRepeats(s)[|SkipRepeats(s)| - 1] == s[|s| - 1]
  {
    if |s| > 1 {
      var init, last := s[..|s| - 1], s[|s| - 1];
      SkipRepeatsStrict(init);
      assert s == init + [last];
      if last != s[|s| - 2] {
        StrictlyAscendingSnoc(SkipRepeats(init), last);
      }
    }
  }

  /** A batch locks each of its ids exactly once, in strictly ascending order. */
  lemma LockOrderCorrect(ids: seq<nat>)
    ensures StrictlyAscending(LockOrder(ids))
    ensures SameElements(LockOrder(ids), ids)
  {
    SortedSorts(ids);
    SkipRepeatsStrict(Sorted(ids));
  }

  /** A strictly ascending list is determined by its elements. */
  lemma {:induction false} StrictlyAscendingUnique(a: seq<nat>, b: seq<nat>)
    requires StrictlyAscending(a) && StrictlyAscending(b) && SameElements(a, b)
    ensures a == b
  {
    assert a != [] ==> a[0] in a;
    assert b != [] ==> b[0] in b;
    if a != [] && b != [] {
      assert a[0] == b[0];
      assert a == [a[0]] + a[1..] && b == [b[0]] + b[1..];
      forall x
        ensures x in a[1..] <==> x in b[1..]
      {
        assert x in a[1..] ==> x > a[0] && x in a;
        assert x in b[1..] ==> x > b[0] && x in b;
      }
      StrictlyAscendingUnique(a[1..], b[1..]);
    }
  }

  /** Takes the locks of a batch in sorted order, skipping an id equal to the previous one. */
  method LockDocumentIds(ids: seq<nat>) returns (acquired: seq<nat>)
    ensures acquired == LockOrder(ids)
  {
    var sorted := Sorted(ids);
    var prev := 0;
    acquired := [];
    for i := 0 to |sorted|
      invariant i > 0 ==> prev == sorted[i - 1]
      invariant acquired == SkipRepeats(sorted[..i])
    {
      var id := sorted[i];
      assert sorted[..i + 1][..i] == sorted[..i];
      if i > 0 && id == prev {
        continue;
      }
      acquired := acquired + [id];
      prev := id;
    }
    assert sorted[..|sorted|] == sorted;
  }

  /** Drains the channel ids of a listing into a sorted, duplicate-free list. */
  method CollectDistinctChannels(rows: seq<nat>) returns (ids: seq<nat>)
    ensures ids == LockOrder(rows)
    ensures StrictlyAscending(ids) && SameElements(ids, rows)
  {
    var seen: set<nat> := {};
    var distinct: seq<nat> := [];
    for i := 0 to |rows|
      invariant forall x :: x in seen <==> x in rows[..i]
      invariant SameElements(distinct, rows[..i])
      invariant forall j, k :: 0 <= j < k < |distinct| ==> distinct[j] != distinct[k]
    {
      assert rows[..i + 1] == rows[..i] + [rows[i]];
      if rows[i] in seen {
        continue;
      }
      seen := seen + {rows[i]};
      distinct := distinct + [rows[i]];
    }
    assert rows[..|rows|] == rows;
    ids := Sorted(distinct);
    SortedSorts(distinct);
    SortedDistinct(distinct);
    LockOrderCorrect(rows);
    StrictlyAscendingUnique(ids, LockOrder(rows));
  }

  ghost predicate Distinct(s: seq<nat>) {
    forall j, k :: 0 <= j < k < |s| ==> s[j] != s[k]
  }

  lemma {:induction false} InsertDistinct(x: nat, s: seq<nat>)
    requires StrictlyAscending(s) && x !in s
    ensures StrictlyAscending(Insert(x, s))
    ensures forall y :: y in Insert(x, s) <==> y == x || y in s
  {
    if s != [] && x > s[0] {
      assert s == [s[0]] + s[1..];
      InsertDistinct(x, s[1..]);
      var t := Insert(x, s[1..]);
      assert forall y :: y in t ==> s[0] < y;
      assert forall i :: 0 <= i < |t| ==> t[i] in t;
    }
  }

  lemma {:induction false} SortedDistinct(s: seq<nat>)
    requires Distinct(s)
    ensures StrictlyAscending(Sorted(s))
  {
    if s != [] {
      SortedDistinct(s[1..]);
      SortedSorts(s[1..]);
      assert s[0] !in s[1..];
      InsertDistinct(s[0], Sorted(s[1..]));
    }
  }

  // ---------------------------------------------------------------------------------------
  // First occurrences
  // ---------------------------------------------------------------------------------------

  function Ids(refs: seq<Ingested>): seq<nat> {
    seq(|refs|, i requires 0 <= i < |refs| => refs[i].id)
  }

  /** The references whose id has not occurred before them, in order. */
  function FirstOccurrences(refs: seq<Ingested>): seq<Ingested> {
    if refs == [] then []
    else
      var init, last := refs[..|refs| - 1], refs[|refs| - 1];
      FirstOccurrences(init) + (if last.id in Ids(init) then [] else [last])
  }

  /** One walk over the references that keeps those whose id it has not met yet, so that a body is carried
      once however often its playlist is listed. */
  method UniquePlaylistParams(refs: seq<Ingested>) returns (unique: seq<Ingested>)
    ensures unique == FirstOccurrences(refs)
  {
    var seen: set<nat> := {};
    unique := [];
    for i := 0 to |refs|
      invariant seen == set x | x in Ids(refs[..i])
      invariant unique == FirstOccurrences(refs[..i])
    {
      assert refs[..i + 1][..i] == refs[..i];
      assert Ids(refs[..i + 1]) == Ids(refs[..i]) + [refs[i].id];
      if refs[i].id in seen {
        continue;
      }
      seen := seen + {refs[i].id};
      unique := unique + [refs[i]];
    }
    assert refs[..|refs|] == refs;
  }

  ghost predicate IsFirst(refs: seq<Ingested>, i: nat)
    requires i < |refs|
  {
    forall j :: 0 <= j < i ==> refs[j].id != refs[i].id
  }

  /** Every id occurs once among the first occurrences, and there it carries the body of its earliest
      position. */
  lemma {:induction false} FirstOccurrencesCorrect(refs: seq<Ingested>)
    ensures Distinct(Ids(FirstOccurrences(refs)))
    ensures SameElements(Ids(FirstOccurrences(refs)), Ids(refs))
    ensures forall u :: u in FirstOccurrences(refs) ==>
              exists i :: 0 <= i < |refs| && refs[i] == u && IsFirst(refs, i)
  {
    if refs != [] {
      var init, last := refs[..|refs| - 1], refs[|refs| - 1];
      FirstOccurrencesCorrect(init);
      var out := FirstOccurrences(init);
      assert Ids(refs) == Ids(init) + [last.id];
      assert refs == init + [last];
      forall u | u in FirstOccurrences(refs)
        ensures exists i :: 0 <= i < |refs| && refs[i] == u && IsFirst(refs, i)
      {
        if u in out {
          var i :| 0 <= i < |init| && init[i] == u && IsFirst(init, i);
          assert refs[i] == u && IsFirst(refs, i);
        } else {
          forall j | 0 <= j < |init|
            ensures refs[j].id != last.id
          {
            assert Ids(init)[j] in Ids(init);
          }
          assert refs[|refs| - 1] == u && IsFirst(refs, |refs| - 1);
        }
      }
      if last.id in Ids(init) {
        assert FirstOccurrences(refs) == out;
      } else {
        assert Ids(FirstOccurrences(refs)) == Ids(out) + [last.id];
        assert last.id !in Ids(out);
      }
    }
  }

  // ---------------------------------------------------------------------------------------
  // Source rows
  // ---------------------------------------------------------------------------------------

  /** What each remote URI of a batch resolved to: its first occurrence. */
  function SourceRows(refs: seq<Ingested>): map<string, nat> {
    if refs == [] then map[]
    else
      var rest := SourceRows(refs[..|refs| - 1]);
      var last := refs[|refs| - 1];
      if last.sourceUri == "" || last.sourceUri in rest then rest else rest[last.sourceUri := last.id]
  }

  /** Records what each remote URI resolved to, over what was recorded before. */
  method RecordPlaylistSources(sources: map<string, nat>, refs: seq<Ingested>) returns (out: map<string, nat>)
    ensures out == sources + SourceRows(refs)
  {
    var seen: map<string, nat> := map[];
    for i := 0 to |refs|
      invariant seen == SourceRows(refs[..i])
    {
      assert refs[..i + 1][..i] == refs[..i];
      var r := refs[i];
      if r.sourceUri == "" {
        continue;
      }
      if r.sourceUri in seen {
        continue;
      }
      seen := seen[r.sourceUri := r.id];
    }
    assert refs[..|refs|] == refs;
    out := sources + seen;
  }

  /** The same URI names the same playlist wherever it occurs. */
  ghost predicate UrisAgree(refs: seq<Ingested>) {
    forall i, j :: 0 <= i < |refs| && 0 <= j < |refs| && refs[i].sourceUri == refs[j].sourceUri != ""
      ==> refs[i].id == refs[j].id
  }

  /** The i-th reference is the first with its URI. */
  ghost predicate IsFirstUri(refs: seq<Ingested>, i: nat)
    requires i < |refs|
  {
    forall j :: 0 <= j < i ==> refs[j].sourceUri != refs[i].sourceUri
  }

  /** Every remote URI of a batch is recorded, with the playlist of its first reference, and nothing else is. */
  lemma {:induction false} SourceRowsCorrect(refs: seq<Ingested>)
    ensures forall u :: u in SourceRows(refs) ==>
              u != "" && exists i :: 0 <= i < |refs| && refs[i].sourceUri == u && refs[i].id == SourceRows(refs)[u]
                           && IsFirstUri(refs, i)
    ensures forall i :: 0 <= i < |refs| && refs[i].sourceUri != "" ==> refs[i].sourceUri in SourceRows(refs)
  {
    if refs != [] {
      var init, last := refs[..|refs| - 1], |refs| - 1;
      SourceRowsCorrect(init);
      forall u | u in SourceRows(refs)
        ensures u != "" && exists i :: 0 <= i < |refs| && refs[i].sourceUri == u && refs[i].id == SourceRows(refs)[u]
                             && IsFirstUri(refs, i)
      {
        if u in SourceRows(init) {
          var i :| 0 <= i < |init| && init[i].sourceUri == u && init[i].id == SourceRows(init)[u]
                   && IsFirstUri(init, i);
          assert refs[i] == init[i] && IsFirstUri(refs, i);
        } else {
          assert refs[last].sourceUri == u && IsFirstUri(refs, last);
        }
      }
      forall i | 0 <= i < |refs| && refs[i].sourceUri != ""
        ensures refs[i].sourceUri in SourceRows(refs)
      {
        if i < |init| {
          assert init[i] == refs[i];
        }
      }
    }
  }

  /** When one URI means one playlist throughout a batch, the recorded row names the playlist linked
      at every position of that URI. */
  lemma SourceRowsCoverAllPositions(refs: seq<Ingested>, i: nat)
    requires UrisAgree(refs)
    requires i < |refs| && refs[i].sourceUri != ""
    ensures refs[i].sourceUri in SourceRows(refs) && SourceRows(refs)[refs[i].sourceUri] == refs[i].id
  {
    SourceRowsCorrect(refs);
  }
}
