/** The entity tag of a channel: its bytes, which cannot show a change of its members, joined with a
    digest that does. */
module ChannelTag {
  import opened Text
  import opened Documents
  import opened Batches
  import opened StoreModel
  import opened StoreInvariant
  import opened StoreRuns
  import opened StoreGuarantees

  // ---------------------------------------------------------------------------------------
  // The member digest
  // ---------------------------------------------------------------------------------------

  /** One row of the digest query. */
  datatype Member = Member(position: nat, id: nat, generation: nat)

  /** The rows of the digest query for channel c in position order: its membership rows, each joined with
      the playlist's generation. */
  ghost predicate Reads(t: Tables, c: DocKey, members: seq<Member>) {
    && (forall i, j :: 0 <= i < j < |members| ==> members[i].position < members[j].position)
    && (forall i :: 0 <= i < |members| ==>
          var m := members[i];
          && Slot(c, m.position) in t.members && t.members[Slot(c, m.position)] == m.id
          && PlaylistKey(m.id) in t.rows && t.rows[PlaylistKey(m.id)].generation == m.generation)
    && (forall n: nat :: Slot(c, n) in t.members && PlaylistKey(t.members[Slot(c, n)]) in t.rows ==>
          exists i :: 0 <= i < |members| && members[i].position == n)
  }

  /** What one member contributes to the digest. */
  function Part(m: Member): string {
    UuidText(m.id) + "@" + Decimal(m.generation)
  }

  function Parts(members: seq<Member>): seq<string> {
    seq(|members|, i requires 0 <= i < |members| => Part(members[i]))
  }

  /** The digest column: empty when there is no member at all. `sha` is SHA-256 in hexadecimal. */
  function Revision(sha: string -> string, members: seq<Member>): string {
    if members == [] then "" else sha(Join(Parts(members), ','))
  }

  /** The hash does not collide, and its text is never empty. */
  ghost predicate Collisionless(sha: string -> string) {
    && (forall a, b :: sha(a) == sha(b) ==> a == b)
    && (forall a :: sha(a) != "" && forall c :: c in sha(a) ==> IsDigit(c))
  }

  lemma PartIsPlain(m: Member)
    ensures ',' !in Part(m) && Part(m) != ""
  {
    if ',' in UuidText(m.id) {
      UuidTextPlain(m.id, ',');
    }
  }

  lemma PartsArePlain(members: seq<Member>)
    ensures Plain(Parts(members), ',')
  {
    forall i | 0 <= i < |members|
      ensures ',' !in Parts(members)[i] && Parts(members)[i] != ""
    {
      PartIsPlain(members[i]);
    }
  }

  lemma PartDetermines(a: Member, b: Member)
    requires Part(a) == Part(b)
    ensures a.id == b.id && a.generation == b.generation
  {
    if '@' in UuidText(a.id) { UuidTextPlain(a.id, '@'); }
    if '@' in UuidText(b.id) { UuidTextPlain(b.id, '@'); }
    SplitUnique(UuidText(a.id), UuidText(b.id), Decimal(a.generation), Decimal(b.generation), '@');
    UuidTextInjective(a.id, b.id);
    NumeralRoundTrip(a.generation, 10);
    NumeralRoundTrip(b.generation, 10);
  }

  /** Equal digests mean equal members: same playlists, same generations, same order. */
  lemma RevisionDetermines(sha: string -> string, p: seq<Member>, q: seq<Member>)
    requires Collisionless(sha) && Revision(sha, p) == Revision(sha, q)
    ensures |p| == |q|
    ensures forall i :: 0 <= i < |p| ==> p[i].id == q[i].id && p[i].generation == q[i].generation
  {
    if p != [] && q != [] {
      PartsArePlain(p);
      PartsArePlain(q);
      JoinInjective(Parts(p), Parts(q), ',');
      assert |Parts(p)| == |Parts(q)|;
      forall i | 0 <= i < |p|
        ensures p[i].id == q[i].id && p[i].generation == q[i].generation
      {
        assert Parts(p)[i] == Parts(q)[i];
        PartDetermines(p[i], q[i]);
      }
    }
  }

  /** The digest is over one "id@generation" for each member, with commas between, and is empty exactly for
      no members. */
  lemma RevisionMeans(sha: string -> string, members: seq<Member>, m: Member, text: string)
    requires Collisionless(sha)
    ensures Revision(sha, members) == "" <==> members == []
    ensures Revision(sha, [m]) == sha(UuidText(m.id) + "@" + Decimal(m.generation))
    ensures members != [] && Revision(sha, members) == sha(text) ==>
              Revision(sha, members + [m]) == sha(text + "," + UuidText(m.id) + "@" + Decimal(m.generation))
  {
    assert Parts([m]) == [Part(m)];
    if members != [] {
      assert Parts(members + [m]) == Parts(members) + [Part(m)];
      JoinOneMore(Parts(members), Part(m), ',');
      assert Join(Parts(members), ',') + "," + (UuidText(m.id) + "@" + Decimal(m.generation))
          == Join(Parts(members), ',') + "," + UuidText(m.id) + "@" + Decimal(m.generation);
    }
  }

  // ---------------------------------------------------------------------------------------
  // The tag
  // ---------------------------------------------------------------------------------------

  /** The strong tag over bytes and revision, a NUL between them. */
  function Tag(sha: string -> string, bytes: string, revision: string): string {
    "\"" + sha(bytes + ['\0'] + revision) + "\""
  }

  /** The tag determines the bytes and the revision: no two pairs share one. */
  lemma TagDetermines(sha: string -> string, b: string, r: string, b': string, r': string)
    requires Collisionless(sha) && '\0' !in b && '\0' !in b'
    ensures Tag(sha, b, r) == Tag(sha, b', r') <==> b == b' && r == r'
  {
    var t, t' := Tag(sha, b, r), Tag(sha, b', r');
    if t == t' {
      assert t[1..|t| - 1] == sha(b + ['\0'] + r) && t'[1..|t'| - 1] == sha(b' + ['\0'] + r');
      SplitUnique(b, b', r, r', '\0');
    }
  }

  // ---------------------------------------------------------------------------------------
  // Conditional requests
  // ---------------------------------------------------------------------------------------

  /** The pieces of a text between separators. */
  function Split(s: string, sep: char): (parts: seq<string>)
    ensures parts != []
  {
    if s == "" then [""]
    else
      var rest := Split(s[1..], sep);
      if s[0] == sep then [""] + rest else [[s[0]] + rest[0]] + rest[1..]
  }

  function StripWeak(s: string): string {
    if |s| >= 2 && s[..2] == "W/" then s[2..] else s
  }

  /** One list element of the header as it is compared. */
  function Candidate(part: string): string {
    Trim(StripWeak(Trim(part)))
  }

  /** The header value asks for the tag: `*` never does, an empty element never does. */
  predicate Names(header: string, tag: string) {
    && header != "" && Trim(header) != "*"
    && exists part :: part in Split(header, ',') && Trim(part) != "" && Candidate(part) == tag
  }

  method IfNoneMatchNotModified(header: string, tag: string) returns (notModified: bool)
    ensures notModified <==> Names(header, tag)
  {
    if header == "" {
      return false;
    }
    if Trim(header) == "*" {
      return false;
    }
    var parts := Split(header, ',');
    for i := 0 to |parts|
      invariant forall part :: part in parts[..i] ==> Trim(part) == "" || Candidate(part) != tag
    {
      var part := Trim(parts[i]);
      assert parts[..i + 1] == parts[..i] + [parts[i]];
      if part == "" {
        continue;
      }
      part := StripWeak(part);
      part := Trim(part);
      if part == tag {
        assert parts[i] in parts;
        return true;
      }
    }
    assert parts[..|parts|] == parts;
    return false;
  }

  lemma {:induction false} SplitPlain(s: string, sep: char)
    requires sep !in s
    ensures Split(s, sep) == [s]
  {
    if s != "" {
      SplitPlain(s[1..], sep);
      assert [s[0]] + s[1..] == s;
    }
  }

  /** Joining the pieces gives the text back, and no piece contains the separator. */
  lemma {:induction false} SplitJoins(s: string, sep: char)
    ensures Join(Split(s, sep), sep) == s
    ensures forall part :: part in Split(s, sep) ==> sep !in part
  {
    if s != "" {
      var rest := Split(s[1..], sep);
      SplitJoins(s[1..], sep);
      assert rest == [rest[0]] + rest[1..];
      if s[0] == sep {
        assert ([""] + rest)[1..] == rest;
        assert "" + [sep] + Join(rest, sep) == s;
      } else {
        JoinGrows(s[0], rest, sep);
        assert [s[0]] + s[1..] == s;
        assert sep !in rest[0];
      }
    }
  }

  lemma JoinGrows(c: char, parts: seq<string>, sep: char)
    requires parts != []
    ensures Join([[c] + parts[0]] + parts[1..], sep) == [c] + Join(parts, sep)
  {
    assert ([[c] + parts[0]] + parts[1..])[1..] == parts[1..];
    if |parts| > 1 {
      assert [c] + parts[0] + [sep] + Join(parts[1..], sep) == [c] + (parts[0] + [sep] + Join(parts[1..], sep));
    }
  }

  /** Parts without the separator are the pieces of their join. */
  lemma {:induction false} JoinSplits(parts: seq<string>, sep: char)
    requires parts != [] && forall part :: part in parts ==> sep !in part
    ensures Split(Join(parts, sep), sep) == parts
  {
    if |parts| == 1 {
      SplitPlain(parts[0], sep);
    } else {
      SplitFirst(parts[0], Join(parts[1..], sep), sep);
      JoinSplits(parts[1..], sep);
      assert [parts[0]] + parts[1..] == parts;
    }
  }

  lemma {:induction false} SplitFirst(a: string, rest: string, sep: char)
    requires sep !in a
    ensures Split(a + [sep] + rest, sep) == [a] + Split(rest, sep)
  {
    var s := a + [sep] + rest;
    if a == "" {
      assert s[1..] == rest;
    } else {
      assert s[1..] == a[1..] + [sep] + rest;
      SplitFirst(a[1..], rest, sep);
      assert [s[0]] + a[1..] == a;
    }
  }

  /** A list element asks for the tag: leaving out the blanks around it, it is the tag, or the tag after
      the mark of a weak one. An empty element asks for nothing. */
  predicate Asks(element: string, tag: string) {
    var e := Trim(element);
    e != "" && if "W/" <= e then Trim(e[2..]) == tag else e == tag
  }

  /** A header of several elements asks for the tag exactly when one of them does. */
  lemma NamesMeans(elements: seq<string>, tag: string)
    requires elements != [] && forall e :: e in elements ==> ',' !in e
    ensures Names(Join(elements, ','), tag) <==>
              Trim(Join(elements, ',')) != "*" && exists e :: e in elements && Asks(e, tag)
  {
    JoinSplits(elements, ',');
    forall e | e in elements
      ensures Asks(e, tag) <==> Trim(e) != "" && Candidate(e) == tag
    {
      TrimIdempotent(e);
    }
    if Join(elements, ',') == "" {
      assert elements == [""];
      assert !Asks("", tag);
    }
  }

  /** A header of one unpadded element asks for exactly that element. */
  lemma NamesOne(header: string, tag: string)
    requires ',' !in header && header != "" && header != "*"
    requires !IsSpace(header[0]) && !IsSpace(header[|header| - 1])
    ensures Names(header, tag) <==> Trim(StripWeak(header)) == tag
  {
    SplitPlain(header, ',');
    TrimUnpadded(header);
    assert header in [header];
  }

  lemma TagIsPlain(sha: string -> string, b: string, r: string)
    requires Collisionless(sha)
    ensures var t := Tag(sha, b, r);
            |t| >= 2 && t[0] == '"' && t[|t| - 1] == '"' && ',' !in t
  {
    assert ',' !in sha(b + ['\0'] + r);
  }

  /** Sent back as the whole header, strong or weak, a tag matches the current tag exactly when they are
      the same tag. */
  lemma TagSentBack(sha: string -> string, b: string, r: string, current: string)
    requires Collisionless(sha)
    ensures Names(Tag(sha, b, r), current) <==> Tag(sha, b, r) == current
    ensures Names("W/" + Tag(sha, b, r), current) <==> Tag(sha, b, r) == current
  {
    var t := Tag(sha, b, r);
    TagIsPlain(sha, b, r);
    TrimUnpadded(t);
    NamesOne(t, current);
    assert ("W/" + t)[2..] == t && ("W/" + t)[..2] == "W/";
    NamesOne("W/" + t, current);
  }

  // ---------------------------------------------------------------------------------------
  // The tag tracks the members
  // ---------------------------------------------------------------------------------------

  /** The playlist was neither replaced nor deleted from state m to state n. */
  ghost predicate Unchanged(run: seq<Store>, m: nat, n: nat, k: DocKey)
    requires m <= n < |run| && k in run[m].tables.rows
  {
    forall l :: m <= l <= n ==> k in run[l].tables.rows && run[l].tables.rows[k] == run[m].tables.rows[k]
  }

  /** A playlist that shows the same generation at both ends did not change in between. */
  lemma SameGenerationUnchanged(w: World, run: seq<Store>, m: nat, n: nat, k: DocKey)
    requires Reached(w, run, n) && m <= n && k in run[m].tables.rows && k in run[n].tables.rows
    requires run[m].tables.rows[k].generation == run[n].tables.rows[k].generation
    ensures Unchanged(run, m, n, k)
  {
    forall l | m <= l <= n
      ensures k in run[l].tables.rows && run[l].tables.rows[k] == run[m].tables.rows[k]
    {
      GenerationBetween(w, run, m, l, n, k);
      OwnershipOnlyGrows(w, run, m, l, k);
    }
  }

  /** Every member of channel c in state m is unchanged up to state n. */
  ghost predicate MembersUnchanged(run: seq<Store>, m: nat, n: nat, c: DocKey)
    requires m <= n < |run|
  {
    forall i: nat :: Slot(c, i) in run[m].tables.members ==>
      var k := PlaylistKey(run[m].tables.members[Slot(c, i)]);
      k in run[m].tables.rows && Unchanged(run, m, n, k)
  }

  function Positions(members: seq<Member>): seq<nat> {
    seq(|members|, i requires 0 <= i < |members| => members[i].position)
  }

  lemma {:induction false} SetOfAscending(s: seq<nat>) returns (elements: set<nat>)
    requires StrictlyAscending(s)
    ensures elements == (set x | x in s) && |elements| == |s|
  {
    if s == [] {
      elements := {};
    } else {
      var rest := SetOfAscending(s[1..]);
      assert s == [s[0]] + s[1..];
      assert s[0] !in s[1..];
      elements := rest + {s[0]};
    }
  }

  lemma SubsetOfSameSize(a: set<nat>, b: set<nat>)
    requires a <= b && |a| == |b|
    ensures a == b
  {
    forall x | x in b
      ensures x in a
    {
      if x !in a {
        SizeOfSubset(a, b - {x});
      }
    }
  }

  lemma {:induction false} SizeOfSubset(a: set<nat>, b: set<nat>)
    requires a <= b
    ensures |a| <= |b|
    decreases |a|
  {
    if x :| x in a {
      SizeOfSubset(a - {x}, b - {x});
    }
  }

  /** An ascending list inside another of the same length is that list. */
  lemma AscendingInside(a: seq<nat>, b: seq<nat>)
    requires StrictlyAscending(a) && StrictlyAscending(b) && |a| == |b|
    requires forall x :: x in a ==> x in b
    ensures a == b
  {
    var inner := SetOfAscending(a);
    var outer := SetOfAscending(b);
    SubsetOfSameSize(inner, outer);
    assert forall x :: (x in a <==> x in inner) && (x in b <==> x in outer);
    StrictlyAscendingUnique(a, b);
  }

  /** In a reachable state the digest query lists exactly the channel's membership rows. */
  lemma ReadsAll(w: World, run: seq<Store>, n: nat, c: DocKey, members: seq<Member>, i: nat)
    requires Reached(w, run, n) && Reads(run[n].tables, c, members)
    ensures Slot(c, i) in run[n].tables.members <==> i in Positions(members)
  {
    MembershipIsExact(w, run, n, c, i);
    if Slot(c, i) in run[n].tables.members {
      var j :| 0 <= j < |members| && members[j].position == i;
      assert Positions(members)[j] == i;
    }
  }

  lemma PositionsThinOut(w: World, run: seq<Store>, m: nat, n: nat, c: DocKey, p: seq<Member>, q: seq<Member>, x: nat)
    requires Reached(w, run, n) && m <= n && c.table != Playlists
    requires c in run[m].tables.rows && c in run[n].tables.rows
    requires run[m].tables.rows[c].generation == run[n].tables.rows[c].generation
    requires Reads(run[m].tables, c, p) && Reads(run[n].tables, c, q)
    requires x in Positions(q)
    ensures x in Positions(p)
  {
    ReadsAll(w, run, n, c, q, x);
    MembershipOnlyThins(w, run, m, n, c, x);
    ReadsAll(w, run, m, c, p, x);
  }

  /** A member that reads the same in both states did not change in between. */
  lemma SameMemberUnchanged(w: World, run: seq<Store>, m: nat, n: nat, c: DocKey, p: seq<Member>, q: seq<Member>,
                            j: nat)
    requires Reached(w, run, n) && m <= n && j < |p| && j < |q| && p[j] == q[j]
    requires Reads(run[m].tables, c, p) && Reads(run[n].tables, c, q)
    ensures PlaylistKey(p[j].id) in run[m].tables.rows && Unchanged(run, m, n, PlaylistKey(p[j].id))
  {
    SameGenerationUnchanged(w, run, m, n, PlaylistKey(p[j].id));
  }

  lemma SameReadingUnchanged(w: World, run: seq<Store>, m: nat, n: nat, c: DocKey, p: seq<Member>)
    requires Reached(w, run, n) && m <= n
    requires Reads(run[m].tables, c, p) && Reads(run[n].tables, c, p)
    ensures MembersUnchanged(run, m, n, c)
  {
    forall i: nat | Slot(c, i) in run[m].tables.members
      ensures var k := PlaylistKey(run[m].tables.members[Slot(c, i)]);
              k in run[m].tables.rows && Unchanged(run, m, n, k)
    {
      ReadsAll(w, run, m, c, p, i);
      var j :| 0 <= j < |p| && Positions(p)[j] == i;
      SameMemberUnchanged(w, run, m, n, c, p, p, j);
    }
  }

  lemma SameParts(p: seq<Member>, q: seq<Member>)
    requires |p| == |q| && Positions(p) == Positions(q)
    requires forall i :: 0 <= i < |p| ==> p[i].id == q[i].id && p[i].generation == q[i].generation
    ensures p == q
  {
    forall i | 0 <= i < |p|
      ensures p[i] == q[i]
    {
      assert Positions(p)[i] == Positions(q)[i];
    }
  }

  /** Two readings without a write of the channel in between: equal digests mean no member changed. */
  lemma EqualRevisionsUnchanged(w: World, sha: string -> string, run: seq<Store>, m: nat, n: nat, c: DocKey,
                                p: seq<Member>, q: seq<Member>)
    requires Reached(w, run, n) && m <= n && Collisionless(sha) && c.table != Playlists
    requires c in run[m].tables.rows && c in run[n].tables.rows
    requires run[m].tables.rows[c].generation == run[n].tables.rows[c].generation
    requires Reads(run[m].tables, c, p) && Reads(run[n].tables, c, q)
    requires Revision(sha, p) == Revision(sha, q)
    ensures MembersUnchanged(run, m, n, c)
  {
    RevisionDetermines(sha, p, q);
    forall x | x in Positions(q)
      ensures x in Positions(p)
    {
      PositionsThinOut(w, run, m, n, c, p, q, x);
    }
    AscendingInside(Positions(q), Positions(p));
    SameParts(p, q);
    SameReadingUnchanged(w, run, m, n, c, p);
  }

  /** Two readings without a write of the channel in between: if no member changed the readings are the
      same. */
  lemma UnchangedReadsSame(w: World, run: seq<Store>, m: nat, n: nat, c: DocKey, p: seq<Member>, q: seq<Member>)
    requires Reached(w, run, n) && m <= n && c.table != Playlists
    requires c in run[m].tables.rows && c in run[n].tables.rows
    requires run[m].tables.rows[c].generation == run[n].tables.rows[c].generation
    requires Reads(run[m].tables, c, p) && Reads(run[n].tables, c, q)
    requires MembersUnchanged(run, m, n, c)
    ensures p == q
  {
    forall x
      ensures x in Positions(p) <==> x in Positions(q)
    {
      ReadsAll(w, run, m, c, p, x);
      ReadsAll(w, run, n, c, q, x);
      MembershipOnlyThins(w, run, m, n, c, x);
    }
    StrictlyAscendingUnique(Positions(p), Positions(q));
    assert |p| == |Positions(p)| == |q|;
    forall j | 0 <= j < |p|
      ensures p[j] == q[j]
    {
      assert Positions(p)[j] == Positions(q)[j];
      MembershipOnlyThins(w, run, m, n, c, p[j].position);
    }
  }

  /** Between two readings of a channel with no write of the channel in between, the tags are equal
      exactly when no member was replaced or deleted. `raw` is the stored text of a document. */
  lemma TagTracksMembers(w: World, sha: string -> string, raw: Document -> string, run: seq<Store>, m: nat, n: nat,
                         c: DocKey, p: seq<Member>, q: seq<Member>)
    requires Reached(w, run, n) && m <= n && Collisionless(sha) && c.table == Channels
    requires c in run[m].tables.rows && c in run[n].tables.rows
    requires run[m].tables.rows[c].generation == run[n].tables.rows[c].generation
    requires Reads(run[m].tables, c, p) && Reads(run[n].tables, c, q)
    requires forall doc :: '\0' !in raw(doc)
    ensures Tag(sha, raw(run[m].tables.rows[c].body), Revision(sha, p)) == Tag(sha, raw(run[n].tables.rows[c].body),
                                                                               Revision(sha, q))
            <==> MembersUnchanged(run, m, n, c)
  {
    OwnershipOnlyGrows(w, run, m, n, c);
    TagDetermines(sha, raw(run[m].tables.rows[c].body), Revision(sha, p), raw(run[n].tables.rows[c].body),
                  Revision(sha, q));
    if Revision(sha, p) == Revision(sha, q) {
      EqualRevisionsUnchanged(w, sha, run, m, n, c, p, q);
    }
    if MembersUnchanged(run, m, n, c) {
      UnchangedReadsSame(w, run, m, n, c, p, q);
    }
  }
}
