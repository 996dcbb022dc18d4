/** When the owner who signed a replaced body and the owner who signed its intent must be the same one. The
    service checks the two signatures independently, so the answer is: exactly when there is one owner. */
module SplitSigners {
  import opened Text
  import opened Documents
  import opened CoSigning
  import opened Ownership
  import opened Authorization
  import opened OwnershipLaws

  ghost predicate Signable(w: World, k: string, c: Content) {
    exists sig: string :: w.verify(k, c, sig)
  }

  /** Whoever holds key k can sign anything with it. */
  ghost predicate CanSign(w: World, k: string) {
    forall c: Content :: Signable(w, k, c)
  }

  /** Nothing but signatures stands in the way of storing the payload again: the schema takes it whoever
      signed it, and its digest has no blanks around it. */
  ghost predicate Resubmittable(w: World, table: Table, p: Payload) {
    && (forall sigs: seq<Signature> :: w.valid(table, Document(p, sigs)))
    && Trim(w.digest(p)) == w.digest(p)
  }

  lemma UuidTextUnpadded(id: nat)
    ensures Trim(UuidText(id)) == UuidText(id)
  {
    var h, text := Hex32(id), UuidText(id);
    assert h[0] in h && h[|h| - 1] in h;
    assert text[0] == h[0] && text[|text| - 1] == h[|h| - 1];
    TrimUnpadded(text);
  }

  /** The stored playlist again, signed by one owner, with an intent signed by another. */
  function SplitRequest(w: World, id: nat, p: Payload, a: string, sigA: string, b: string, sigB: string)
    : ReplaceRequest
  {
    ReplaceRequest(
      Document(p, [Signature(a, Curator, "", sigA)]),
      Some(Intent(SplitIntent(w, id, p), [Signature(b, Curator, "", sigB)])),
      if p.created.Instant? then p.created.at else 0,
      "")
  }

  function SplitIntent(w: World, id: nat, p: Payload): IntentBody {
    IntentBody(Replace, Some(Playlists), UuidText(id), p.slug, Some(w.digest(p)),
               Instant(if p.created.Instant? then p.created.at else 0, ""))
  }

  /** Of two declared owners each can sign one half of a replace, and the service takes it. */
  lemma SplitIsAccepted(w: World, id: nat, stored: Document, a: string, sigA: string, b: string, sigB: string)
    requires Identified(Playlists, stored.payload) && stored.payload.id == Some(id)
    requires Resubmittable(w, Playlists, stored.payload)
    requires EntityKeys(stored.payload.curators) != {}
    requires a in EntityKeys(stored.payload.curators) && b in EntityKeys(stored.payload.curators)
    requires Trim(a) == a && Trim(b) == b
    requires w.verify(a, DocumentContent(stored.payload), sigA)
    requires w.verify(b, IntentContent(SplitIntent(w, id, stored.payload)), sigB)
    ensures ReplaceAccepted(w, Playlists, id, stored.payload.slug, stored,
                            SplitRequest(w, id, stored.payload, a, sigA, b, sigB))
  {
    var req := SplitRequest(w, id, stored.payload, a, sigA, b, sigB);
    UuidTextUnpadded(id);
    assert req.doc.signatures[0] in req.doc.signatures;
    assert req.intent.value.signatures[0] in req.intent.value.signatures;
    assert BindsDocument(w, req.intent.value.body, Some(stored.payload));
  }

  /** And then nobody signed both halves. */
  lemma SplitHasNoCommonSigner(w: World, id: nat, stored: Document, a: string, sigA: string, b: string, sigB: string)
    requires Trim(a) == a && Trim(b) == b && a != b
    ensures var req := SplitRequest(w, id, stored.payload, a, sigA, b, sigB);
            !CommonSigner(w, Playlists, stored, CoSign(w, req.doc, req.ts), req.intent.value)
  {
    var req := SplitRequest(w, id, stored.payload, a, sigA, b, sigB);
    CoSignKeepsOthers(w, req.doc, req.ts);
    forall k
      ensures !(Attests(w, Playlists, CoSign(w, req.doc, req.ts), k) && Authorizes(w, Playlists, req.intent.value, k))
    {
    }
  }

  lemma EntityKeysTrimmed(entities: seq<Entity>, k: string)
    requires k in EntityKeys(entities)
    ensures Trim(k) == k
  {
    var e :| e in entities && Trim(e.key) == k;
    TrimIdempotent(e.key);
  }

  lemma TwoOf(s: set<string>) returns (a: string, b: string)
    requires |s| > 1
    ensures a in s && b in s && a != b
  {
    a :| a in s;
    assert |s - {a}| == |s| - 1;
    b :| b in s - {a};
  }

  lemma SplitExists(w: World, id: nat, stored: Document) returns (req: ReplaceRequest)
    requires WellOwned(w, Playlists, stored) && |OwnersOf(Playlists, stored)| > 1
    requires Identified(Playlists, stored.payload) && stored.payload.id == Some(id)
    requires Resubmittable(w, Playlists, stored.payload)
    requires forall k :: k in OwnersOf(Playlists, stored) ==> CanSign(w, k)
    ensures ReplaceAccepted(w, Playlists, id, stored.payload.slug, stored, req)
    ensures !CommonSigner(w, Playlists, stored, CoSign(w, req.doc, req.ts), req.intent.value)
  {
    var a, b := TwoOf(OwnersOf(Playlists, stored));
    EntityKeysTrimmed(stored.payload.curators, a);
    EntityKeysTrimmed(stored.payload.curators, b);
    assert Signable(w, a, DocumentContent(stored.payload));
    assert Signable(w, b, IntentContent(SplitIntent(w, id, stored.payload)));
    var sigA :| w.verify(a, DocumentContent(stored.payload), sigA);
    var sigB :| w.verify(b, IntentContent(SplitIntent(w, id, stored.payload)), sigB);
    req := SplitRequest(w, id, stored.payload, a, sigA, b, sigB);
    SplitIsAccepted(w, id, stored, a, sigA, b, sigB);
    SplitHasNoCommonSigner(w, id, stored, a, sigA, b, sigB);
  }

  /** Every accepted replace of a well-owned document is signed, body and intent, by one and the same owner
      if and only if the document has one owner: as every group, every channel and every playlist without
      a declaration has. */
  lemma CommonSignerExactlyForOneOwner(w: World, table: Table, id: nat, stored: Document)
    requires FeedSigns(w) && WellOwned(w, table, stored)
    requires Identified(table, stored.payload) && stored.payload.id == Some(id)
    requires Resubmittable(w, table, stored.payload)
    requires forall k :: k in OwnersOf(table, stored) ==> CanSign(w, k)
    ensures (forall req :: ReplaceAccepted(w, table, id, stored.payload.slug, stored, req) ==>
               CommonSigner(w, table, stored, CoSign(w, req.doc, req.ts), req.intent.value))
            <==> |OwnersOf(table, stored)| == 1
  {
    if |OwnersOf(table, stored)| == 1 {
      forall req | ReplaceAccepted(w, table, id, stored.payload.slug, stored, req)
        ensures CommonSigner(w, table, stored, CoSign(w, req.doc, req.ts), req.intent.value)
      {
        ReplaceKeepsOwnership(w, table, id, stored.payload.slug, stored, req);
      }
    } else {
      var req := SplitExists(w, id, stored);
    }
  }

  // ---------------------------------------------------------------------------------------
  // An input
  // ---------------------------------------------------------------------------------------

  /** A world in which every signature verifies. */
  function LenientWorld(): World {
    World((k, c, sig) => true, c => "", at => "", p => "", (table, doc) => true, "feed", 0)
  }

  /** A playlist that declares owners a and b, signed by a. */
  function TwoOwners(): Document {
    Document(
      Payload(Some(1), "s", Instant(0, ""), [Entity("", "a"), Entity("", "b")], None, "", [], [], ""),
      [Signature("a", Curator, "", "")])
  }

  /** Two declared owners, the body signed by one, the intent by the other: accepted, with no common
      signer. */
  lemma SplitSignersExample()
    ensures var w, stored := LenientWorld(), TwoOwners();
            var req := SplitRequest(w, 1, stored.payload, "a", "", "b", "");
            && FeedSigns(w) && WellOwned(w, Playlists, stored)
            && ReplaceAccepted(w, Playlists, 1, "s", stored, req)
            && !CommonSigner(w, Playlists, stored, CoSign(w, req.doc, req.ts), req.intent.value)
  {
    var w, stored := LenientWorld(), TwoOwners();
    TrimUnpadded("a");
    TrimUnpadded("b");
    TrimUnpadded("s");
    assert stored.payload.curators[0] in stored.payload.curators;
    assert stored.payload.curators[1] in stored.payload.curators;
    assert Trim(stored.payload.curators[0].key) == "a" && Trim(stored.payload.curators[1].key) == "b";
    assert stored.signatures[0] in stored.signatures;
    assert "a" in EntityKeys(stored.payload.curators) && "b" in EntityKeys(stored.payload.curators);
    SplitIsAccepted(w, 1, stored, "a", "", "b", "");
    SplitHasNoCommonSigner(w, 1, stored, "a", "", "b", "");
  }
}
