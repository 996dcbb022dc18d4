/** What the ownership rules guarantee for a document across its co-signature and its replaces. */
module OwnershipLaws {
  import opened Text
  import opened Documents
  import opened CoSigning
  import opened Ownership
  import opened Authorization

  // ---------------------------------------------------------------------------------------
  // Well-owned documents
  // ---------------------------------------------------------------------------------------

  /** Somebody owns the document, an owner signed it as owner, every signature verifies, and only a
      declaration gives it more than one owner. */
  ghost predicate WellOwned(w: World, table: Table, doc: Document) {
    && AllVerify(w, DocumentContent(doc.payload), doc.signatures)
    && StoredOwners(table, doc).Some?
    && var owners := StoredOwners(table, doc).value;
    && owners != {}
    && SignedByOwner(owners, OwnerRole(table), doc.signatures)
    && (Declared(table, doc.payload) == {} || table != Playlists ==> |owners| == 1)
    && (Declared(table, doc.payload) == {} ==> owners == RoleSigners(OwnerRole(table), doc.signatures))
  }

  /** The owners of a document whose owners can be established. */
  ghost function OwnersOf(table: Table, doc: Document): set<string> {
    if StoredOwners(table, doc).Some? then StoredOwners(table, doc).value else {}
  }

  /** Key k signed the document in the owner role, with a signature that verifies. */
  ghost predicate Attests(w: World, table: Table, doc: Document, k: string) {
    exists s :: s in doc.signatures && Trim(s.kid) == k && s.role == OwnerRole(table)
      && w.verify(s.kid, DocumentContent(doc.payload), s.sig)
  }

  /** Key k signed the intent in the owner role, with a signature that verifies. */
  ghost predicate Authorizes(w: World, table: Table, intent: Intent, k: string) {
    exists s :: s in intent.signatures && Trim(s.kid) == k && s.role == OwnerRole(table)
      && w.verify(s.kid, IntentContent(intent.body), s.sig)
  }

  /** Owner-role and client signers are the same before and after the feed's signature. */
  lemma CoSignKeepsSigners(w: World, doc: Document, ts: string, role: Role)
    requires role != Feed
    ensures RoleSigners(role, CoSign(w, doc, ts).signatures) == RoleSigners(role, doc.signatures)
    ensures ClientSigners(CoSign(w, doc, ts).signatures) == ClientSigners(doc.signatures)
  {
    CoSignKeepsOthers(w, doc, ts);
    var out := CoSign(w, doc, ts).signatures;
    assert forall s: Signature :: s.role != Feed ==> (s in out <==> s in doc.signatures);
  }

  /** A document's owner set survives the feed's own signature, for every document kind and
      whatever the feed's key is. */
  lemma CoSignKeepsOwners(w: World, table: Table, doc: Document, ts: string)
    ensures StoredOwners(table, CoSign(w, doc, ts)) == StoredOwners(table, doc)
  {
    CoSignKeepsSigners(w, doc, ts, OwnerRole(table));
    CoSignKeepsSigners(w, doc, ts, Curator);
  }

  lemma CoSignKeepsWellOwned(w: World, table: Table, doc: Document, ts: string)
    requires FeedSigns(w) && WellOwned(w, table, doc)
    ensures WellOwned(w, table, CoSign(w, doc, ts))
  {
    CoSignKeepsOwners(w, table, doc, ts);
    CoSignVerifies(w, doc, ts);
    CoSignKeepsSigners(w, doc, ts, OwnerRole(table));
    SignedByOwnerIsMembership(OwnersOf(table, doc), OwnerRole(table), doc.signatures);
    SignedByOwnerIsMembership(OwnersOf(table, doc), OwnerRole(table), CoSign(w, doc, ts).signatures);
  }

  // ---------------------------------------------------------------------------------------
  // Groups
  // ---------------------------------------------------------------------------------------

  /** For a group admitted under the current rules, the owner read back from the stored group is its
      one curator-role signer, whatever its display name says. */
  lemma GroupOwnerIsCurator(curator: string, sigs: seq<Signature>)
    requires Unambiguous({}, Curator, sigs).Pass?
    requires GroupCuratorConsistent(curator, sigs).Pass?
    ensures StoredGroupOwners(curator, sigs) == Some(RoleSigners(Curator, sigs))
  {
    var legacy := LegacyGroupOwner(curator, sigs);
    if legacy.Some? {
      AtMostOne(RoleSigners(Curator, sigs), legacy.value);
    }
  }

  // ---------------------------------------------------------------------------------------
  // Creates
  // ---------------------------------------------------------------------------------------

  /** A document that clears the create bar is well owned, before and after co-signing. */
  lemma OwnerSignaturesEstablish(w: World, table: Table, doc: Document)
    requires SelfOwned(w, table, doc) && GroupRule(table, doc)
    ensures WellOwned(w, table, doc)
  {
    var declared, role := Declared(table, doc.payload), OwnerRole(table);
    if table == Groups {
      GroupOwnerIsCurator(doc.payload.curator, doc.signatures);
    }
    var owners := Owners(declared, role, doc.signatures);
    assert SignedByOwner(owners, role, doc.signatures);
    if declared == {} {
      var k :| k in owners;
      AtMostOne(owners, k);
    }
  }

  lemma CreateEstablishes(w: World, table: Table, req: CreateRequest)
    requires FeedSigns(w)
    requires CreateAccepted(w, table, req)
    ensures WellOwned(w, table, CoSign(w, req.doc, CreatedTs(w, req.doc)))
  {
    OwnerSignaturesEstablish(w, table, req.doc);
    CoSignKeepsWellOwned(w, table, req.doc, CreatedTs(w, req.doc));
  }

  /** The owner read back from a well-owned stored group is the submitted document's one curator-role
      signer. */
  lemma StoredGroupOwnerIsSigner(w: World, doc: Document, ts: string)
    requires WellOwned(w, Groups, CoSign(w, doc, ts))
    ensures OwnersOf(Groups, CoSign(w, doc, ts)) == RoleSigners(Curator, doc.signatures)
    ensures |RoleSigners(Curator, doc.signatures)| == 1
  {
    CoSignKeepsSigners(w, doc, ts, Curator);
  }

  lemma IngestEstablishes(w: World, doc: Document, now: int)
    requires IngestAccepted(w, doc, now)
    ensures WellOwned(w, Playlists, doc)
  {
    OwnerSignaturesEstablish(w, Playlists, doc);
  }

  // ---------------------------------------------------------------------------------------
  // Replaces
  // ---------------------------------------------------------------------------------------

  /** One owner of the earlier document signed both the later one and the intent. */
  ghost predicate CommonSigner(w: World, table: Table, before: Document, after: Document, intent: Intent) {
    exists k :: k in OwnersOf(table, before) && Attests(w, table, after, k) && Authorizes(w, table, intent, k)
  }

  /** What one accepted replace does to ownership. An owner signed the new document and an owner signed the
      intent; a sole owner signed both, but of several owners they may be two different ones. */
  ghost predicate OwnershipStep(w: World, table: Table, before: Document, after: Document, intent: Intent) {
    && OwnersOf(table, before) <= OwnersOf(table, after)
    && (Declared(table, before.payload) != {} ==> Declared(table, after.payload) != {})
    && (table != Playlists ==> OwnersOf(table, after) == OwnersOf(table, before))
    && (forall k :: k in OwnersOf(table, after) - OwnersOf(table, before) ==> Attests(w, table, after, k))
    && (exists k :: k in OwnersOf(table, before) && Attests(w, table, after, k))
    && (exists k :: k in OwnersOf(table, before) && Authorizes(w, table, intent, k))
    && (|OwnersOf(table, before)| == 1 ==> CommonSigner(w, table, before, after, intent))
  }

  lemma SoleOwnerSignsBoth(w: World, table: Table, before: Document, after: Document, intent: Intent)
    requires |OwnersOf(table, before)| == 1
    requires exists k :: k in OwnersOf(table, before) && Attests(w, table, after, k)
    requires exists k :: k in OwnersOf(table, before) && Authorizes(w, table, intent, k)
    ensures CommonSigner(w, table, before, after, intent)
  {
    var k :| k in OwnersOf(table, before) && Attests(w, table, after, k);
    AtMostOne(OwnersOf(table, before), k);
  }

  lemma SignerAttests(w: World, table: Table, doc: Document, ts: string, k: string)
    requires AllVerify(w, DocumentContent(doc.payload), doc.signatures)
    requires k in RoleSigners(OwnerRole(table), doc.signatures)
    ensures Attests(w, table, CoSign(w, doc, ts), k)
  {
    CoSignKeepsOthers(w, doc, ts);
    var s :| s in doc.signatures && s.role == OwnerRole(table) && Trim(s.kid) == k;
    assert s in CoSign(w, doc, ts).signatures;
  }

  lemma IntentSignerAuthorizes(w: World, table: Table, intent: Intent, owners: set<string>)
    requires AllVerify(w, IntentContent(intent.body), intent.signatures)
    requires SignedByOwner(owners, OwnerRole(table), intent.signatures)
    ensures exists k :: k in owners && Authorizes(w, table, intent, k)
  {
    var s :| s in intent.signatures && Trim(s.kid) in owners && s.role == OwnerRole(table);
    assert Authorizes(w, table, intent, Trim(s.kid));
  }

  /** The submitted owner set is the one read back after the replace is stored. */
  lemma IncomingOwnersAreStored(w: World, table: Table, doc: Document, ts: string)
    requires Unambiguous(Declared(table, doc.payload), OwnerRole(table), doc.signatures).Pass?
    requires table == Groups ==> GroupCuratorConsistent(doc.payload.curator, doc.signatures).Pass?
    ensures StoredOwners(table, CoSign(w, doc, ts))
         == Some(Owners(Declared(table, doc.payload), OwnerRole(table), doc.signatures))
  {
    CoSignKeepsOwners(w, table, doc, ts);
    if table == Groups {
      GroupOwnerIsCurator(doc.payload.curator, doc.signatures);
    }
  }

  /** A set of at most one element that contains a non-empty set equals it. */
  lemma SqueezedSingleton(a: set<string>, b: set<string>)
    requires a != {} && a <= b && |b| <= 1
    ensures a == b
  {
    var k :| k in a;
    AtMostOne(b, k);
  }

  /** The owners of an accepted replacement: none dropped, and for groups and channels the same. */
  lemma ReplaceKeepsOwners(w: World, table: Table, stored: Document, doc: Document, ts: string)
    requires WellOwned(w, table, stored) && OwnershipRespected(w, table, stored, doc)
    ensures StoredOwners(table, CoSign(w, doc, ts))
         == Some(Owners(Declared(table, doc.payload), OwnerRole(table), doc.signatures))
    ensures OwnersOf(table, stored) <= OwnersOf(table, CoSign(w, doc, ts))
    ensures table != Playlists || Declared(table, doc.payload) == {} ==>
              OwnersOf(table, CoSign(w, doc, ts)) == OwnersOf(table, stored)
  {
    IncomingOwnersAreStored(w, table, doc, ts);
    var incoming := Owners(Declared(table, doc.payload), OwnerRole(table), doc.signatures);
    if table != Playlists || Declared(table, doc.payload) == {} {
      SqueezedSingleton(OwnersOf(table, stored), incoming);
    }
  }

  lemma ReplaceIsWellOwned(w: World, table: Table, stored: Document, doc: Document, ts: string)
    requires FeedSigns(w) && WellOwned(w, table, stored) && OwnershipRespected(w, table, stored, doc)
    ensures WellOwned(w, table, CoSign(w, doc, ts))
  {
    ReplaceKeepsOwners(w, table, stored, doc, ts);
    if table == Groups {
      GroupOwnerIsCurator(doc.payload.curator, doc.signatures);
    }
    assert WellOwned(w, table, doc);
    CoSignKeepsWellOwned(w, table, doc, ts);
  }

  /** A stored owner signed the replacement, and so did every owner it adds. */
  lemma ReplaceIsAttested(w: World, table: Table, stored: Document, doc: Document, ts: string)
    requires WellOwned(w, table, stored) && OwnershipRespected(w, table, stored, doc)
    ensures exists k :: k in OwnersOf(table, stored) && Attests(w, table, CoSign(w, doc, ts), k)
    ensures forall k :: k in OwnersOf(table, CoSign(w, doc, ts)) - OwnersOf(table, stored) ==>
              Attests(w, table, CoSign(w, doc, ts), k)
  {
    var owners := OwnersOf(table, stored);
    ReplaceKeepsOwners(w, table, stored, doc, ts);
    OwnersNonBlank(table, stored);
    SignedByOwnerIsMembership(owners, OwnerRole(table), doc.signatures);
    var acting :| acting in owners * RoleSigners(OwnerRole(table), doc.signatures);
    SignerAttests(w, table, doc, ts, acting);
    forall k | k in OwnersOf(table, CoSign(w, doc, ts)) - owners
      ensures Attests(w, table, CoSign(w, doc, ts), k)
    {
      SignerAttests(w, table, doc, ts, k);
    }
  }

  /** Every accepted replace of a well-owned document keeps it well owned, and moves its ownership
      only as OwnershipStep allows. */
  lemma ReplaceKeepsOwnership(w: World, table: Table, id: nat, slug: string, stored: Document, req: ReplaceRequest)
    requires FeedSigns(w) && WellOwned(w, table, stored)
    requires ReplaceAccepted(w, table, id, slug, stored, req)
    ensures WellOwned(w, table, CoSign(w, req.doc, req.ts))
    ensures req.intent.Some?
    ensures OwnershipStep(w, table, stored, CoSign(w, req.doc, req.ts), req.intent.value)
  {
    var after, owners := CoSign(w, req.doc, req.ts), OwnersOf(table, stored);
    ReplaceKeepsOwners(w, table, stored, req.doc, req.ts);
    ReplaceIsWellOwned(w, table, stored, req.doc, req.ts);
    ReplaceIsAttested(w, table, stored, req.doc, req.ts);
    IntentSignerAuthorizes(w, table, req.intent.value, owners);
    if |owners| == 1 {
      SoleOwnerSignsBoth(w, table, stored, after, req.intent.value);
    }
  }

  /** For a well-owned stored document the regime-transition guard refuses nothing the owner-signature
      guard would not refuse: dropping it changes no accepted replace. */
  lemma RegimeGuardIsRedundant(w: World, table: Table, stored: Document, incomingDeclared: set<string>,
                               sigs: seq<Signature>)
    requires WellOwned(w, table, stored)
    requires OwnerSignature(OwnersOf(table, stored), OwnerRole(table), sigs).Pass?
    ensures RegimeConsent(Declared(table, stored.payload), incomingDeclared, OwnersOf(table, stored), OwnerRole(table),
                          sigs).Pass?
  {
    var owners := OwnersOf(table, stored);
    OwnersNonBlank(table, stored);
    SignedByOwnerIsMembership(owners, OwnerRole(table), sigs);
    if Declared(table, stored.payload) == {} {
      var k :| k in owners * RoleSigners(OwnerRole(table), sigs);
      AtMostOne(owners, k);
    }
  }

  /** Without the single-signer rule the guard is not redundant: with two undeclared owners, one of
      them alone can sign the replace that declares both, and only this guard refuses it. */
  lemma RegimeGuardNeededForTwoOwners()
    ensures var a := Signature("a", Curator, "", "");
            && OwnerSignature({"a", "b"}, Curator, [a]).Pass?
            && OwnersRetained({"a", "b"}, {"a", "b"}).Pass?
            && NewOwnerConsent({"a", "b"}, {"a", "b"}, Curator, [a]).Pass?
            && RegimeConsent({}, {"a", "b"}, {"a", "b"}, Curator, [a]).Fail?
  {
    var a := Signature("a", Curator, "", "");
    TrimSingle('a');
    TrimSingle('b');
    assert a in [a];
    assert Trim(a.kid) in {"a", "b"};
    assert "b" !in RoleSigners(Curator, [a]);
    assert "b" in {"a", "b"};
  }

  lemma TrimSingle(c: char)
    requires !IsSpace(c)
    ensures Trim([c]) == [c]
  {
  }

  // ---------------------------------------------------------------------------------------
  // Intents
  // ---------------------------------------------------------------------------------------

  /** An intent authorizes one document on one resource: two replaces accepted on the same intent
      body install the same payload under the same id and slug. */
  lemma IntentBindsOneDocument(w: World, table: Table, table': Table, id: nat, id': nat, slug: string, slug': string,
                               stored: Document, stored': Document, req: ReplaceRequest, req': ReplaceRequest)
    requires DigestInjective(w)
    requires ReplaceAccepted(w, table, id, slug, stored, req)
    requires ReplaceAccepted(w, table', id', slug', stored', req')
    requires req.intent.value.body == req'.intent.value.body
    ensures table == table' && id == id' && slug == slug' && req.doc.payload == req'.doc.payload
  {
    UuidTextInjective(id, id');
  }

  /** An intent that authorized a delete can never authorize a replace, and the reverse. */
  lemma DeleteIntentIsNotReplaceIntent(w: World, table: Table, table': Table, id: nat, id': nat, slug: string,
                                       slug': string,
                                       stored: Document, stored': Document, del: DeleteRequest, req: ReplaceRequest)
    requires DeleteAccepted(w, table, id, slug, stored, del)
    requires ReplaceAccepted(w, table', id', slug', stored', req)
    ensures del.intent.value.body != req.intent.value.body
  {
  }
}
