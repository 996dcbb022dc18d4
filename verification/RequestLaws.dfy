/** What the guards of a request come to, member by member: no law here is stated in terms of the guards. */
module RequestLaws {
  import opened Text
  import opened Documents
  import opened CoSigning
  import opened Ownership
  import opened Authorization
  import opened OwnershipLaws

  // ---------------------------------------------------------------------------------------
  // The owners of a stored document
  // ---------------------------------------------------------------------------------------

  /** A playlist belongs to the curators it declares by key, and with none declared to the keys that signed
      as curator. */
  lemma PlaylistOwnersAre(doc: Document, k: string)
    ensures StoredOwners(Playlists, doc).Some?
    ensures k in StoredOwners(Playlists, doc).value <==>
              && k != ""
              && if exists e :: e in doc.payload.curators && Trim(e.key) != "" then
                   exists e :: e in doc.payload.curators && Trim(e.key) == k
                 else exists s :: s in doc.signatures && s.role == Curator && Trim(s.kid) == k
  {
    if e :| e in doc.payload.curators && Trim(e.key) != "" {
      assert Trim(e.key) in EntityKeys(doc.payload.curators);
    } else {
      assert EntityKeys(doc.payload.curators) == {};
    }
  }

  /** A channel belongs to the publisher it declares by key, and with none declared to the keys that signed
      as publisher. */
  lemma ChannelOwnersAre(doc: Document, k: string)
    ensures StoredOwners(Channels, doc).Some?
    ensures k in StoredOwners(Channels, doc).value <==>
              && k != ""
              && if doc.payload.publisher.Some? && Trim(doc.payload.publisher.value.key) != "" then
                   k == Trim(doc.payload.publisher.value.key)
                 else exists s :: s in doc.signatures && s.role == Publisher && Trim(s.kid) == k
  {
  }

  /** A group belongs to the client signer its curator member names, and when it names none to the one key
      that signed as curator; with several of those its owner cannot be told. */
  lemma GroupOwnersAre(doc: Document, k: string)
    ensures var curator, owners := Trim(doc.payload.curator), StoredOwners(Groups, doc);
            if curator != "" && exists s :: s in doc.signatures && s.role != Feed && Trim(s.kid) == curator then
              owners == Some({curator})
            else
              && (owners.None? <==> exists s, t :: s in doc.signatures && t in doc.signatures
                                      && s.role == Curator && t.role == Curator
                                      && Trim(s.kid) != "" && Trim(t.kid) != "" && Trim(s.kid) != Trim(t.kid))
              && (owners.Some? ==> (k in owners.value <==>
                    k != "" && exists s :: s in doc.signatures && s.role == Curator && Trim(s.kid) == k))
  {
    OneSignerMeans(Curator, doc.signatures);
  }

  // ---------------------------------------------------------------------------------------
  // Intents
  // ---------------------------------------------------------------------------------------

  /** Everything an accepted intent is, and nothing more. */
  lemma IntentMeans(w: World, intent: Option<Intent>, action: Action, table: Table, id: nat, slug: string,
                    owners: set<string>, doc: Option<Payload>, now: int)
    ensures VerifyIntent(w, intent, action, table, id, slug, owners, doc, now).Pass?
       <==> && intent.Some?
            && var body, sigs := intent.value.body, intent.value.signatures;
            && body.action == action && body.targetType == Some(table)
            && Trim(body.targetId) == UuidText(id) && body.targetSlug == slug
            && (if doc.None? then body.payloadHash.None?
                else Fold(w.digest(doc.value))
                     == Fold(Trim(if body.payloadHash.Some? then body.payloadHash.value else "")))
            && body.created.Instant?
            && now - (if w.skew > 0 then w.skew else 300_000_000_000) <= body.created.at
            && body.created.at <= now + (if w.skew > 0 then w.skew else 300_000_000_000)
            && (forall s :: s in sigs ==> w.verify(s.kid, IntentContent(body), s.sig))
            && exists s :: s in sigs && Trim(s.kid) in owners
                 && s.role == if table == Channels then Publisher else Curator
  {
  }

  /** An intent is refused as stale exactly when nothing that is checked before its time is wrong with it,
      and it has no time or one outside the window. */
  lemma StaleMeans(w: World, intent: Option<Intent>, action: Action, table: Table, id: nat, slug: string,
                   owners: set<string>, doc: Option<Payload>, now: int)
    ensures VerifyIntent(w, intent, action, table, id, slug, owners, doc, now) == Outcome.Fail(IntentStale)
       <==> && intent.Some?
            && var body := intent.value.body;
            && body.action == action && body.targetType == Some(table)
            && Trim(body.targetId) == UuidText(id) && body.targetSlug == slug
            && (if doc.None? then body.payloadHash.None?
                else Fold(w.digest(doc.value))
                     == Fold(Trim(if body.payloadHash.Some? then body.payloadHash.value else "")))
            && !(&& body.created.Instant?
                 && now - (if w.skew > 0 then w.skew else 300_000_000_000) <= body.created.at
                 && body.created.at <= now + (if w.skew > 0 then w.skew else 300_000_000_000))
  {
  }

  /** The window of a feed whose configured skew is `skew`: five minutes unless it is positive, in
      nanoseconds. */
  predicate IsWindow(window: int, skew: int) {
    window == if skew > 0 then skew else 300_000_000_000
  }

  /** Whatever delete is accepted, its intent was created at most the window away from now, on either
      side. */
  lemma AcceptedDeleteIsRecent(w: World, window: int, table: Table, id: nat, slug: string, stored: Document,
                               req: DeleteRequest)
    requires IsWindow(window, w.skew) && DeleteAccepted(w, table, id, slug, stored, req)
    ensures req.intent.Some? && req.intent.value.body.created.Instant?
    ensures req.now - window <= req.intent.value.body.created.at <= req.now + window
  {
  }

  /** And so is every accepted replace. */
  lemma AcceptedReplaceIsRecent(w: World, window: int, table: Table, id: nat, slug: string, stored: Document,
                                req: ReplaceRequest)
    requires IsWindow(window, w.skew) && ReplaceAccepted(w, table, id, slug, stored, req)
    ensures req.intent.Some? && req.intent.value.body.created.Instant?
    ensures req.now - window <= req.intent.value.body.created.at <= req.now + window
  {
  }

  /** A captured intent can be used again only so long: two deletes accepted on one intent body, or two
      replaces, are at most two windows apart. */
  lemma ReplayIsBounded(w: World, window: int, table: Table, table': Table, id: nat, id': nat, slug: string,
                        slug': string, stored: Document, stored': Document, now: int, now': int, body: IntentBody)
    requires IsWindow(window, w.skew)
    requires || (exists a, b ::
                   && DeleteAccepted(w, table, id, slug, stored, DeleteRequest(Some(Intent(body, a)), now))
                   && DeleteAccepted(w, table', id', slug', stored', DeleteRequest(Some(Intent(body, b)), now')))
             || (exists a, b, doc, doc', ts, ts' ::
                   && ReplaceAccepted(w, table, id, slug, stored, ReplaceRequest(doc, Some(Intent(body, a)), now, ts))
                   && ReplaceAccepted(w, table', id', slug', stored',
                                      ReplaceRequest(doc', Some(Intent(body, b)), now', ts')))
    ensures -2 * window <= now - now' <= 2 * window
  {
  }

  lemma IntentWithinIsNotStale(w: World, window: int, intent: Option<Intent>, action: Action, table: Table, id: nat,
                               slug: string, owners: set<string>, doc: Option<Payload>, now: int)
    requires IsWindow(window, w.skew) && intent.Some? && intent.value.body.created.Instant?
    requires now - window <= intent.value.body.created.at <= now + window
    ensures VerifyIntent(w, intent, action, table, id, slug, owners, doc, now) != Outcome.Fail(IntentStale)
  {
  }

  /** A delete intent created within the window is never refused as stale, whatever else is wrong. */
  lemma DeleteWithinIsNotStale(w: World, window: int, table: Table, id: nat, slug: string, stored: Document,
                               req: DeleteRequest)
    requires IsWindow(window, w.skew) && req.intent.Some? && req.intent.value.body.created.Instant?
    requires req.now - window <= req.intent.value.body.created.at <= req.now + window
    ensures AuthorizeDelete(w, table, id, slug, stored, req) != Outcome.Fail(IntentStale)
  {
    if StoredOwners(table, stored).Some? {
      IntentWithinIsNotStale(w, window, req.intent, Delete, table, id, slug, StoredOwners(table, stored).value, None,
                             req.now);
    }
  }

  lemma OwnershipIsNotStale(w: World, table: Table, stored: Document, doc: Document)
    ensures AuthorizeOwnership(w, table, stored, doc) != Outcome.Fail(IntentStale)
  {
  }

  lemma IdentityIsNotStale(p: Payload, now: int, id: nat, slug: string, created: Moment)
    ensures RequireIdentity(p, now) != Outcome.Fail(IntentStale)
    ensures MatchStored(p, id, slug, created) != Outcome.Fail(IntentStale)
  {
  }

  /** Nor is a replace intent. */
  lemma ReplaceWithinIsNotStale(w: World, window: int, table: Table, id: nat, slug: string, stored: Document,
                                req: ReplaceRequest)
    requires IsWindow(window, w.skew) && req.intent.Some? && req.intent.value.body.created.Instant?
    requires req.now - window <= req.intent.value.body.created.at <= req.now + window
    ensures AuthorizeReplace(w, table, id, slug, stored, req) != Outcome.Fail(IntentStale)
  {
    IdentityIsNotStale(req.doc.payload, req.now, id, slug, stored.payload.created);
    OwnershipIsNotStale(w, table, stored, req.doc);
    if AuthorizeOwnership(w, table, stored, req.doc).Pass? {
      IntentWithinIsNotStale(w, window, req.intent, Replace, table, id, slug, StoredOwners(table, stored).value,
                             Some(req.doc.payload), req.now);
    }
  }

  // ---------------------------------------------------------------------------------------
  // Documents
  // ---------------------------------------------------------------------------------------

  /** The document names k as an owner. */
  predicate Declares(table: Table, p: Payload, k: string) {
    && k != ""
    && match table
       case Playlists => exists e :: e in p.curators && Trim(e.key) == k
       case Groups => false
       case Channels => p.publisher.Some? && Trim(p.publisher.value.key) == k
  }

  /** Key k is among the signers in the role. */
  predicate SignsAs(sigs: seq<Signature>, role: Role, k: string) {
    k != "" && exists s :: s in sigs && s.role == role && Trim(s.kid) == k
  }

  /** Someone who is no owner is not to be the one a group's display name names. */
  predicate NamedCuratorSigns(table: Table, doc: Document) {
    var name := Trim(doc.payload.curator);
    table != Groups || name == "" || SignsAs(doc.signatures, Curator, name)
    || forall s :: s in doc.signatures && s.role != Feed ==> Trim(s.kid) != name
  }

  /** The id, created and slug members that are asked of every document, and of items. */
  predicate Named(table: Table, p: Payload, now: int) {
    && p.id.Some?
    && p.created.Instant? && p.created.at <= now
    && Trim(p.slug) != ""
    && (table == Playlists ==> forall item :: item in p.items ==> item.id.Some?)
  }

  ghost predicate DeclaresNobody(table: Table, p: Payload) {
    forall k :: !Declares(table, p, k)
  }

  /** With nobody declared only one key may sign in the owner role. */
  ghost predicate OneSpeaksForOwners(table: Table, role: Role, doc: Document) {
    DeclaresNobody(table, doc.payload) ==>
      forall j, k :: SignsAs(doc.signatures, role, j) && SignsAs(doc.signatures, role, k) ==> j == k
  }

  ghost predicate Owns(table: Table, role: Role, doc: Document, k: string) {
    if DeclaresNobody(table, doc.payload) then SignsAs(doc.signatures, role, k) else Declares(table, doc.payload, k)
  }

  lemma DeclaredMeans(table: Table, p: Payload)
    ensures forall k :: k in Declared(table, p) <==> Declares(table, p, k)
    ensures Declared(table, p) == {} <==> DeclaresNobody(table, p)
  {
    forall k
      ensures k in Declared(table, p) <==> Declares(table, p, k)
    {
    }
    if Declared(table, p) != {} {
      var k :| k in Declared(table, p);
      assert Declares(table, p, k);
    }
  }

  lemma SignersMean(sigs: seq<Signature>, role: Role)
    ensures forall k :: k in RoleSigners(role, sigs) <==> SignsAs(sigs, role, k)
    ensures |RoleSigners(role, sigs)| <= 1 <==>
              forall j, k :: SignsAs(sigs, role, j) && SignsAs(sigs, role, k) ==> j == k
  {
    forall k
      ensures k in RoleSigners(role, sigs) <==> SignsAs(sigs, role, k)
    {
    }
    OneSignerMeans(role, sigs);
    if !OneSigner(role, sigs) {
      var s, t :| s in sigs && t in sigs && s.role == role && t.role == role && Trim(s.kid) != "" && Trim(t.kid) != ""
                  && Trim(s.kid) != Trim(t.kid);
      assert SignsAs(sigs, role, Trim(s.kid)) && SignsAs(sigs, role, Trim(t.kid));
    }
  }

  lemma OwnersMean(table: Table, role: Role, doc: Document, k: string)
    ensures k in Owners(Declared(table, doc.payload), role, doc.signatures) <==> Owns(table, role, doc, k)
  {
    DeclaredMeans(table, doc.payload);
    SignersMean(doc.signatures, role);
  }

  /** What is asked of the signatures of a document that is to be new. */
  ghost predicate SpeaksForItself(w: World, table: Table, role: Role, doc: Document) {
    && OneSpeaksForOwners(table, role, doc)
    && (forall s :: s in doc.signatures ==> w.verify(s.kid, DocumentContent(doc.payload), s.sig))
    && exists k :: SignsAs(doc.signatures, role, k) && Owns(table, role, doc, k)
  }

  lemma UnambiguousMeans(table: Table, role: Role, doc: Document)
    ensures Unambiguous(Declared(table, doc.payload), role, doc.signatures).Pass?
       <==> OneSpeaksForOwners(table, role, doc)
  {
    DeclaredMeans(table, doc.payload);
    SignersMean(doc.signatures, role);
  }

  /** Some of the keys signed in the role. */
  lemma OwnerSignedMeans(owners: set<string>, role: Role, sigs: seq<Signature>)
    requires "" !in owners
    ensures SignedByOwner(owners, role, sigs) <==> exists k :: k in owners && SignsAs(sigs, role, k)
  {
    if SignedByOwner(owners, role, sigs) {
      var s :| s in sigs && Trim(s.kid) in owners && s.role == role;
      assert SignsAs(sigs, role, Trim(s.kid));
    }
  }

  lemma SelfSignedMeans(table: Table, role: Role, doc: Document)
    ensures SignedByOwner(Owners(Declared(table, doc.payload), role, doc.signatures), role, doc.signatures)
       <==> exists k :: SignsAs(doc.signatures, role, k) && Owns(table, role, doc, k)
  {
    var owners := Owners(Declared(table, doc.payload), role, doc.signatures);
    forall k
      ensures k in owners <==> Owns(table, role, doc, k)
    {
      OwnersMean(table, role, doc, k);
    }
    OwnerSignedMeans(owners, role, doc.signatures);
  }

  lemma SelfOwnedMeans(w: World, table: Table, doc: Document)
    ensures SelfOwned(w, table, doc)
       <==> SpeaksForItself(w, table, if table == Channels then Publisher else Curator, doc)
  {
    var role := if table == Channels then Publisher else Curator;
    UnambiguousMeans(table, role, doc);
    SelfSignedMeans(table, role, doc);
  }

  lemma GroupRuleMeans(table: Table, doc: Document)
    ensures GroupRule(table, doc) <==> NamedCuratorSigns(table, doc)
  {
    SignersMean(doc.signatures, Curator);
  }

  lemma CreateMeans(w: World, table: Table, req: CreateRequest)
    ensures AuthorizeCreate(w, table, req).Pass?
       <==> && Named(table, req.doc.payload, req.now)
            && NamedCuratorSigns(table, req.doc)
            && SpeaksForItself(w, table, if table == Channels then Publisher else Curator, req.doc)
            && w.valid(table, CoSign(w, req.doc, w.rfc3339(req.doc.payload.created.at)))
  {
    SelfOwnedMeans(w, table, req.doc);
    GroupRuleMeans(table, req.doc);
  }

  /** What a refused create is told: the first thing that is wrong with it. */
  lemma CreateRefusals(w: World, table: Table, req: CreateRequest)
    ensures var p, sigs, r := req.doc.payload, req.doc.signatures, AuthorizeCreate(w, table, req);
            && (r == Outcome.Fail(SignaturesRequired) <==> sigs == [])
            && (r == Outcome.Fail(InvalidId) <==> sigs != [] && p.id.None?)
            && (r == Outcome.Fail(InvalidCreated) <==>
                  sigs != [] && p.id.Some? && (p.created.NotATime? || p.created.at > req.now))
            && (r == Outcome.Fail(SlugRequired) <==>
                  sigs != [] && p.id.Some? && p.created.Instant? && p.created.at <= req.now && Trim(p.slug) == "")
            && (r == Outcome.Fail(ItemIdRequired) <==>
                  && sigs != [] && p.id.Some? && p.created.Instant? && p.created.at <= req.now && Trim(p.slug) != ""
                  && table == Playlists && exists item :: item in p.items && item.id.None?)
  {
  }

  /** What a refused replace is told, when it is not about its owners, its intent or its schema. */
  lemma ReplaceRefusals(w: World, table: Table, id: nat, slug: string, stored: Document, req: ReplaceRequest)
    ensures var p, sigs, r := req.doc.payload, req.doc.signatures, AuthorizeReplace(w, table, id, slug, stored, req);
            if sigs == [] then r == Outcome.Fail(SignaturesRequired)
            else if table == Playlists && exists item :: item in p.items && item.id.None? then
              r == Outcome.Fail(ItemIdRequired)
            else if p.id.None? then r == Outcome.Fail(InvalidId)
            else if p.created.NotATime? || p.created.at > req.now then r == Outcome.Fail(InvalidCreated)
            else if Trim(p.slug) == "" then r == Outcome.Fail(SlugRequired)
            else if p.id != Some(id) || p.slug != slug then r == Outcome.Fail(IdentityMismatch)
            else if stored.payload.created.NotATime? then r == Outcome.Fail(InvalidCreated)
            else stored.payload.created.at != p.created.at ==> r == Outcome.Fail(IdentityMismatch)
  {
  }

  lemma IngestMeans(w: World, doc: Document, now: int)
    ensures AuthorizeIngest(w, doc, now).Pass?
       <==> Named(Playlists, doc.payload, now) && SpeaksForItself(w, Playlists, Curator, doc) && w.valid(Playlists, doc)
  {
    SelfOwnedMeans(w, Playlists, doc);
  }

  /** The owner set may only grow, by owners who consent, and an owner acts. `owners` are those of the
      stored document. */
  ghost predicate OwnersStay(table: Table, role: Role, stored: Document, owners: set<string>, doc: Document) {
    && (DeclaresNobody(table, doc.payload) ==> DeclaresNobody(table, stored.payload))
    && (forall k :: k in owners ==> Owns(table, role, doc, k))
    && (forall k :: Owns(table, role, doc, k) && k !in owners ==> SignsAs(doc.signatures, role, k))
    && (DeclaresNobody(table, stored.payload) && !DeclaresNobody(table, doc.payload) ==>
          forall k :: k in owners ==> SignsAs(doc.signatures, role, k))
    && exists k :: k in owners && SignsAs(doc.signatures, role, k)
  }

  lemma RetainedMeans(table: Table, stored: Document, doc: Document)
    ensures DeclarationRetained(Declared(table, stored.payload), Declared(table, doc.payload)).Pass?
       <==> (DeclaresNobody(table, doc.payload) ==> DeclaresNobody(table, stored.payload))
  {
    DeclaredMeans(table, stored.payload);
    DeclaredMeans(table, doc.payload);
  }

  lemma KeptMeans(table: Table, role: Role, owners: set<string>, doc: Document)
    ensures var incoming := Owners(Declared(table, doc.payload), role, doc.signatures);
            && (owners <= incoming <==> forall k :: k in owners ==> Owns(table, role, doc, k))
            && (incoming - owners <= RoleSigners(role, doc.signatures) <==>
                  forall k :: Owns(table, role, doc, k) && k !in owners ==> SignsAs(doc.signatures, role, k))
  {
    SignersMean(doc.signatures, role);
    forall k
      ensures k in Owners(Declared(table, doc.payload), role, doc.signatures) <==> Owns(table, role, doc, k)
    {
      OwnersMean(table, role, doc, k);
    }
  }

  lemma RegimeMeans(table: Table, role: Role, stored: Document, owners: set<string>, doc: Document)
    ensures RegimeConsent(Declared(table, stored.payload), Declared(table, doc.payload), owners, role,
                          doc.signatures).Pass?
       <==> (DeclaresNobody(table, stored.payload) && !DeclaresNobody(table, doc.payload) ==>
               forall k :: k in owners ==> SignsAs(doc.signatures, role, k))
  {
    DeclaredMeans(table, stored.payload);
    DeclaredMeans(table, doc.payload);
    SignersMean(doc.signatures, role);
  }

  /** A group declares nobody, so it has no regime to change and its incoming owners all signed. */
  lemma GroupsConsent(role: Role, doc: Document)
    ensures DeclaresNobody(Groups, doc.payload)
    ensures forall k :: Owns(Groups, role, doc, k) ==> SignsAs(doc.signatures, role, k)
  {
  }

  lemma GrowthMeans(table: Table, role: Role, stored: Document, owners: set<string>, doc: Document)
    requires "" !in owners
    ensures var declared, incoming := Declared(table, doc.payload), Owners(Declared(table, doc.payload), role,
                                                                            doc.signatures);
            OwnersStay(table, role, stored, owners, doc)
            <==> && DeclarationRetained(Declared(table, stored.payload), declared).Pass?
                 && owners <= incoming
                 && (table == Groups
                     || RegimeConsent(Declared(table, stored.payload), declared, owners, role, doc.signatures).Pass?)
                 && (table == Groups || incoming - owners <= RoleSigners(role, doc.signatures))
                 && SignedByOwner(owners, role, doc.signatures)
  {
    RetainedMeans(table, stored, doc);
    KeptMeans(table, role, owners, doc);
    RegimeMeans(table, role, stored, owners, doc);
    OwnerSignedMeans(owners, role, doc.signatures);
    GroupsConsent(role, doc);
  }

  lemma OwnersStayMeans(w: World, table: Table, stored: Document, doc: Document)
    requires StoredOwners(table, stored).Some?
    ensures var role, owners := if table == Channels then Publisher else Curator, StoredOwners(table, stored).value;
            OwnershipRespected(w, table, stored, doc)
            <==> && OneSpeaksForOwners(table, role, doc) && NamedCuratorSigns(table, doc)
                 && (forall s :: s in doc.signatures ==> w.verify(s.kid, DocumentContent(doc.payload), s.sig))
                 && OwnersStay(table, role, stored, owners, doc)
  {
    var role, owners := if table == Channels then Publisher else Curator, StoredOwners(table, stored).value;
    UnambiguousMeans(table, role, doc);
    GroupRuleMeans(table, doc);
    OwnersNonBlank(table, stored);
    GrowthMeans(table, role, stored, owners, doc);
  }

  lemma NamedMeans(table: Table, p: Payload, now: int)
    ensures Named(table, p, now) <==> Identified(table, p) && p.created.at <= now
  {
  }

  /** Everything an accepted replace is, given what its intent is. */
  lemma ReplaceMeans(w: World, table: Table, id: nat, slug: string, stored: Document, req: ReplaceRequest)
    ensures var doc, role := req.doc, if table == Channels then Publisher else Curator;
            AuthorizeReplace(w, table, id, slug, stored, req).Pass?
            <==> && Named(table, doc.payload, req.now)
                 && doc.payload.id == Some(id) && doc.payload.slug == slug
                 && stored.payload.created.Instant? && stored.payload.created.at == doc.payload.created.at
                 && OneSpeaksForOwners(table, role, doc) && NamedCuratorSigns(table, doc)
                 && (forall s :: s in doc.signatures ==> w.verify(s.kid, DocumentContent(doc.payload), s.sig))
                 && StoredOwners(table, stored).Some?
                 && OwnersStay(table, role, stored, StoredOwners(table, stored).value, doc)
                 && VerifyIntent(w, req.intent, Replace, table, id, slug, StoredOwners(table, stored).value,
                                 Some(doc.payload), req.now).Pass?
                 && w.valid(table, CoSign(w, doc, req.ts))
  {
    NamedMeans(table, req.doc.payload, req.now);
    if StoredOwners(table, stored).Some? {
      OwnersStayMeans(w, table, stored, req.doc);
    }
  }
}
