/** The guards a create, replace, delete or ingest passes before it reaches the store, in the order
    the service applies them, and what a request that passes them has proved. */
module Authorization {
  import opened Text
  import opened Documents
  import opened CoSigning
  import opened Ownership

  datatype AuthError =
    | SignaturesRequired
    | InvalidId
    | InvalidCreated
    | SlugRequired
    | ItemIdRequired
    | IdentityMismatch
    | SignatureFailed(kids: set<string>)
    | NotSelfSigned(reason: OwnerError)
    | Ownership(reason: OwnerError)
    | IntentInvalid
    | IntentStale
    | InvalidDocument

  datatype CreateRequest = CreateRequest(doc: Document, now: int)

  /** `ts` is the text of the time at which the feed signs the replacement. */
  datatype ReplaceRequest = ReplaceRequest(doc: Document, intent: Option<Intent>, now: int, ts: string)

  datatype DeleteRequest = DeleteRequest(intent: Option<Intent>, now: int)

  // ---------------------------------------------------------------------------------------
  // Guards
  // ---------------------------------------------------------------------------------------

  function Check(ok: bool, error: AuthError): Outcome<AuthError> {
    if ok then Pass else Fail(error)
  }

  function OwnerRule(r: Outcome<OwnerError>): Outcome<AuthError> {
    match r
    case Pass => Pass
    case Fail(e) => Fail(Ownership(e))
  }

  function SelfSigned(r: Outcome<OwnerError>): Outcome<AuthError> {
    match r
    case Pass => Pass
    case Fail(e) => Fail(NotSelfSigned(e))
  }

  function RequireSignatures(sigs: seq<Signature>): Outcome<AuthError> {
    Check(sigs != [], SignaturesRequired)
  }

  function RequireItemIds(items: seq<Item>): Outcome<AuthError> {
    Check(forall i :: 0 <= i < |items| ==> items[i].id.Some?, ItemIdRequired)
  }

  function RequireCreated(created: Moment, now: int): Outcome<AuthError> {
    Check(created.Instant? && created.at <= now, InvalidCreated)
  }

  function RequireIdentity(p: Payload, now: int): Outcome<AuthError> {
    var id := p.id;
    :- Check(id.Some?, InvalidId);
    :- RequireCreated(p.created, now);
    Check(Trim(p.slug) != "", SlugRequired)
  }

  /** A replacement names the same id and slug, and a created that denotes the same instant. */
  function MatchStored(p: Payload, id: nat, slug: string, storedCreated: Moment): Outcome<AuthError> {
    var stored := Some(id);
    :- Check(p.id == stored, IdentityMismatch);
    :- Check(p.slug == slug, IdentityMismatch);
    :- Check(storedCreated.Instant?, InvalidCreated);
    Check(p.created.Instant? && p.created.at == storedCreated.at, IdentityMismatch)
  }

  function VerifyAll(w: World, content: Content, sigs: seq<Signature>): Outcome<AuthError> {
    if AllVerify(w, content, sigs) then Pass
    else Fail(SignatureFailed(set s | s in sigs && !w.verify(s.kid, content, s.sig) :: s.kid))
  }

  const DEFAULT_SKEW: int := 5 * 60 * 1_000_000_000

  function IntentSkew(w: World): int {
    if w.skew <= 0 then DEFAULT_SKEW else w.skew
  }

  /** The intent was created within the window around now, on either side. */
  predicate Fresh(w: World, created: Moment, now: int) {
    created.Instant? && now - IntentSkew(w) <= created.at <= now + IntentSkew(w)
  }

  /** A replace intent names the digest of its document; a delete intent names none at all. */
  predicate BindsDocument(w: World, body: IntentBody, doc: Option<Payload>) {
    match doc
    case None => body.payloadHash.None?
    case Some(p) =>
      Fold(Trim(if body.payloadHash.Some? then body.payloadHash.value else "")) == Fold(w.digest(p))
  }

  /** Everything an accepted intent establishes. */
  predicate IntentAccepted(w: World, intent: Option<Intent>, action: Action, table: Table, id: nat, slug: string,
                           owners: set<string>, doc: Option<Payload>, now: int) {
    && intent.Some?
    && var body := intent.value.body;
    && body.action == action
    && body.targetType == Some(table)
    && Trim(body.targetId) == UuidText(id)
    && body.targetSlug == slug
    && BindsDocument(w, body, doc)
    && Fresh(w, body.created, now)
    && AllVerify(w, IntentContent(body), intent.value.signatures)
    && SignedByOwner(owners, OwnerRole(table), intent.value.signatures)
  }

  function VerifyIntent(w: World, intent: Option<Intent>, action: Action, table: Table, id: nat, slug: string,
                        owners: set<string>, doc: Option<Payload>, now: int): (r: Outcome<AuthError>)
    ensures r.Pass? <==> IntentAccepted(w, intent, action, table, id, slug, owners, doc, now)
  {
    var role := OwnerRole(table);
    :- Check(intent.Some?, IntentInvalid);
    var body := intent.value.body;
    var sigs := intent.value.signatures;
    :- Check(body.action == action, IntentInvalid);
    :- Check(body.targetType == Some(table), IntentInvalid);
    :- Check(Trim(body.targetId) == UuidText(id), IntentInvalid);
    :- Check(body.targetSlug == slug, IntentInvalid);
    :- Check(BindsDocument(w, body, doc), IntentInvalid);
    :- Check(Fresh(w, body.created, now), IntentStale);
    :- RequireSignatures(sigs);
    :- VerifyAll(w, IntentContent(body), sigs);
    OwnerRule(OwnerSignature(owners, role, sigs))
  }

  /** The create bar: unambiguous owner, every signature verifies, an owner signed as owner. */
  predicate SelfOwned(w: World, table: Table, doc: Document) {
    var declared, role := Declared(table, doc.payload), OwnerRole(table);
    && Unambiguous(declared, role, doc.signatures).Pass?
    && AllVerify(w, DocumentContent(doc.payload), doc.signatures)
    && SignedByOwner(Owners(declared, role, doc.signatures), role, doc.signatures)
  }

  function VerifyOwnerSignatures(w: World, table: Table, doc: Document): (r: Outcome<AuthError>)
    ensures r.Pass? <==> SelfOwned(w, table, doc)
  {
    var declared := Declared(table, doc.payload);
    var role := OwnerRole(table);
    :- OwnerRule(Unambiguous(declared, role, doc.signatures));
    :- VerifyAll(w, DocumentContent(doc.payload), doc.signatures);
    SelfSigned(OwnerSignature(Owners(declared, role, doc.signatures), role, doc.signatures))
  }

  /** The time the feed's signature of a new document bears: that of the document's own created member. */
  function CreatedTs(w: World, doc: Document): string {
    if doc.payload.created.Instant? then w.rfc3339(doc.payload.created.at) else ""
  }

  function SignAndValidate(w: World, table: Table, doc: Document, ts: string): Outcome<AuthError> {
    Check(w.valid(table, CoSign(w, doc, ts)), InvalidDocument)
  }

  // ---------------------------------------------------------------------------------------
  // Requests
  // ---------------------------------------------------------------------------------------

  /** Identity members a stored document always has. */
  predicate Identified(table: Table, p: Payload) {
    && p.id.Some?
    && p.created.Instant?
    && Trim(p.slug) != ""
    && (table == Playlists ==> forall i :: 0 <= i < |p.items| ==> p.items[i].id.Some?)
  }

  predicate GroupRule(table: Table, doc: Document) {
    table == Groups ==> GroupCuratorConsistent(doc.payload.curator, doc.signatures).Pass?
  }

  predicate CreateAccepted(w: World, table: Table, req: CreateRequest) {
    && Identified(table, req.doc.payload)
    && req.doc.payload.created.at <= req.now
    && GroupRule(table, req.doc)
    && SelfOwned(w, table, req.doc)
    && w.valid(table, CoSign(w, req.doc, CreatedTs(w, req.doc)))
  }

  function AuthorizeCreate(w: World, table: Table, req: CreateRequest): (r: Outcome<AuthError>)
    ensures r.Pass? <==> CreateAccepted(w, table, req)
  {
    var doc := req.doc;
    :- RequireSignatures(doc.signatures);
    :- RequireIdentity(doc.payload, req.now);
    :- if table == Playlists then RequireItemIds(doc.payload.items) else Pass;
    :- if table == Groups then OwnerRule(GroupCuratorConsistent(doc.payload.curator, doc.signatures)) else Pass;
    :- VerifyOwnerSignatures(w, table, doc);
    SignAndValidate(w, table, doc, CreatedTs(w, doc))
  }

  predicate IngestAccepted(w: World, doc: Document, now: int) {
    && Identified(Playlists, doc.payload)
    && doc.payload.created.at <= now
    && SelfOwned(w, Playlists, doc)
    && w.valid(Playlists, doc)
  }

  /** The bar for a remote playlist an ingest would store. It is stored exactly as served. */
  function AuthorizeIngest(w: World, doc: Document, now: int): (r: Outcome<AuthError>)
    ensures r.Pass? <==> IngestAccepted(w, doc, now)
  {
    var p := doc.payload;
    :- Check(w.valid(Playlists, doc), InvalidDocument);
    :- VerifyOwnerSignatures(w, Playlists, doc);
    :- Check(p.id.Some?, InvalidId);
    :- Check(Trim(p.slug) != "", SlugRequired);
    :- RequireItemIds(p.items);
    RequireCreated(p.created, now)
  }

  /** The replacement is the stored resource under a new body: same id, slug and created instant. */
  predicate SameIdentity(p: Payload, id: nat, slug: string, stored: Payload) {
    && p.id == Some(id)
    && p.slug == slug
    && p.created.Instant? && stored.created.Instant?
    && p.created.at == stored.created.at
  }

  /** The owner set may only grow, by owners who consent, and an existing owner acts. */
  predicate OwnershipRespected(w: World, table: Table, stored: Document, doc: Document) {
    var role, sigs := OwnerRole(table), doc.signatures;
    var storedDeclared, declared := Declared(table, stored.payload), Declared(table, doc.payload);
    && DeclarationRetained(storedDeclared, declared).Pass?
    && Unambiguous(declared, role, sigs).Pass?
    && GroupRule(table, doc)
    && StoredOwners(table, stored).Some?
    && var owners := StoredOwners(table, stored).value;
    && owners <= Owners(declared, role, sigs)
    && AllVerify(w, DocumentContent(doc.payload), sigs)
    && (table == Groups || RegimeConsent(storedDeclared, declared, owners, role, sigs).Pass?)
    && (table == Groups || Owners(declared, role, sigs) - owners <= RoleSigners(role, sigs))
    && SignedByOwner(owners, role, sigs)
  }

  predicate ReplaceAccepted(w: World, table: Table, id: nat, slug: string, stored: Document, req: ReplaceRequest) {
    && Identified(table, req.doc.payload)
    && req.doc.payload.created.at <= req.now
    && SameIdentity(req.doc.payload, id, slug, stored.payload)
    && OwnershipRespected(w, table, stored, req.doc)
    && IntentAccepted(w, req.intent, Replace, table, id, slug, StoredOwners(table, stored).value,
                      Some(req.doc.payload), req.now)
    && w.valid(table, CoSign(w, req.doc, req.ts))
  }

  /** The ownership half of a replace, in the service's order. */
  function AuthorizeOwnership(w: World, table: Table, stored: Document, doc: Document): (r: Outcome<AuthError>)
    ensures r.Pass? <==> OwnershipRespected(w, table, stored, doc)
  {
    var role := OwnerRole(table);
    var storedDeclared, declared := Declared(table, stored.payload), Declared(table, doc.payload);
    :- OwnerRule(DeclarationRetained(storedDeclared, declared));
    :- OwnerRule(Unambiguous(declared, role, doc.signatures));
    :- if table == Groups then OwnerRule(GroupCuratorConsistent(doc.payload.curator, doc.signatures)) else Pass;
    var owners := StoredOwners(table, stored);
    :- Check(owners.Some?, Ownership(NeedsMigration));
    var incoming := Owners(declared, role, doc.signatures);
    :- OwnerRule(OwnersRetained(owners.value, incoming));
    :- VerifyAll(w, DocumentContent(doc.payload), doc.signatures);
    // A group declares no owners, so it has no regime to change and its incoming owners all signed.
    :- if table == Groups then Pass
       else OwnerRule(RegimeConsent(storedDeclared, declared, owners.value, role, doc.signatures));
    :- if table == Groups then Pass
       else OwnerRule(NewOwnerConsent(owners.value, incoming, role, doc.signatures));
    OwnerRule(OwnerSignature(owners.value, role, doc.signatures))
  }

  /** The identity half of a replace, in the service's order. */
  function AuthorizeIdentity(table: Table, id: nat, slug: string, stored: Document, doc: Document, now: int)
    : (r: Outcome<AuthError>)
    ensures r.Pass? <==>
              && doc.signatures != [] && Identified(table, doc.payload) && doc.payload.created.at <= now
              && SameIdentity(doc.payload, id, slug, stored.payload)
  {
    var p := doc.payload;
    :- RequireSignatures(doc.signatures);
    :- if table == Playlists then RequireItemIds(p.items) else Pass;
    :- RequireIdentity(p, now);
    MatchStored(p, id, slug, stored.payload.created)
  }

  function AuthorizeReplace(w: World, table: Table, id: nat, slug: string, stored: Document, req: ReplaceRequest)
    : (r: Outcome<AuthError>)
    ensures r.Pass? <==> ReplaceAccepted(w, table, id, slug, stored, req)
  {
    var doc := req.doc;
    :- AuthorizeIdentity(table, id, slug, stored, doc, req.now);
    :- AuthorizeOwnership(w, table, stored, doc);
    :- VerifyIntent(w, req.intent, Replace, table, id, slug, StoredOwners(table, stored).value,
                    Some(doc.payload), req.now);
    SignAndValidate(w, table, doc, req.ts)
  }

  predicate DeleteAccepted(w: World, table: Table, id: nat, slug: string, stored: Document, req: DeleteRequest) {
    && StoredOwners(table, stored).Some?
    && IntentAccepted(w, req.intent, Delete, table, id, slug, StoredOwners(table, stored).value, None, req.now)
  }

  function AuthorizeDelete(w: World, table: Table, id: nat, slug: string, stored: Document, req: DeleteRequest)
    : (r: Outcome<AuthError>)
    ensures r.Pass? <==> DeleteAccepted(w, table, id, slug, stored, req)
  {
    var owners := StoredOwners(table, stored);
    :- Check(owners.Some?, Ownership(NeedsMigration));
    VerifyIntent(w, req.intent, Delete, table, id, slug, owners.value, None, req.now)
  }
}
