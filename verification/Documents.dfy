/** Signed documents and signed intents, and the outside world a feed relies on to check them. */
module Documents {
  import opened Text

  datatype Option<+T> = None | Some(value: T)

  /** Result of a guard. A failed guard carries why, and ends the chain of guards it stands in. */
  datatype Outcome<+E> = Pass | Fail(error: E) {
    predicate IsFailure() { Fail? }
    function PropagateFailure(): Outcome<E>
      requires Fail?
    {
      this
    }
  }

  /** The three document tables, in the order the service names them. */
  datatype Table = Playlists | Groups | Channels

  datatype Role = Curator | Publisher | Feed | OtherRole(name: string)

  /** A timestamp member: the text, and the instant it denotes when it is RFC 3339. */
  datatype Moment = Instant(at: int, text: string) | NotATime(text: string)

  datatype Entity = Entity(name: string, key: string)

  /** A playlist item; `id` is None when the member is not a UUID. */
  datatype Item = Item(id: Option<nat>, content: string)

  /** Everything a document's signatures cover: the document without its signature members. `rest`
      stands for every member the feed does not read. */
  datatype Payload = Payload(
    id: Option<nat>,
    slug: string,
    created: Moment,
    curators: seq<Entity>,
    publisher: Option<Entity>,
    curator: string,
    items: seq<Item>,
    playlists: seq<string>,
    rest: string)

  datatype Signature = Signature(kid: string, role: Role, ts: string, sig: string)

  datatype Document = Document(payload: Payload, signatures: seq<Signature>)

  datatype Action = Replace | Delete | OtherAction(name: string)

  /** The signed members of a mutation intent. `payloadHash` is None only when the member is absent. */
  datatype IntentBody = IntentBody(
    action: Action,
    targetType: Option<Table>,
    targetId: string,
    targetSlug: string,
    payloadHash: Option<string>,
    created: Moment)

  datatype Intent = Intent(body: IntentBody, signatures: seq<Signature>)

  /** What a signature can be over. */
  datatype Content = DocumentContent(payload: Payload) | IntentContent(body: IntentBody)

  /** The parts of the deployment the model takes as given: signature verification as a function of
      key, content and signature bytes, the feed's own signer, the text of an instant, the signing digest,
      schema validation and the configured freshness window. */
  datatype World = World(
    verify: (string, Content, string) -> bool,
    sign: Content -> string,
    rfc3339: int -> string,
    digest: Payload -> string,
    valid: (Table, Document) -> bool,
    feedKid: string,
    skew: int)

  /** The feed's own signatures verify under its own key. */
  ghost predicate FeedSigns(w: World) {
    forall c: Content :: w.verify(w.feedKid, c, w.sign(c))
  }

  /** The signing digest does not collide, even when compared without regard to case. */
  ghost predicate DigestInjective(w: World) {
    forall p, q :: Fold(w.digest(p)) == Fold(w.digest(q)) ==> p == q
  }

  predicate AllVerify(w: World, content: Content, sigs: seq<Signature>) {
    forall s :: s in sigs ==> w.verify(s.kid, content, s.sig)
  }
}
