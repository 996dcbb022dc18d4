/** Resolving the references of a group or channel: one URI, then a whole list in parallel. */
module Resolution {
  import opened Text
  import opened Documents
  import opened CoSigning
  import opened Authorization
  import opened OwnershipLaws
  import opened Batches
  import opened StoreModel

  datatype Result<+T, +E> = Ok(value: T) | Err(error: E)

  // ---------------------------------------------------------------------------------------
  // One reference
  // ---------------------------------------------------------------------------------------

  datatype FetchError = BlockedDestination | Oversized | Status(code: int) | NoResponse

  /** What an origin served: bytes that are not JSON or no schema-valid playlist still may name an id. */
  datatype Body = NotAPlaylist(id: Option<nat>) | Playlist(doc: Document)

  datatype Fetch = Fetched(body: Body) | Failed(error: FetchError)

  datatype ResolveError =
    | EmptyUri
    | InvalidLocalUrl
    | LocalNotFound
    | NoFetcher
    | FetchError(error: FetchError)
    | NotAcceptable
    | Cancelled
    | ResolvedTooLarge

  /** How a feed is set up for resolution. `prefix` is the base of its own playlist URLs, empty when it has
      no public base; `find` is the lookup of a playlist by the id or slug in such a URL. */
  datatype Feed = Feed(prefix: string, find: (Tables, string) -> Option<nat>, fetch: Option<string -> Fetch>)

  /** The lookup finds live playlists only. */
  ghost predicate FindsLive(feed: Feed) {
    forall t, key :: feed.find(t, key).Some? ==> PlaylistKey(feed.find(t, key).value) in t.rows
  }

  /** Whether a failed fetch means the origin could not be reached, rather than that it answered. */
  predicate OriginUnavailable(e: FetchError) {
    match e
    case BlockedDestination => false
    case Oversized => false
    case Status(code) => code == 429 || code >= 500
    case NoResponse => true
  }

  function StoredAs(t: Tables, id: nat, uri: string): Ingested
    requires PlaylistKey(id) in t.rows
  {
    var row := t.rows[PlaylistKey(id)];
    Ingested(id, row.slug, row.body, uri)
  }

  /** What the URI last resolved to, while that playlist lives. */
  function LastKnown(t: Tables, uri: string): Option<Ingested> {
    if uri in t.sources && PlaylistKey(t.sources[uri]) in t.rows then Some(StoredAs(t, t.sources[uri], uri)) else None
  }

  function LastKnownOr(t: Tables, uri: string, error: ResolveError): Result<Ingested, ResolveError> {
    if LastKnown(t, uri).Some? then Ok(LastKnown(t, uri).value) else Err(error)
  }

  function ProbeId(body: Body): Option<nat> {
    match body
    case NotAPlaylist(id) => id
    case Playlist(doc) => doc.payload.id
  }

  predicate IsLocal(feed: Feed, uri: string) {
    feed.prefix != "" && feed.prefix <= uri
  }

  function ResolveOne(w: World, feed: Feed, t: Tables, raw: string, now: int): Result<Ingested, ResolveError> {
    var uri := Trim(raw);
    if uri == "" then Err(EmptyUri)
    else if IsLocal(feed, uri) then
      var key := uri[|feed.prefix|..];
      if key == "" then Err(InvalidLocalUrl)
      else if feed.find(t, key).None? || PlaylistKey(feed.find(t, key).value) !in t.rows then Err(LocalNotFound)
      else Ok(StoredAs(t, feed.find(t, key).value, ""))
    else if feed.fetch.None? then LastKnownOr(t, uri, NoFetcher)
    else
      match feed.fetch.value(uri)
      case Failed(e) =>
        var error := ResolveError.FetchError(e);
        if OriginUnavailable(e) then LastKnownOr(t, uri, error) else Err(error)
      case Fetched(body) =>
        if ProbeId(body).Some? && PlaylistKey(ProbeId(body).value) in t.rows then
          Ok(StoredAs(t, ProbeId(body).value, uri))
        else
          match body
          case NotAPlaylist(_) => Err(NotAcceptable)
          case Playlist(doc) =>
            if AuthorizeIngest(w, doc, now).Pass? then Ok(Ingested(doc.payload.id.value, doc.payload.slug, doc, uri))
            else Err(NotAcceptable)
  }

  /** The answer is a row of the store as it stands. */
  predicate IsStored(t: Tables, ing: Ingested) {
    PlaylistKey(ing.id) in t.rows && ing == StoredAs(t, ing.id, ing.sourceUri)
  }

  /** What the origin of a remote URI has to say. */
  datatype Origin = Unreachable | Withheld | Serves(body: Body)

  /** No fetcher at all is an origin that cannot be reached, and so is one that does not answer, that fails,
      or that asks to come back later. Any other answer is an answer. */
  function OriginOf(feed: Feed, uri: string): Origin {
    match feed.fetch
    case None => Unreachable
    case Some(fetch) =>
      match fetch(uri)
      case Fetched(body) => Serves(body)
      case Failed(e) =>
        if e == NoResponse || (e.Status? && (e.code == 429 || e.code >= 500)) then Unreachable else Withheld
  }

  /** The stored playlist a URI leads to, if it leads to one: a local URL by its key, an unreachable origin
      by what was last recorded for the URI, a served body by the id it names. */
  function LeadsTo(feed: Feed, t: Tables, uri: string): Option<nat> {
    if IsLocal(feed, uri) then
      if |uri| == |feed.prefix| then None else feed.find(t, uri[|feed.prefix|..])
    else
      match OriginOf(feed, uri)
      case Unreachable => if uri in t.sources then Some(t.sources[uri]) else None
      case Withheld => None
      case Serves(body) => ProbeId(body)
  }

  /** A URI resolves exactly in two ways, on every feed, with or without a fetcher: to the stored playlist
      it leads to, exactly as stored, whatever a served body says beyond its id; or, when it leads to none,
      to the document its origin serves, if that clears the create bar as served. So what was recorded
      earlier answers exactly for an origin that cannot be reached, never against what an origin says. A
      remote answer is recorded under the trimmed URI, a local one under none. */
  lemma ResolvesExactly(w: World, feed: Feed, t: Tables, raw: string, now: int, ing: Ingested)
    ensures var uri := Trim(raw);
            var led := LeadsTo(feed, t, uri);
            ResolveOne(w, feed, t, raw, now) == Ok(ing)
            <==>
            && uri != ""
            && ing.sourceUri == (if IsLocal(feed, uri) then "" else uri)
            && if led.Some? && PlaylistKey(led.value) in t.rows then ing.id == led.value && IsStored(t, ing)
               else
                 && !IsLocal(feed, uri) && OriginOf(feed, uri).Serves?
                 && OriginOf(feed, uri).body == Playlist(ing.body)
                 && ReferenceOk(w, Reference(ing, false, now))
  {
  }

  /** So every answer is a row as it stands or fit to be stored. */
  lemma ResolvedIsOk(w: World, feed: Feed, t: Tables, raw: string, now: int, ing: Ingested)
    requires ResolveOne(w, feed, t, raw, now) == Ok(ing)
    ensures ReferenceOk(w, Reference(ing, IsStored(t, ing), now))
    ensures ing.sourceUri == if IsLocal(feed, Trim(raw)) then "" else Trim(raw)
  {
    ResolvesExactly(w, feed, t, raw, now, ing);
  }

  // Case by case, on the fields alone.

  lemma EmptyUriRefused(w: World, feed: Feed, t: Tables, raw: string, now: int)
    requires Trim(raw) == ""
    ensures ResolveOne(w, feed, t, raw, now) == Err(EmptyUri)
  {
  }

  /** A URL of the feed's own resolves exactly when the lookup of what follows the prefix names a live
      playlist: to its row, recorded under no URI. */
  lemma LocalUrlMeans(w: World, feed: Feed, t: Tables, raw: string, now: int, ing: Ingested)
    requires feed.prefix != "" && feed.prefix <= Trim(raw)
    ensures var key := Trim(raw)[|feed.prefix|..];
            ResolveOne(w, feed, t, raw, now) == Ok(ing)
            <==> key != "" && feed.find(t, key) == Some(ing.id) && PlaylistKey(ing.id) in t.rows
                 && ing.slug == t.rows[PlaylistKey(ing.id)].slug && ing.body == t.rows[PlaylistKey(ing.id)].body
                 && ing.sourceUri == ""
    ensures ResolveOne(w, feed, t, raw, now) == Err(InvalidLocalUrl) <==> |feed.prefix| == |Trim(raw)|
    ensures ResolveOne(w, feed, t, raw, now).Err? && |feed.prefix| < |Trim(raw)| ==>
              ResolveOne(w, feed, t, raw, now) == Err(LocalNotFound)
  {
  }

  /** A fetch that fails is answered from the record exactly when there was no response, or status 429 or
      500 and up, and the playlist recorded for the URI is live: with its row as stored. Any other status,
      a blocked destination and an oversized body are never answered from the record. */
  lemma FailedFetchMeans(w: World, feed: Feed, fetch: string -> Fetch, t: Tables, raw: string, now: int, e: FetchError,
                         ing: Ingested)
    requires Trim(raw) != "" && !(feed.prefix != "" && feed.prefix <= Trim(raw))
    requires feed.fetch == Some(fetch) && fetch(Trim(raw)) == Failed(e)
    ensures var uri := Trim(raw);
            ResolveOne(w, feed, t, raw, now) == Ok(ing)
            <==> (e == NoResponse || (e.Status? && (e.code == 429 || e.code >= 500)))
                 && uri in t.sources && t.sources[uri] == ing.id && PlaylistKey(ing.id) in t.rows
                 && ing.slug == t.rows[PlaylistKey(ing.id)].slug && ing.body == t.rows[PlaylistKey(ing.id)].body
                 && ing.sourceUri == uri
    ensures ResolveOne(w, feed, t, raw, now).Err? ==>
              ResolveOne(w, feed, t, raw, now) == Err(ResolveError.FetchError(e))
  {
  }

  /** Without a fetcher the record answers whenever the recorded playlist is live. */
  lemma NoFetcherMeans(w: World, feed: Feed, t: Tables, raw: string, now: int, ing: Ingested)
    requires Trim(raw) != "" && !(feed.prefix != "" && feed.prefix <= Trim(raw)) && feed.fetch.None?
    ensures var uri := Trim(raw);
            ResolveOne(w, feed, t, raw, now) == Ok(ing)
            <==> uri in t.sources && t.sources[uri] == ing.id && PlaylistKey(ing.id) in t.rows
                 && ing.slug == t.rows[PlaylistKey(ing.id)].slug && ing.body == t.rows[PlaylistKey(ing.id)].body
                 && ing.sourceUri == uri
    ensures ResolveOne(w, feed, t, raw, now).Err? ==> ResolveOne(w, feed, t, raw, now) == Err(NoFetcher)
  {
  }

  /** The id a served body names: that of the playlist it is, or whatever id it carries. */
  ghost predicate NamesId(body: Body, id: nat) {
    (body.NotAPlaylist? && body.id == Some(id)) || (body.Playlist? && body.doc.payload.id == Some(id))
  }

  /** A served body that names a live playlist links that playlist's row, whatever else it says. */
  lemma ServedStoredId(w: World, feed: Feed, fetch: string -> Fetch, t: Tables, raw: string, now: int, body: Body,
                       id: nat)
    requires Trim(raw) != "" && !(feed.prefix != "" && feed.prefix <= Trim(raw))
    requires feed.fetch == Some(fetch) && fetch(Trim(raw)) == Fetched(body)
    requires NamesId(body, id) && PlaylistKey(id) in t.rows
    ensures ResolveOne(w, feed, t, raw, now)
         == Ok(Ingested(id, t.rows[PlaylistKey(id)].slug, t.rows[PlaylistKey(id)].body, Trim(raw)))
  {
  }

  /** Any other served body is taken exactly when it is a playlist that clears the create bar, as served. */
  lemma ServedNewDocument(w: World, feed: Feed, fetch: string -> Fetch, t: Tables, raw: string, now: int, body: Body,
                          ing: Ingested)
    requires Trim(raw) != "" && !(feed.prefix != "" && feed.prefix <= Trim(raw))
    requires feed.fetch == Some(fetch) && fetch(Trim(raw)) == Fetched(body)
    requires forall id :: NamesId(body, id) ==> PlaylistKey(id) !in t.rows
    ensures ResolveOne(w, feed, t, raw, now) == Ok(ing)
       <==> && body == Playlist(ing.body) && AuthorizeIngest(w, ing.body, now).Pass?
            && ing.body.payload.id == Some(ing.id) && ing.slug == ing.body.payload.slug && ing.sourceUri == Trim(raw)
    ensures ResolveOne(w, feed, t, raw, now).Err? ==> ResolveOne(w, feed, t, raw, now) == Err(NotAcceptable)
  {
    if body.Playlist? && body.doc.payload.id.Some? {
      assert NamesId(body, body.doc.payload.id.value);
    }
    if body.NotAPlaylist? && body.id.Some? {
      assert NamesId(body, body.id.value);
    }
  }

  // ---------------------------------------------------------------------------------------
  // Planning a list
  // ---------------------------------------------------------------------------------------

  const MAX_PLAYLIST_URI_LEN: nat := 2048

  datatype PlanError = NoReferences | TooManyReferences | UriTooLong(position: nat)

  /** The distinct trimmed URIs in order of first occurrence, and the positions of each. */
  datatype Plan = Plan(order: seq<string>, positions: map<string, seq<nat>>)

  function Keys(uris: seq<string>): seq<string> {
    seq(|uris|, i requires 0 <= i < |uris| => Trim(uris[i]))
  }

  ghost predicate Ordered(s: seq<nat>) {
    forall i, j :: 0 <= i < j < |s| ==> s[i] < s[j]
  }

  /** The plan for a list of keys. */
  ghost predicate Plans(keys: seq<string>, plan: Plan) {
    && (forall u :: u in plan.positions <==> u in keys)
    && (forall u :: u in plan.order <==> u in keys)
    && (forall i, j :: 0 <= i < j < |plan.order| ==> plan.order[i] != plan.order[j])
    && (forall u :: u in plan.positions ==>
          && Ordered(plan.positions[u])
          && forall i :: i in plan.positions[u] <==> 0 <= i < |keys| && keys[i] == u)
  }

  /** u occurs before v first does. */
  ghost predicate Precedes(keys: seq<string>, u: string, v: string) {
    exists i :: 0 <= i < |keys| && keys[i] == u && v !in keys[..i]
  }

  /** First-occurrence order: each URI of the order occurs before the later ones first do. */
  ghost predicate FirstOrder(keys: seq<string>, order: seq<string>) {
    forall a, b :: 0 <= a < b < |order| ==> Precedes(keys, order[a], order[b])
  }

  /** Why a list is refused before any fetch, if it is. */
  function Admit(uris: seq<string>, maxRefs: int): (e: Option<PlanError>)
    ensures e.None? <==>
              && uris != [] && (maxRefs > 0 ==> |uris| <= maxRefs)
              && forall i :: 0 <= i < |uris| ==> |uris[i]| <= 2048
    ensures e == Some(NoReferences) <==> uris == []
    ensures e == Some(TooManyReferences) <==> uris != [] && 0 < maxRefs < |uris|
    ensures e.Some? && e.value.UriTooLong? ==>
              && e.value.position < |uris| && |uris[e.value.position]| > 2048
              && forall j :: 0 <= j < e.value.position ==> |uris[j]| <= 2048
  {
    if uris == [] then Some(NoReferences)
    else if maxRefs > 0 && |uris| > maxRefs then Some(TooManyReferences)
    else FirstTooLong(uris, 0)
  }

  function FirstTooLong(uris: seq<string>, i: nat): (e: Option<PlanError>)
    requires i <= |uris|
    ensures e.None? <==> forall j :: i <= j < |uris| ==> |uris[j]| <= MAX_PLAYLIST_URI_LEN
    ensures e.Some? ==>
              && e.value.UriTooLong? && i <= e.value.position < |uris|
              && |uris[e.value.position]| > MAX_PLAYLIST_URI_LEN
              && forall j :: i <= j < e.value.position ==> |uris[j]| <= MAX_PLAYLIST_URI_LEN
    decreases |uris| - i
  {
    if i == |uris| then None
    else if |uris[i]| > MAX_PLAYLIST_URI_LEN then Some(UriTooLong(i))
    else FirstTooLong(uris, i + 1)
  }

  /** The plan with one more key. */
  function Grown(keys: seq<string>, plan: Plan, key: string): Plan {
    if key !in plan.positions then Plan(plan.order + [key], plan.positions[key := [|keys|]])
    else Plan(plan.order, plan.positions[key := plan.positions[key] + [|keys|]])
  }

  lemma PlanGrows(keys: seq<string>, plan: Plan, key: string)
    requires Plans(keys, plan)
    ensures Plans(keys + [key], Grown(keys, plan, key))
  {
    var plan', keys' := Grown(keys, plan, key), keys + [key];
    forall u | u in plan'.positions
      ensures Ordered(plan'.positions[u]) && forall i :: i in plan'.positions[u] <==> 0 <= i < |keys'| && keys'[i] == u
    {
      if u == key && key in plan.positions {
        var at := plan.positions[key];
        assert forall i :: i in plan'.positions[u] <==> i in at || i == |keys|;
        assert forall i :: 0 <= i < |at| ==> at[i] in at;
      }
    }
  }

  lemma PrecedesStays(keys: seq<string>, key: string, u: string, v: string)
    requires Precedes(keys, u, v) || (u in keys && v !in keys)
    ensures Precedes(keys + [key], u, v)
  {
    var i :| 0 <= i < |keys| && keys[i] == u && v !in keys[..i];
    assert (keys + [key])[..i] == keys[..i] && (keys + [key])[i] == u;
  }

  lemma PlanKeepsOrder(keys: seq<string>, plan: Plan, key: string)
    requires Plans(keys, plan) && FirstOrder(keys, plan.order)
    ensures FirstOrder(keys + [key], Grown(keys, plan, key).order)
  {
    var order' := Grown(keys, plan, key).order;
    forall a, b | 0 <= a < b < |order'|
      ensures Precedes(keys + [key], order'[a], order'[b])
    {
      assert order'[a] == plan.order[a] && plan.order[a] in plan.order;
      PrecedesStays(keys, key, order'[a], order'[b]);
    }
  }

  /** The plan for the first n URIs. */
  function PlanOf(uris: seq<string>, n: nat): Plan
    requires n <= |uris|
  {
    if n == 0 then Plan([], map[]) else Grown(Keys(uris[..n - 1]), PlanOf(uris, n - 1), Trim(uris[n - 1]))
  }

  lemma GrownGroups(keys: seq<string>, plan: Plan, key: string)
    requires Plans(keys, plan) && FirstOrder(keys, plan.order)
    ensures Plans(keys + [key], Grown(keys, plan, key)) && FirstOrder(keys + [key], Grown(keys, plan, key).order)
  {
    PlanGrows(keys, plan, key);
    PlanKeepsOrder(keys, plan, key);
  }

  lemma KeysSnoc(uris: seq<string>, n: nat)
    requires 0 < n <= |uris|
    ensures Keys(uris[..n]) == Keys(uris[..n - 1]) + [Trim(uris[n - 1])]
  {
  }

  /** A plan groups exactly the positions of each trimmed URI, in first-occurrence order. */
  lemma {:induction false} PlanOfGroups(uris: seq<string>, n: nat)
    requires n <= |uris|
    ensures Plans(Keys(uris[..n]), PlanOf(uris, n)) && FirstOrder(Keys(uris[..n]), PlanOf(uris, n).order)
  {
    if n > 0 {
      PlanOfGroups(uris, n - 1);
      GrownGroups(Keys(uris[..n - 1]), PlanOf(uris, n - 1), Trim(uris[n - 1]));
      KeysSnoc(uris, n);
    }
  }

  /** Refuses a list before any fetch, or groups its positions by trimmed URI. The length bound is on the
      URI as submitted, padding included. */
  method PlanReferences(uris: seq<string>, maxRefs: int) returns (r: Result<Plan, PlanError>)
    ensures if r.Err? then Admit(uris, maxRefs) == Some(r.error) else Admit(uris, maxRefs).None?
    ensures r.Ok? ==> Plans(Keys(uris), r.value) && FirstOrder(Keys(uris), r.value.order)
  {
    if uris == [] {
      return Err(NoReferences);
    }
    if maxRefs > 0 && |uris| > maxRefs {
      return Err(TooManyReferences);
    }
    var positions: map<string, seq<nat>> := map[];
    var order: seq<string> := [];
    for i := 0 to |uris|
      invariant FirstTooLong(uris, 0) == FirstTooLong(uris, i)
      invariant Plan(order, positions) == PlanOf(uris, i)
    {
      if |uris[i]| > MAX_PLAYLIST_URI_LEN {
        return Err(UriTooLong(i));
      }
      var key := Trim(uris[i]);
      if key !in positions {
        order := order + [key];
        positions := positions[key := [i]];
      } else {
        positions := positions[key := positions[key] + [i]];
      }
    }
    PlanOfGroups(uris, |uris|);
    assert uris[..|uris|] == uris;
    r := Ok(Plan(order, positions));
  }

  lemma FirstBefore(uris: seq<string>, u: string, v: string)
    requires Precedes(Keys(uris), u, v) && u != v
    ensures exists i :: 0 <= i < |uris| && Trim(uris[i]) == u && forall j :: 0 <= j <= i ==> Trim(uris[j]) != v
  {
    var keys := Keys(uris);
    var i :| 0 <= i < |keys| && keys[i] == u && v !in keys[..i];
    forall j | 0 <= j <= i
      ensures Trim(uris[j]) != v
    {
      assert j < i ==> keys[..i][j] == Trim(uris[j]);
    }
  }

  /** A plan names each URI of the list, and says under it at which positions the list has it. */
  lemma PlanMeans(uris: seq<string>, plan: Plan, u: string, i: nat)
    requires Plans(Keys(uris), plan)
    ensures u in plan.order <==> exists k :: 0 <= k < |uris| && Trim(uris[k]) == u
    ensures u in plan.positions <==> u in plan.order
    ensures u in plan.positions ==> (i in plan.positions[u] <==> i < |uris| && Trim(uris[i]) == u)
  {
    assert i < |uris| ==> Keys(uris)[i] == Trim(uris[i]);
    if k :| 0 <= k < |uris| && Trim(uris[k]) == u {
      assert Keys(uris)[k] == u;
    }
    if u in Keys(uris) {
      var k :| 0 <= k < |uris| && Keys(uris)[k] == u;
      assert Trim(uris[k]) == u;
    }
  }

  /** It names each once, in the order in which the list first has them. */
  lemma PlanOrderMeans(uris: seq<string>, plan: Plan, a: nat, b: nat)
    requires Plans(Keys(uris), plan) && FirstOrder(Keys(uris), plan.order) && a < b < |plan.order|
    ensures plan.order[a] != plan.order[b]
    ensures exists i :: 0 <= i < |uris| && Trim(uris[i]) == plan.order[a]
              && forall j :: 0 <= j <= i ==> Trim(uris[j]) != plan.order[b]
  {
    FirstBefore(uris, plan.order[a], plan.order[b]);
  }
}
