/** The remote item client and the auth client. Each HTTP exchange is abstracted:
    a request is the JSON payload it would send, a response is an ok flag, a status
    text and the parsed body (or the fact that the body is not JSON). */
module Api {
  import opened Common
  import opened Items
  import Session

  /** A parsed JSON body, as far as the client looks into it. An `Object` exposes the
      record fields the normalizer reads, its `data` property (`JsonNull` when null or
      absent) and its `message` property. Arrays and scalars have none of these. */
  datatype Body =
    | JsonNull
    | Scalar
    | Array(elems: seq<Body>)
    | Object(record: ApiRecord, data: Body, message: Field<string>)

  /** The outcome of `fetch`: it rejects (network failure) or yields a response
      whose body `json` is `None` when `response.json()` would reject. */
  datatype Reply =
    | NetworkFailure
    | Response(ok: bool, statusText: string, json: Option<Body>)

  /** A JSON request body with string values. */
  type Payload = map<string, string>

  /** The errors this layer throws: the session guard, a rejected sign-in/sign-up
      (message from the body or the status text), and errors raised by the runtime
      itself (network failure, malformed JSON, a property read on null). */
  datatype Failure = NotAuthenticated | AuthFailed(message: string) | RuntimeError

  datatype Result<T> = Ok(value: T) | Err(failure: Failure)

  /** A request that was sent, with what the call returned for it. */
  datatype Sent<T> = Sent(request: Payload, result: T)

  /** A list call: the request it sent (none when the guard stopped it) and the items. */
  datatype Listing = Listing(request: Option<Payload>, items: seq<Item>)

  /** The message of a thrown `Error`, when the model knows it. */
  function FailureMessage(f: Failure): Option<string> {
    match f
    case NotAuthenticated => Some("Not authenticated")
    case AuthFailed(m) => Some(m)
    case RuntimeError => None
  }

  function OwnerPayload(ownerId: string): Payload {
    map["owner_id" := ownerId]
  }

  /** The parsed body of a successful response; `None` on every failure path
      (network failure, non-ok status, body that is not JSON). */
  function SuccessBody(reply: Reply): (r: Option<Body>)
    ensures r.Some? <==> reply.Response? && reply.ok && reply.json.Some?
    ensures r.Some? ==> r.value == reply.json.value
  {
    if reply.Response? && reply.ok then reply.json else None
  }

  /** `Array.isArray(data) ? data : Array.isArray(data?.data) ? data.data : []` */
  function ListedBodies(b: Body): seq<Body> {
    match b
    case Array(es) => es
    case Object(_, Array(es), _) => es
    case _ => []
  }

  /** `Array.isArray(data.data) ? data.data : []` (reading `.data` of null throws, which
      the caller turns into `[]` as well). */
  function EnvelopedBodies(b: Body): seq<Body> {
    match b
    case Object(_, Array(es), _) => es
    case _ => []
  }

  /** The fields of a body as the normalizer sees them. */
  function AsRecord(b: Body): Option<ApiRecord> {
    if b.Object? then Some(b.record) else None
  }

  /** `items.map(normalizeWishlistItem)`; element i gets `fallback(i)` as its fallback id. */
  function NormalizeAll(bodies: seq<Body>, fallback: nat -> string): (r: seq<Item>)
    ensures |r| == |bodies|
    ensures forall i :: 0 <= i < |r| ==> r[i] == Normalize(AsRecord(bodies[i]), fallback(i))
    ensures forall i :: 0 <= i < |r| ==> r[i].source == Api
  {
    seq(|bodies|, i requires 0 <= i < |bodies| => Normalize(AsRecord(bodies[i]), fallback(i)))
  }

  /** What a successful list response yields, in either accepted shape. */
  function ListedItems(reply: Reply, fallback: nat -> string): seq<Item> {
    match SuccessBody(reply)
    case None => []
    case Some(b) => NormalizeAll(ListedBodies(b), fallback)
  }

  /** `fetchWishlistItems()` given the owner id the session holds. */
  function FetchWishlistItems(owner: Option<string>, reply: Reply, fallback: nat -> string): (r: Listing)
    ensures !Session.OwnerUsable(owner) ==> r == Listing(None, [])
    ensures Session.OwnerUsable(owner) ==> r.request == Some(map["owner_id" := owner.value])
    ensures Session.OwnerUsable(owner) && SuccessBody(reply).None? ==> r.items == []
    ensures Session.OwnerUsable(owner) && SuccessBody(reply).Some? ==>
      var b := SuccessBody(reply).value;
      && (b.Array? ==> |r.items| == |b.elems|)
      && (b.Object? && b.data.Array? ==> |r.items| == |b.data.elems|)
      && (!b.Array? && !(b.Object? && b.data.Array?) ==> r.items == [])
      && (forall i :: 0 <= i < |r.items| ==> r.items[i] == Normalize(AsRecord(ListedBodies(b)[i]), fallback(i)))
    ensures forall i :: 0 <= i < |r.items| ==> r.items[i].source == Api
  {
    if !Session.OwnerUsable(owner) then Listing(None, [])
    else Listing(Some(OwnerPayload(owner.value)), ListedItems(reply, fallback))
  }

  /** `fetchPublicWishlist(ownerId)`: no session needed, and only the `{data: [...]}` shape is read. */
  function FetchPublicWishlist(ownerId: string, reply: Reply, fallback: nat -> string): (r: Listing)
    ensures r.request == Some(map["owner_id" := ownerId])
    ensures SuccessBody(reply).None? ==> r.items == []
    ensures SuccessBody(reply).Some? && SuccessBody(reply).value.Array? ==> r.items == []
    ensures SuccessBody(reply).Some? ==>
      r.items == NormalizeAll(EnvelopedBodies(SuccessBody(reply).value), fallback)
  {
    Listing(
      Some(OwnerPayload(ownerId)),
      match SuccessBody(reply)
      case None => []
      case Some(b) => NormalizeAll(EnvelopedBodies(b), fallback))
  }

  /** The two list readers agree on enveloped responses; on a bare array, the public
      reader sees nothing while the owner's reader sees every element. */
  lemma ListReadersCompared(ownerId: string, reply: Reply, fallback: nat -> string)
    requires ownerId != ""
    ensures SuccessBody(reply).Some? && SuccessBody(reply).value.Object? ==>
      FetchPublicWishlist(ownerId, reply, fallback) == FetchWishlistItems(Some(ownerId), reply, fallback)
    ensures SuccessBody(reply).Some? && SuccessBody(reply).value.Array? ==>
      FetchPublicWishlist(ownerId, reply, fallback).items == [] &&
      |FetchWishlistItems(Some(ownerId), reply, fallback).items| == |SuccessBody(reply).value.elems|
  {
  }

  /** `data?.data ?? data` */
  function Unwrap(b: Body): (r: Body)
    ensures b.Object? && !b.data.JsonNull? ==> r == b.data
    ensures !(b.Object? && !b.data.JsonNull?) ==> r == b
  {
    if b.Object? && !b.data.JsonNull? then b.data else b
  }

  /** The item a create or update response yields: the normalized `data?.data ?? data`,
      or null (`None`) when the call failed. */
  function ItemFromReply(reply: Reply, fallbackId: string): (r: Option<Item>)
    ensures r.None? <==> SuccessBody(reply).None?
    ensures r.Some? ==> r.value == Normalize(AsRecord(Unwrap(SuccessBody(reply).value)), fallbackId)
    ensures r.Some? ==> r.value.source == Api
  {
    match SuccessBody(reply)
    case None => None
    case Some(b) => Some(Normalize(AsRecord(Unwrap(b)), fallbackId))
  }

  /** `{...item, imageUrl: item.imageurl, productUrl: item.producturl, owner_id}` */
  function CreatePayload(dto: CreateDto, ownerId: string): (p: Payload)
    ensures p.Keys == {"title", "imageurl", "producturl", "imageUrl", "productUrl", "owner_id"}
    ensures p["title"] == dto.title && p["owner_id"] == ownerId
    ensures p["imageurl"] == p["imageUrl"] == dto.imageurl
    ensures p["producturl"] == p["productUrl"] == dto.producturl
  {
    map["title" := dto.title, "imageurl" := dto.imageurl, "producturl" := dto.producturl,
        "imageUrl" := dto.imageurl, "productUrl" := dto.producturl, "owner_id" := ownerId]
  }

  /** `createWishlistItem(item)` given the owner id the session holds. */
  function CreateWishlistItem(owner: Option<string>, dto: CreateDto, reply: Reply, fallbackId: string): (r: Result<Sent<Option<Item>>>)
    ensures r.Err? <==> !Session.OwnerUsable(owner)
    ensures r.Err? ==> r.failure == NotAuthenticated
    ensures r.Ok? ==> r.value.request == CreatePayload(dto, owner.value)
    ensures r.Ok? ==> r.value.result == ItemFromReply(reply, fallbackId)
  {
    if !Session.OwnerUsable(owner) then Err(NotAuthenticated)
    else Ok(Sent(CreatePayload(dto, owner.value), ItemFromReply(reply, fallbackId)))
  }

  /** The keys an update payload carries for the given partial update. */
  function UpdateKeys(updates: UpdateDto): set<string> {
    {"id", "owner_id"}
    + (if updates.title.Some? then {"title"} else {})
    + (if updates.imageurl.Some? then {"imageurl", "imageUrl"} else {})
    + (if updates.producturl.Some? then {"producturl", "productUrl"} else {})
  }

  /** An update payload: `id` and `owner_id` always, each supplied field under both
      spellings, and nothing else. */
  predicate IsUpdatePayload(p: Payload, id: string, ownerId: string, updates: UpdateDto) {
    && p.Keys == UpdateKeys(updates)
    && p["id"] == id && p["owner_id"] == ownerId
    && (updates.title.Some? ==> p["title"] == updates.title.value)
    && (updates.imageurl.Some? ==> p["imageurl"] == updates.imageurl.value && p["imageUrl"] == updates.imageurl.value)
    && (updates.producturl.Some? ==> p["producturl"] == updates.producturl.value && p["productUrl"] == updates.producturl.value)
  }

  /** The payload of `updateWishlistItem`, built key by key. */
  method BuildUpdatePayload(id: string, ownerId: string, updates: UpdateDto) returns (payload: Payload)
    ensures IsUpdatePayload(payload, id, ownerId, updates)
    ensures "title" in payload <==> updates.title.Some?
    ensures "imageurl" in payload <==> updates.imageurl.Some?
    ensures "imageUrl" in payload <==> updates.imageurl.Some?
    ensures "producturl" in payload <==> updates.producturl.Some?
    ensures "productUrl" in payload <==> updates.producturl.Some?
  {
    payload := map["id" := id, "owner_id" := ownerId];
    if updates.title.Some? {
      payload := payload["title" := updates.title.value];
    }
    if updates.imageurl.Some? {
      payload := payload["imageurl" := updates.imageurl.value];
      payload := payload["imageUrl" := updates.imageurl.value];
    }
    if updates.producturl.Some? {
      payload := payload["producturl" := updates.producturl.value];
      payload := payload["productUrl" := updates.producturl.value];
    }
  }

  /** An empty update sends exactly `{id, owner_id}`. */
  lemma EmptyUpdatePayload(p: Payload, id: string, ownerId: string)
    requires IsUpdatePayload(p, id, ownerId, UpdateDto(None, None, None))
    ensures p == map["id" := id, "owner_id" := ownerId]
  {
    var q := map["id" := id, "owner_id" := ownerId];
    assert p.Keys == q.Keys;
    forall k | k in p ensures p[k] == q[k] {
      assert k == "id" || k == "owner_id";
    }
  }

  /** An update that supplies every field (as the item form always does) carries all six keys. */
  lemma FullUpdatePayload(p: Payload, id: string, ownerId: string, dto: CreateDto)
    requires IsUpdatePayload(p, id, ownerId, UpdateDto(Some(dto.title), Some(dto.imageurl), Some(dto.producturl)))
    ensures p.Keys == {"id", "owner_id", "title", "imageurl", "imageUrl", "producturl", "productUrl"}
    ensures p == CreatePayload(dto, ownerId) - {"owner_id"} + map["id" := id, "owner_id" := ownerId]
  {
    var q := CreatePayload(dto, ownerId) - {"owner_id"} + map["id" := id, "owner_id" := ownerId];
    assert q.Keys == p.Keys;
    forall k | k in p ensures p[k] == q[k] {
      assert k in {"id", "owner_id", "title", "imageurl", "imageUrl", "producturl", "productUrl"};
    }
  }

  /** `updateWishlistItem(id, updates)` given the owner id the session holds. */
  method UpdateWishlistItem(owner: Option<string>, id: string, updates: UpdateDto, reply: Reply, fallbackId: string)
    returns (r: Result<Sent<Option<Item>>>)
    ensures r.Err? <==> !Session.OwnerUsable(owner)
    ensures r.Err? ==> r.failure == NotAuthenticated
    ensures r.Ok? ==> IsUpdatePayload(r.value.request, id, owner.value, updates)
    ensures r.Ok? ==> r.value.result == ItemFromReply(reply, fallbackId)
  {
    if !Session.OwnerUsable(owner) {
      return Err(NotAuthenticated);
    }
    var payload := BuildUpdatePayload(id, owner.value, updates);
    r := Ok(Sent(payload, ItemFromReply(reply, fallbackId)));
  }

  /** `deleteWishlistItem(id)`: true iff the response was ok; the body is not read. */
  function DeleteWishlistItem(owner: Option<string>, id: string, reply: Reply): (r: Result<Sent<bool>>)
    ensures r.Err? <==> !Session.OwnerUsable(owner)
    ensures r.Err? ==> r.failure == NotAuthenticated
    ensures r.Ok? ==> r.value.request == map["id" := id, "owner_id" := owner.value]
    ensures r.Ok? ==> (r.value.result <==> reply.Response? && reply.ok)
  {
    if !Session.OwnerUsable(owner) then Err(NotAuthenticated)
    else Ok(Sent(map["id" := id, "owner_id" := owner.value], reply.Response? && reply.ok))
  }

  /** Every item call refuses a missing or empty owner id before sending anything. */
  lemma RequestsNeedUsableOwner(owner: Option<string>, id: string, dto: CreateDto, reply: Reply, fallback: nat -> string)
    requires !Session.OwnerUsable(owner)
    ensures CreateWishlistItem(owner, dto, reply, fallback(0)) == Err(NotAuthenticated)
    ensures DeleteWishlistItem(owner, id, reply) == Err(NotAuthenticated)
    ensures FetchWishlistItems(owner, reply, fallback) == Listing(None, [])
  {
  }

  // ---- authentication ----

  datatype AuthKind = SignIn | SignUp

  /** What the user types: sent verbatim as the request body. */
  datatype Credentials = Credentials(login: string, password: string)

  /** The parsed success body and the string `setOwnerId(data.id)` stored. */
  datatype AuthResponse = AuthResponse(body: Body, storedId: string)

  function CredentialsPayload(c: Credentials): Payload {
    map["login" := c.login, "password" := c.password]
  }

  function FailurePrefix(kind: AuthKind): string {
    match kind
    case SignIn => "Sign in failed: "
    case SignUp => "Signup failed: "
  }

  /** `(await response.json().catch(() => ({})))?.message` */
  function ErrorBodyMessage(json: Option<Body>): Field<string> {
    match json
    case Some(Object(_, _, m)) => m
    case _ => Undefined
  }

  /** `String(v)`, as local storage stores any value it is given. */
  function StoredString(f: Field<IdValue>): string {
    match f
    case Undefined => "undefined"
    case Null => "null"
    case Val(v) => IdString(v)
  }

  /** The message of a failed sign-in or sign-up: the body's truthy `message`, else
      the prefix followed by the status text. */
  function AuthFailureMessage(kind: AuthKind, json: Option<Body>, statusText: string): (m: string)
    ensures ErrorBodyMessage(json).Val? && ErrorBodyMessage(json).value != "" ==> m == ErrorBodyMessage(json).value
    ensures !(ErrorBodyMessage(json).Val? && ErrorBodyMessage(json).value != "") ==> m == FailurePrefix(kind) + statusText
  {
    var msg := ErrorBodyMessage(json);
    if msg.Val? && msg.value != "" then msg.value else FailurePrefix(kind) + statusText
  }

  /** The result of `signIn`/`signUp` for a reply. */
  function AuthResult(kind: AuthKind, reply: Reply): (r: Result<AuthResponse>)
    ensures reply.Response? && !reply.ok <==> r.Err? && r.failure.AuthFailed?
    ensures reply.Response? && !reply.ok ==> r == Err(AuthFailed(AuthFailureMessage(kind, reply.json, reply.statusText)))
    ensures r.Ok? <==> SuccessBody(reply).Some? && !SuccessBody(reply).value.JsonNull?
    ensures r.Ok? ==> r.value.body == SuccessBody(reply).value
    ensures r.Ok? && r.value.body.Object? && r.value.body.record.id.Val? ==>
      r.value.storedId == IdString(r.value.body.record.id.value)
  {
    match reply
    case NetworkFailure => Err(RuntimeError)
    case Response(ok, statusText, json) =>
      if !ok then Err(AuthFailed(AuthFailureMessage(kind, json, statusText)))
      else match json
        case None => Err(RuntimeError)
        case Some(JsonNull) => Err(RuntimeError)
        case Some(Object(rec, d, m)) => Ok(AuthResponse(Object(rec, d, m), StoredString(rec.id)))
        case Some(b) => Ok(AuthResponse(b, "undefined"))
  }

  /** `signIn(credentials)` / `signUp(credentials)`: on success the returned id becomes
      the session's owner id; on any failure the session is left as it was. */
  method Authenticate(store: Session.Store, kind: AuthKind, credentials: Credentials, reply: Reply)
    returns (request: Payload, r: Result<AuthResponse>)
    modifies store
    ensures request == CredentialsPayload(credentials)
    ensures r == AuthResult(kind, reply)
    ensures r.Ok? ==> store.slot == (if store.inBrowser then Some(r.value.storedId) else old(store.slot))
    ensures r.Err? ==> store.slot == old(store.slot)
  {
    request := CredentialsPayload(credentials);
    r := AuthResult(kind, reply);
    if r.Ok? {
      store.SetOwnerId(r.value.storedId);
    }
  }

  /** The sign-in scenario: a server answering `{id: "42", login: "alice"}` leaves the
      owner id "42", and the next list call sends `{owner_id: "42"}`. */
  lemma SignInThenListScenario(rec: ApiRecord, listReply: Reply, fallback: nat -> string)
    requires rec.id == Val(IdText("42"))
    ensures var r := AuthResult(SignIn, Response(true, "OK", Some(Object(rec, JsonNull, Undefined))));
      r.Ok? && r.value.storedId == "42" &&
      FetchWishlistItems(Some(r.value.storedId), listReply, fallback).request == Some(map["owner_id" := "42"])
  {
  }
}
