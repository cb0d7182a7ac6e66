/**
 * src/index.ts: the API-key gate on the secure routes, the create-or-fetch POST
 * handler, the DELETE handler, the existence probe and the public redirect.
 *
 * Each request is one sequential transition of a `World` (the key-value store
 * `STORAGE`, the object store `CDN_BUCKET` and the process cache). The pure
 * functions below give that transition as an `Outcome`: the store writes in
 * the order the handler issues them, the cache afterwards and the response.
 * The `Vault` class performs the same steps in place and is proved to match.
 */
module Vault {
  import opened Wrappers
  import opened JsValues
  import opened Http
  import opened Platform
  import opened Util

  /** The worker's bindings and the libraries it calls. `API_KEY` may be unset. */
  datatype Env = Env(pf: Platform, apiKey: Option<string>, publicAddress: string)

  /** The four routes, after Hono has matched them. */
  datatype Request =
    | PostSecure(authorization: Option<string>, id: string, mode: Option<string>, body: JsValue)
    | DeleteSecure(authorization: Option<string>, id: string, body: JsValue)
    | GetSecure(authorization: Option<string>, id: string, body: JsValue)
    | GetPublic(id: string, mode: Option<string>)

  /** One write to a backing store. */
  datatype Op =
    | KvPut(key: string, value: string)
    | KvDelete(key: string)
    | CdnPut(key: string, value: string)
    | CdnDelete(key: string)

  datatype World = World(storage: map<string, string>, cdn: map<string, string>, cache: map<string, string>)

  datatype Outcome = Outcome(ops: seq<Op>, cache: map<string, string>, response: Response)

  function Apply(w: World, op: Op): World {
    match op
    case KvPut(k, v) => w.(storage := w.storage[k := v])
    case KvDelete(k) => w.(storage := w.storage - {k})
    case CdnPut(k, v) => w.(cdn := w.cdn[k := v])
    case CdnDelete(k) => w.(cdn := w.cdn - {k})
  }

  function ApplyAll(w: World, ops: seq<Op>): World
    decreases |ops|
  {
    if ops == [] then w else ApplyAll(Apply(w, ops[0]), ops[1..])
  }

  /** Three writes applied in order. */
  lemma ApplyAllThree(w: World, a: Op, b: Op, c: Op)
    ensures ApplyAll(w, [a, b, c]) == Apply(Apply(Apply(w, a), b), c)
  {
    assert [a, b, c][1..] == [b, c] && [b, c][1..] == [c] && [c][1..] == [];
    var w1 := Apply(w, a);
    var w2 := Apply(w1, b);
    assert ApplyAll(w, [a, b, c]) == ApplyAll(w1, [b, c]);
    assert ApplyAll(w1, [b, c]) == ApplyAll(w2, [c]);
    assert ApplyAll(w2, [c]) == ApplyAll(Apply(w2, c), []);
  }

  /** The world once a request with outcome `o` has run. */
  function After(w: World, o: Outcome): World {
    ApplyAll(w, o.ops).(cache := o.cache)
  }

  /** Object-store key of the published public JWK. */
  function JwkPath(id: string): string { "jwk/" + id }

  /** Object-store key of the published SPKI PEM. */
  function SpkiPath(id: string): string { "jwk/spki/" + id }

  // ---- the API-key middleware ----

  /** `api_key_header !== api_key` is false: both absent, or the same string. */
  predicate ApiKeyAccepted(header: Option<string>, apiKey: Option<string>) {
    match (header, apiKey)
    case (None, None) => true
    case (Some(h), Some(k)) => h == k
    case _ => false
  }

  // ---- POST /secure/:id/:mode? ----

  /** `!mode || mode === "jwk"`: the fetch path answers the parsed JWK without importing it. */
  predicate DefaultMode(mode: Option<string>) {
    mode.None? || mode.value == "" || mode.value == "jwk"
  }

  /**
   * Parsing a stored record and checking the password against its bcrypt hash:
   * the parsed record, or the response that ends the request (a record that does
   * not parse, or whose `password` is not a string so that `compare` rejects,
   * gives 500; a wrong password 401).
   */
  function CheckPassword(pf: Platform, stored: string, password: string): Result<JsValue, Response> {
    match pf.parse(stored)
    case None => Err(InternalServerError)
    case Some(item) =>
      match StringProperty(item, "password")
      case None => Err(InternalServerError)
      case Some(hash) =>
        if pf.bcryptCompare(password, hash) then Ok(item) else Err(Unauthorized)
  }

  /** `base64ToArrayBuffer(item[name])`; `None` when the field is no string or does not decode. */
  function DecodeField(pf: Platform, item: JsValue, name: string): Option<Bytes> {
    match StringProperty(item, name)
    case None => None
    case Some(s) => pf.base64Decode(s)
  }

  /** Decrypting the sealed JWK of a record and parsing it; `None` for any failure. */
  function OpenRecord(pf: Platform, item: JsValue, key: Bytes): Option<JsValue> {
    var iv := DecodeField(pf, item, "iv");
    var sealed := DecodeField(pf, item, "private_jwk");
    if iv.None? || sealed.None? then None
    else
      match pf.decrypt(key, iv.value, sealed.value)
      case None => None
      case Some(plain) => pf.parse(pf.utf8Decode(plain))
  }

  /**
   * The answer of the fetch path for a decrypted JWK: the JWK itself for the
   * default modes; otherwise it is imported first (500 if that fails), then
   * "pem" answers PKCS#8 text and any other mode the JWK.
   */
  function FetchedResponse(pf: Platform, jwk: JsValue, mode: Option<string>): Response {
    if DefaultMode(mode) then Json(200, jwk)
    else
      match pf.importJwk(jwk)
      case None => InternalServerError
      case Some(key) =>
        if mode == Some("pem") then Text(200, pf.exportPkcs8(key)) else Json(200, jwk)
  }

  /** The `try` block of the fetch path: it reads and answers, and writes nothing. */
  function Fetch(pf: Platform, stored: string, key: Bytes, password: string, mode: Option<string>): Response {
    match CheckPassword(pf, stored, password)
    case Err(response) => response
    case Ok(item) =>
      match OpenRecord(pf, item, key)
      case None => InternalServerError
      case Some(jwk) => FetchedResponse(pf, jwk, mode)
  }

  /** The persisted record: base64 iv, bcrypt hash of the password, base64 sealed private JWK. */
  function RecordJson(iv: string, hash: string, sealed: string): JsValue {
    JObject(map["iv" := JString(iv), "password" := JString(hash), "private_jwk" := JString(sealed)])
  }

  /** The record the create path stores for `password` and the random inputs `ent`. */
  function SealedRecord(pf: Platform, password: string, ent: Entropy): JsValue {
    var plain := pf.utf8Encode(pf.stringify(pf.exportJwk(ent.pair.privateKey)));
    var sealed := pf.encrypt(DeriveKey(pf, password), ent.iv, plain);
    RecordJson(pf.base64Encode(ent.iv), pf.bcryptHash(password, BcryptCost, ent.salt), pf.base64Encode(sealed))
  }

  /** The create path's writes, in the order it issues them. */
  function CreateOps(pf: Platform, id: string, password: string, ent: Entropy): seq<Op> {
    [ CdnPut(JwkPath(id), pf.stringify(pf.exportJwk(ent.pair.publicKey))),
      CdnPut(SpkiPath(id), pf.exportSpki(ent.pair.publicKey)),
      KvPut(id, pf.stringify(SealedRecord(pf, password, ent))) ]
  }

  /** The create path's answer: PKCS#8 text for "pem", the private JWK otherwise. */
  function CreateResponse(pf: Platform, pair: KeyPair, mode: Option<string>): Response {
    if mode == Some("pem") then Text(200, pf.exportPkcs8(pair.privateKey))
    else Json(200, pf.exportJwk(pair.privateKey))
  }

  /** The POST handler once the guard has passed `password` on. */
  function PostOutcome(pf: Platform, w: World, rawId: string, mode: Option<string>, password: string, ent: Entropy): Outcome {
    if rawId == "" then Outcome([], w.cache, BadRequest)
    else
      var id := pf.encodeUriComponent(rawId);
      var (cache, jwk) := Lookup(w.cache, w.storage, id);
      if jwk.Some? && jwk.value != "" then
        Outcome([], cache, Fetch(pf, jwk.value, DeriveKey(pf, password), password, mode))
      else
        Outcome(CreateOps(pf, id, password, ent), cache, CreateResponse(pf, ent.pair, mode))
  }

  // ---- DELETE /secure/:id ----

  /** The delete handler's writes, in the order it issues them. */
  function DeleteOps(id: string): seq<Op> {
    [KvDelete(id), CdnDelete(JwkPath(id)), CdnDelete(SpkiPath(id))]
  }

  /** The DELETE handler once the guard has passed `password` on. */
  function DeleteOutcome(pf: Platform, w: World, rawId: string, password: string): Outcome {
    var id := pf.encodeUriComponent(rawId);
    var (cache, jwk) := Lookup(w.cache, w.storage, id);
    if jwk.None? || jwk.value == "" then Outcome([], cache, OkText)
    else
      match CheckPassword(pf, jwk.value, password)
      case Err(response) => Outcome([], cache, response)
      case Ok(_) => Outcome(DeleteOps(id), cache, OkText)
  }

  // ---- GET /:jwk/:mode? ----

  predicate EndsWithSlash(s: string) {
    |s| > 0 && s[|s| - 1] == '/'
  }

  /** `BUCKET_PUBLIC_ADDRESS` with a trailing "/" added unless it already has one. */
  function PublicBase(address: string): (r: string)
    ensures EndsWithSlash(r)
    ensures r == address || r == address + "/"
    ensures r == address <==> EndsWithSlash(address)
  {
    if EndsWithSlash(address) then address else address + "/"
  }

  /** "spki" and "pem" select the SPKI object, every other mode the public JWK. */
  function ArtifactPath(id: string, mode: Option<string>): string {
    if mode == Some("spki") || mode == Some("pem") then SpkiPath(id) else JwkPath(id)
  }

  /** The public route: a permanent redirect to the published object. */
  function PublicRedirect(pf: Platform, address: string, rawId: string, mode: Option<string>): (r: Response)
    ensures r.Redirect? <==> rawId != ""
    ensures rawId == "" ==> r == BadRequest
    ensures r.Redirect? ==> r.status == 301
  {
    if rawId == "" then BadRequest
    else Redirect(PublicBase(address) + ArtifactPath(pf.encodeUriComponent(rawId), mode), 301)
  }

  // ---- the application ----

  /** One request through middleware, guard and handler. */
  function HandleOutcome(env: Env, w: World, req: Request, ent: Entropy): Outcome {
    if req.GetPublic? then
      Outcome([], w.cache, PublicRedirect(env.pf, env.publicAddress, req.id, req.mode))
    else if !ApiKeyAccepted(req.authorization, env.apiKey) then
      Outcome([], w.cache, Unauthorized)
    else
      match Validation(req.body)
      case Err(response) => Outcome([], w.cache, response)
      case Ok(body) =>
        if req.PostSecure? then PostOutcome(env.pf, w, req.id, req.mode, body.password, ent)
        else if req.DeleteSecure? then DeleteOutcome(env.pf, w, req.id, body.password)
        else Outcome([], w.cache, OkText)
  }

  /** A run of requests, each with the random inputs it draws. */
  function Run(env: Env, w: World, reqs: seq<(Request, Entropy)>): World
    decreases |reqs|
  {
    if reqs == [] then w
    else Run(env, After(w, HandleOutcome(env, w, reqs[0].0, reqs[0].1)), reqs[1..])
  }

  /** The deployed worker: its bindings, the two stores it writes and the process cache. */
  class Vault {
    const env: Env
    const cache: JwkCache
    var storage: map<string, string>
    var cdn: map<string, string>
    /** Every store write so far, in order. */
    ghost var journal: seq<Op>

    ghost predicate Valid()
      reads this, cache
    {
      cache.Valid()
    }

    ghost function State(): World
      reads this, cache
    {
      World(storage, cdn, cache.entries)
    }

    /** A fresh isolate: the stores as given, an empty cache. */
    constructor (env: Env, storage: map<string, string>, cdn: map<string, string>)
      ensures Valid() && fresh(cache)
      ensures this.env == env && State() == World(storage, cdn, map[]) && journal == []
    {
      this.env := env;
      this.storage := storage;
      this.cdn := cdn;
      this.journal := [];
      this.cache := new JwkCache();
    }

    /** `STORAGE.put(key, value)`. */
    method StoragePut(key: string, value: string)
      modifies this
      ensures State() == Apply(old(State()), KvPut(key, value))
      ensures journal == old(journal) + [KvPut(key, value)]
    {
      storage := storage[key := value];
      journal := journal + [KvPut(key, value)];
    }

    /** `STORAGE.delete(key)`. */
    method StorageDelete(key: string)
      modifies this
      ensures State() == Apply(old(State()), KvDelete(key))
      ensures journal == old(journal) + [KvDelete(key)]
    {
      storage := storage - {key};
      journal := journal + [KvDelete(key)];
    }

    /** `CDN_BUCKET.put(key, value)`. */
    method BucketPut(key: string, value: string)
      modifies this
      ensures State() == Apply(old(State()), CdnPut(key, value))
      ensures journal == old(journal) + [CdnPut(key, value)]
    {
      cdn := cdn[key := value];
      journal := journal + [CdnPut(key, value)];
    }

    /** `CDN_BUCKET.delete(key)`. */
    method BucketDelete(key: string)
      modifies this
      ensures State() == Apply(old(State()), CdnDelete(key))
      ensures journal == old(journal) + [CdnDelete(key)]
    {
      cdn := cdn - {key};
      journal := journal + [CdnDelete(key)];
    }

    /** The POST handler after the guard. */
    method Post(rawId: string, mode: Option<string>, password: string, ent: Entropy) returns (response: Response)
      requires Valid()
      modifies this, cache
      ensures Valid()
      ensures var o := PostOutcome(env.pf, old(State()), rawId, mode, password, ent);
        State() == After(old(State()), o) && journal == old(journal) + o.ops && response == o.response
    {
      var pf := env.pf;
      if rawId == "" {
        return BadRequest;
      }
      var id := pf.encodeUriComponent(rawId);
      var key := DeriveKey(pf, password);
      var jwk := cache.GetStoredJwkString(storage, id);
      if jwk.Some? && jwk.value != "" {
        return Fetch(pf, jwk.value, key, password, mode);
      }
      var privateJwk := pf.exportJwk(ent.pair.privateKey);
      var publicJwk := pf.exportJwk(ent.pair.publicKey);
      var sealed := pf.encrypt(key, ent.iv, pf.utf8Encode(pf.stringify(privateJwk)));
      var record := RecordJson(pf.base64Encode(ent.iv), pf.bcryptHash(password, BcryptCost, ent.salt), pf.base64Encode(sealed));
      var spki := pf.exportSpki(ent.pair.publicKey);
      BucketPut(JwkPath(id), pf.stringify(publicJwk));
      BucketPut(SpkiPath(id), spki);
      StoragePut(id, pf.stringify(record));
      ghost var ops := CreateOps(pf, id, password, ent);
      ApplyAllThree(old(State()), ops[0], ops[1], ops[2]);
      if mode == Some("pem") {
        response := Text(200, pf.exportPkcs8(ent.pair.privateKey));
      } else {
        response := Json(200, privateJwk);
      }
    }

    /** The DELETE handler after the guard. It leaves the cache entry in place. */
    method Delete(rawId: string, password: string) returns (response: Response)
      requires Valid()
      modifies this, cache
      ensures Valid()
      ensures var o := DeleteOutcome(env.pf, old(State()), rawId, password);
        State() == After(old(State()), o) && journal == old(journal) + o.ops && response == o.response
    {
      var pf := env.pf;
      var id := pf.encodeUriComponent(rawId);
      var jwk := cache.GetStoredJwkString(storage, id);
      if jwk.None? || jwk.value == "" {
        return OkText;
      }
      var access := CheckPassword(pf, jwk.value, password);
      if access.Err? {
        return access.error;
      }
      StorageDelete(id);
      BucketDelete(JwkPath(id));
      BucketDelete(SpkiPath(id));
      ApplyAllThree(old(State()), KvDelete(id), CdnDelete(JwkPath(id)), CdnDelete(SpkiPath(id)));
      response := OkText;
    }

    /** One request, routed through the API-key middleware and the body guard. */
    method Handle(req: Request, ent: Entropy) returns (response: Response)
      requires Valid()
      modifies this, cache
      ensures Valid()
      ensures var o := HandleOutcome(env, old(State()), req, ent);
        State() == After(old(State()), o) && journal == old(journal) + o.ops && response == o.response
    {
      if req.GetPublic? {
        return PublicRedirect(env.pf, env.publicAddress, req.id, req.mode);
      }
      if !ApiKeyAccepted(req.authorization, env.apiKey) {
        return Unauthorized;
      }
      var body := Validation(req.body);
      if body.Err? {
        return body.error;
      }
      if req.PostSecure? {
        response := Post(req.id, req.mode, body.value.password, ent);
      } else if req.DeleteSecure? {
        response := Delete(req.id, body.value.password);
      } else {
        response := OkText;
      }
    }
  }
}
