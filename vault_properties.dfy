/**
 * Properties of the request transitions of src/index.ts: the API-key gate,
 * the two POST paths and their round trip, the DELETE outcomes, the cache
 * that outlives a delete, and the public redirect.
 */
module VaultProperties {
  import opened Wrappers
  import opened JsValues
  import opened Http
  import opened Platform
  import opened Util
  import opened Vault

  /** The id `rawId` is stored under, and whether a lookup of it misses in `w`. */
  predicate Unknown(pf: Platform, w: World, rawId: string) {
    var id := pf.encodeUriComponent(rawId);
    id !in w.cache && (id !in w.storage || w.storage[id] == "")
  }

  // ---- the gate ----

  /** The middleware lets a request through exactly when the header equals the key (both may be absent). */
  lemma ApiKeyAcceptedIff(header: Option<string>, apiKey: Option<string>)
    ensures ApiKeyAccepted(header, apiKey) <==> header == apiKey
  {
  }

  /** A secure request with the wrong key is answered 401 and runs no handler: nothing changes. */
  lemma GateRejects(env: Env, w: World, req: Request, ent: Entropy)
    requires !req.GetPublic? && req.authorization != env.apiKey
    ensures HandleOutcome(env, w, req, ent) == Outcome([], w.cache, Unauthorized)
    ensures After(w, HandleOutcome(env, w, req, ent)) == w
  {
  }

  /** Past the gate, a body the guard rejects is answered by the guard and changes nothing. */
  lemma GuardRejects(env: Env, w: World, req: Request, ent: Entropy)
    requires !req.GetPublic? && req.authorization == env.apiKey && !HasPassword(req.body)
    ensures HandleOutcome(env, w, req, ent).ops == [] && HandleOutcome(env, w, req, ent).cache == w.cache
    ensures HandleOutcome(env, w, req, ent).response == if req.body.JNull? then InternalServerError else InvalidRequest
  {
  }

  // ---- POST: the fetch path ----

  /** When the lookup finds a record, the POST handler writes nothing, whatever it answers. */
  lemma FetchWritesNothing(pf: Platform, w: World, rawId: string, mode: Option<string>, password: string, ent: Entropy)
    requires rawId != "" && !Unknown(pf, w, rawId) && NonEmptyValues(w.cache)
    ensures PostOutcome(pf, w, rawId, mode, password, ent).ops == []
    ensures var w' := After(w, PostOutcome(pf, w, rawId, mode, password, ent));
      w'.storage == w.storage && w'.cdn == w.cdn
  {
  }

  /**
   * On the fetch path a password bcrypt does not accept is answered 401, a
   * record that does not parse or carries no string hash 500, and a record that
   * does not open 500.
   */
  lemma FetchFailures(pf: Platform, stored: string, key: Bytes, password: string, mode: Option<string>)
    ensures pf.parse(stored).None? ==> Fetch(pf, stored, key, password, mode) == InternalServerError
    ensures pf.parse(stored).Some? && StringProperty(pf.parse(stored).value, "password").None?
      ==> Fetch(pf, stored, key, password, mode) == InternalServerError
    ensures pf.parse(stored).Some? && StringProperty(pf.parse(stored).value, "password").Some?
      && !pf.bcryptCompare(password, StringProperty(pf.parse(stored).value, "password").value)
      ==> Fetch(pf, stored, key, password, mode) == Unauthorized
    ensures CheckPassword(pf, stored, password).Ok? && OpenRecord(pf, CheckPassword(pf, stored, password).value, key).None?
      ==> Fetch(pf, stored, key, password, mode) == InternalServerError
  {
  }

  /**
   * Export-mode dispatch agrees on both paths: for the JWK of a private key,
   * the fetch path answers what the create path answers, in every mode
   * ("pem" gives PKCS#8 text, anything else the JWK).
   */
  lemma FetchedMatchesCreate(pf: Platform, pair: KeyPair, mode: Option<string>)
    requires Lawful(pf)
    ensures FetchedResponse(pf, pf.exportJwk(pair.privateKey), mode) == CreateResponse(pf, pair, mode)
    ensures CreateResponse(pf, pair, mode).Text? <==> mode == Some("pem")
    ensures CreateResponse(pf, pair, mode).Json? ==> CreateResponse(pf, pair, mode).value == pf.exportJwk(pair.privateKey)
  {
    assert pf.importJwk(pf.exportJwk(pair.privateKey)) == Some(pair.privateKey);
  }

  // ---- POST: the create path ----

  /** The fields of the record the create path persists. */
  lemma SealedRecordFields(pf: Platform, password: string, ent: Entropy)
    ensures var rec := SealedRecord(pf, password, ent);
      && StringProperty(rec, "iv") == Some(pf.base64Encode(ent.iv))
      && StringProperty(rec, "password") == Some(pf.bcryptHash(password, BcryptCost, ent.salt))
      && StringProperty(rec, "private_jwk") == Some(pf.base64Encode(pf.encrypt(DeriveKey(pf, password), ent.iv,
           pf.utf8Encode(pf.stringify(pf.exportJwk(ent.pair.privateKey))))))
      && rec.JObject? && rec.fields.Keys == {"iv", "password", "private_jwk"}
  {
  }

  /**
   * With no record for the id, POST writes the public JWK, then the SPKI PEM,
   * then the sealed record, and no other key; the cache is untouched.
   */
  lemma CreateWrites(pf: Platform, w: World, rawId: string, mode: Option<string>, password: string, ent: Entropy)
    requires rawId != "" && Unknown(pf, w, rawId)
    ensures var id := pf.encodeUriComponent(rawId);
      var o := PostOutcome(pf, w, rawId, mode, password, ent);
      && o.ops == [ CdnPut(JwkPath(id), pf.stringify(pf.exportJwk(ent.pair.publicKey))),
                    CdnPut(SpkiPath(id), pf.exportSpki(ent.pair.publicKey)),
                    KvPut(id, pf.stringify(SealedRecord(pf, password, ent))) ]
      && After(w, o) == World(
           w.storage[id := pf.stringify(SealedRecord(pf, password, ent))],
           w.cdn[JwkPath(id) := pf.stringify(pf.exportJwk(ent.pair.publicKey))][SpkiPath(id) := pf.exportSpki(ent.pair.publicKey)],
           w.cache)
      && o.response == CreateResponse(pf, ent.pair, mode)
  {
    var id := pf.encodeUriComponent(rawId);
    var ops := CreateOps(pf, id, password, ent);
    ApplyAllThree(w, ops[0], ops[1], ops[2]);
  }

  /** The world after a create for `rawId`. */
  function Created(pf: Platform, w: World, rawId: string, mode: Option<string>, password: string, ent: Entropy): World {
    After(w, PostOutcome(pf, w, rawId, mode, password, ent))
  }

  /** A stored record created with `password` opens, under that password, to the private JWK. */
  lemma SealedRecordOpens(pf: Platform, password: string, ent: Entropy)
    requires Lawful(pf)
    ensures CheckPassword(pf, pf.stringify(SealedRecord(pf, password, ent)), password) == Ok(SealedRecord(pf, password, ent))
    ensures OpenRecord(pf, SealedRecord(pf, password, ent), DeriveKey(pf, password)) == Some(pf.exportJwk(ent.pair.privateKey))
  {
    var rec := SealedRecord(pf, password, ent);
    SealedRecordFields(pf, password, ent);
    assert pf.parse(pf.stringify(rec)) == Some(rec);
    assert pf.bcryptCompare(password, pf.bcryptHash(password, BcryptCost, ent.salt));
    var jwk := pf.exportJwk(ent.pair.privateKey);
    var plain := pf.utf8Encode(pf.stringify(jwk));
    var sealed := pf.encrypt(DeriveKey(pf, password), ent.iv, plain);
    assert DecodeField(pf, rec, "iv") == Some(ent.iv);
    assert DecodeField(pf, rec, "private_jwk") == Some(sealed);
    assert pf.decrypt(DeriveKey(pf, password), ent.iv, sealed) == Some(plain);
    assert pf.utf8Decode(plain) == pf.stringify(jwk);
    assert pf.parse(pf.stringify(jwk)) == Some(jwk);
  }

  /**
   * Round trip: after a create for `rawId` with `password`, a POST for the same
   * id and password takes the fetch path, writes nothing, and answers in any
   * mode exactly what the create answered in that mode.
   */
  lemma RoundTrip(pf: Platform, w: World, rawId: string, mode: Option<string>, mode': Option<string>,
                  password: string, ent: Entropy, ent': Entropy)
    requires Lawful(pf) && rawId != "" && Unknown(pf, w, rawId)
    ensures PostOutcome(pf, w, rawId, mode, password, ent).response == CreateResponse(pf, ent.pair, mode)
    ensures var o := PostOutcome(pf, Created(pf, w, rawId, mode, password, ent), rawId, mode', password, ent');
      o.ops == [] && o.response == CreateResponse(pf, ent.pair, mode')
  {
    var id := pf.encodeUriComponent(rawId);
    CreateWrites(pf, w, rawId, mode, password, ent);
    var w1 := Created(pf, w, rawId, mode, password, ent);
    var stored := pf.stringify(SealedRecord(pf, password, ent));
    assert w1.storage[id] == stored && stored != "";
    assert Lookup(w1.cache, w1.storage, id).1 == Some(stored);
    SealedRecordOpens(pf, password, ent);
    FetchedMatchesCreate(pf, ent.pair, mode');
  }

  /** A password bcrypt does not accept against the stored hash gets 401 after a create, and no writes. */
  lemma WrongPasswordRejected(pf: Platform, w: World, rawId: string, mode: Option<string>, mode': Option<string>,
                              password: string, other: string, ent: Entropy, ent': Entropy)
    requires Lawful(pf) && rawId != "" && Unknown(pf, w, rawId)
    requires !pf.bcryptCompare(other, pf.bcryptHash(password, BcryptCost, ent.salt))
    ensures var o := PostOutcome(pf, Created(pf, w, rawId, mode, password, ent), rawId, mode', other, ent');
      o.ops == [] && o.response == Unauthorized
  {
    var id := pf.encodeUriComponent(rawId);
    CreateWrites(pf, w, rawId, mode, password, ent);
    var w1 := Created(pf, w, rawId, mode, password, ent);
    var rec := SealedRecord(pf, password, ent);
    assert w1.storage[id] == pf.stringify(rec) && pf.stringify(rec) != "";
    SealedRecordFields(pf, password, ent);
    assert pf.parse(pf.stringify(rec)) == Some(rec);
  }

  // ---- DELETE ----

  /** Deleting an unknown id answers "Ok" for any password and changes nothing. */
  lemma DeleteAbsent(pf: Platform, w: World, rawId: string, password: string)
    requires Unknown(pf, w, rawId)
    ensures DeleteOutcome(pf, w, rawId, password) == Outcome([], w.cache, OkText)
  {
  }

  /** Deleting a found record with a password bcrypt does not accept answers 401 and writes nothing. */
  lemma DeleteWrongPassword(pf: Platform, w: World, rawId: string, password: string)
    requires !Unknown(pf, w, rawId) && NonEmptyValues(w.cache)
    requires var stored := Lookup(w.cache, w.storage, pf.encodeUriComponent(rawId)).1.value;
      CheckPassword(pf, stored, password) == Err(Unauthorized)
    ensures DeleteOutcome(pf, w, rawId, password).ops == []
    ensures DeleteOutcome(pf, w, rawId, password).response == Unauthorized
  {
  }

  /**
   * A delete that passes the password check removes the record and both
   * published objects and nothing else, answers "Ok", and leaves the record
   * in the cache.
   */
  lemma DeleteRemoves(pf: Platform, w: World, rawId: string, password: string)
    requires !Unknown(pf, w, rawId) && NonEmptyValues(w.cache)
    requires var stored := Lookup(w.cache, w.storage, pf.encodeUriComponent(rawId)).1.value;
      CheckPassword(pf, stored, password).Ok?
    ensures var id := pf.encodeUriComponent(rawId);
      var o := DeleteOutcome(pf, w, rawId, password);
      && o.ops == DeleteOps(id) && o.response == OkText
      && After(w, o).storage == w.storage - {id}
      && After(w, o).cdn == w.cdn - {JwkPath(id), SpkiPath(id)}
      && id in After(w, o).cache
      && After(w, o).cache[id] == Lookup(w.cache, w.storage, id).1.value
  {
    var id := pf.encodeUriComponent(rawId);
    ApplyAllThree(w, KvDelete(id), CdnDelete(JwkPath(id)), CdnDelete(SpkiPath(id)));
  }

  /**
   * Delete does not clear the cache: after create, delete with the right
   * password and create-or-fetch again, the store no longer holds the record,
   * yet the POST takes the fetch path and answers the deleted key.
   */
  lemma StaleKeyAfterDelete(pf: Platform, w: World, rawId: string, mode: Option<string>, mode': Option<string>,
                            password: string, ent: Entropy, ent': Entropy)
    requires Lawful(pf) && rawId != "" && Unknown(pf, w, rawId) && NonEmptyValues(w.cache)
    ensures var id := pf.encodeUriComponent(rawId);
      var w1 := Created(pf, w, rawId, mode, password, ent);
      var d := DeleteOutcome(pf, w1, rawId, password);
      var w2 := After(w1, d);
      var o := PostOutcome(pf, w2, rawId, mode', password, ent');
      && d.response == OkText && id !in w2.storage
      && JwkPath(id) !in w2.cdn && SpkiPath(id) !in w2.cdn
      && o.ops == [] && o.response == CreateResponse(pf, ent.pair, mode')
  {
    var id := pf.encodeUriComponent(rawId);
    CreateWrites(pf, w, rawId, mode, password, ent);
    var w1 := Created(pf, w, rawId, mode, password, ent);
    var stored := pf.stringify(SealedRecord(pf, password, ent));
    assert w1.storage[id] == stored && stored != "";
    SealedRecordOpens(pf, password, ent);
    DeleteRemoves(pf, w1, rawId, password);
    var w2 := After(w1, DeleteOutcome(pf, w1, rawId, password));
    assert w2.cache[id] == stored;
    FetchedMatchesCreate(pf, ent.pair, mode');
  }

  /**
   * Delete is not idempotent towards a wrong password: once a record has been
   * deleted, the cached copy still makes a second delete check the password,
   * so a password bcrypt does not accept gets 401 instead of "Ok".
   */
  lemma SecondDeleteStillChecksPassword(pf: Platform, w: World, rawId: string, mode: Option<string>,
                                        password: string, other: string, ent: Entropy)
    requires Lawful(pf) && rawId != "" && Unknown(pf, w, rawId) && NonEmptyValues(w.cache)
    requires !pf.bcryptCompare(other, pf.bcryptHash(password, BcryptCost, ent.salt))
    ensures var id := pf.encodeUriComponent(rawId);
      var w1 := Created(pf, w, rawId, mode, password, ent);
      var w2 := After(w1, DeleteOutcome(pf, w1, rawId, password));
      id !in w2.storage && DeleteOutcome(pf, w2, rawId, other) == Outcome([], w2.cache, Unauthorized)
  {
    var id := pf.encodeUriComponent(rawId);
    CreateWrites(pf, w, rawId, mode, password, ent);
    var w1 := Created(pf, w, rawId, mode, password, ent);
    var rec := SealedRecord(pf, password, ent);
    var stored := pf.stringify(rec);
    assert w1.storage[id] == stored && stored != "";
    SealedRecordOpens(pf, password, ent);
    SealedRecordFields(pf, password, ent);
    DeleteRemoves(pf, w1, rawId, password);
  }

  // ---- the cache over a run of requests ----

  /** Every request keeps every cache entry and the invariant that cached records are non-empty. */
  lemma HandleExtendsCache(env: Env, w: World, req: Request, ent: Entropy)
    requires NonEmptyValues(w.cache)
    ensures Extends(w.cache, After(w, HandleOutcome(env, w, req, ent)).cache)
    ensures NonEmptyValues(After(w, HandleOutcome(env, w, req, ent)).cache)
  {
    if !req.GetPublic? && ApiKeyAccepted(req.authorization, env.apiKey) && Validation(req.body).Ok? {
      var id := env.pf.encodeUriComponent(req.id);
      LookupKeepsNonEmpty(w.cache, w.storage, id);
    }
  }

  /** Over any run of requests the cache only grows: no entry is removed or overwritten. */
  lemma {:induction false} RunExtendsCache(env: Env, w: World, reqs: seq<(Request, Entropy)>)
    requires NonEmptyValues(w.cache)
    ensures Extends(w.cache, Run(env, w, reqs).cache)
    ensures NonEmptyValues(Run(env, w, reqs).cache)
    decreases |reqs|
  {
    if reqs != [] {
      var w1 := After(w, HandleOutcome(env, w, reqs[0].0, reqs[0].1));
      HandleExtendsCache(env, w, reqs[0].0, reqs[0].1);
      RunExtendsCache(env, w1, reqs[1..]);
    }
  }

  /**
   * Once a record is cached, every later lookup of its id answers that record,
   * after any run of requests and whatever the store then holds.
   */
  lemma CachedForever(env: Env, w: World, reqs: seq<(Request, Entropy)>, id: string, ns: map<string, string>)
    requires NonEmptyValues(w.cache) && id in w.cache
    ensures Lookup(Run(env, w, reqs).cache, ns, id).1 == Some(w.cache[id])
  {
    RunExtendsCache(env, w, reqs);
  }

  // ---- the public redirect ----

  /** Normalising the public address twice changes nothing more. */
  lemma PublicBaseIdempotent(address: string)
    ensures PublicBase(PublicBase(address)) == PublicBase(address)
  {
  }

  /**
   * After a create for `rawId`, the public route redirects with 301 to the
   * object the create published: the SPKI PEM for "spki" and "pem", the
   * public JWK otherwise.
   */
  lemma RedirectTargetsPublishedArtifact(pf: Platform, address: string, w: World, rawId: string,
                                         mode: Option<string>, password: string, ent: Entropy, mode': Option<string>)
    requires rawId != "" && Unknown(pf, w, rawId)
    ensures var id := pf.encodeUriComponent(rawId);
      var w1 := Created(pf, w, rawId, mode, password, ent);
      var path := ArtifactPath(id, mode');
      && PublicRedirect(pf, address, rawId, mode') == Redirect(PublicBase(address) + path, 301)
      && path in w1.cdn
      && w1.cdn[path] == if mode' == Some("spki") || mode' == Some("pem") then pf.exportSpki(ent.pair.publicKey)
                         else pf.stringify(pf.exportJwk(ent.pair.publicKey))
  {
    var id := pf.encodeUriComponent(rawId);
    CreateWrites(pf, w, rawId, mode, password, ent);
    assert JwkPath(id) != SpkiPath(id) by {
      assert |JwkPath(id)| != |SpkiPath(id)|;
    }
  }
}
