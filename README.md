# jwk-store vault: a Dafny model

jwk-store is a Cloudflare Worker that keeps ES512 key pairs behind a password.
`POST /secure/:id/:mode?` creates a key pair the first time an id is used and
afterwards returns the stored private key to a caller who knows the password.
`DELETE /secure/:id` removes the record and the published public key.
`GET /:jwk/:mode?` redirects to the public key in the object store.
Every `/secure/*` route sits behind a static API key.

This project models one worker isolate. Each request is one sequential
transition of three maps:

- `STORAGE`: the key-value store of sealed records.
- `CDN_BUCKET`: the object store of public JWKs and SPKI PEMs.
- The module-level `storedJWK` cache of src/util.ts.

Modules:

- `Wrappers`: `Option` and `Result`.
- `JsValues`: JSON values and the JavaScript semantics the guard relies on: property access, truthiness and `typeof`.
- `Http`: the responses, with their status codes and texts.
- `Platform`: every foreign call (Web Crypto, bcryptjs, jose, JSON, base64, UTF-8 text coding, `encodeURIComponent`). Each one is a function-typed field of a `Platform` value that the handlers receive. Nothing is assumed about these functions except the laws in `Lawful`, and only the lemmas that need those laws take `Lawful` as a hypothesis. The laws are:
  - AES-GCM opens what it sealed under the same key and iv.
  - bcrypt's `compare` accepts the password that was hashed.
  - UTF-8, base64, JSON and JWK export/import each round-trip.
  - `JSON.stringify` never returns an empty text.
- `Util` (src/util.ts):
  - `Validation`: the body guard.
  - `Lookup`: the cache lookup, as a function on values.
  - `JwkCache`: a class whose `GetStoredJwkString` method updates the cache map in place.
- `Vault` (src/index.ts):
  - Pure functions that give each handler's `Outcome`: the store writes in issue order, the cache afterwards, and the response.
  - `HandleOutcome`, for the whole application, and `Run`, for a sequence of requests.
  - The `Vault` class: `storage` and `cdn` map fields, a ghost journal of writes, and the cache object. Its `Post`, `Delete` and `Handle` methods perform the handlers step by step and are proved to agree with the outcome functions.
- `VaultProperties`: the lemmas about these transitions.

The random inputs of the create path (the 12-byte iv, bcrypt's salt and the generated key pair) are an `Entropy` parameter.

## Delete and the cache

A successful delete is evidently meant to forget the cached record as well.
The code never removes anything from `storedJWK`, and the lookup at
src/index.ts:106 has just cached the record. This model follows the code:

- `StaleKeyAfterDelete` proves that a POST after a successful delete takes the fetch path and returns the deleted key, while `STORAGE` and `CDN_BUCKET` no longer hold the record.
- `SecondDeleteStillChecksPassword` proves that after such a delete, a DELETE with a wrong password gets 401, although a DELETE of an id with no stored record otherwise answers "Ok" (src/index.ts:107-109).

Other behaviour of the code that the model reproduces:

- In any mode other than absent, "" or "jwk", the fetch path first imports the JWK and answers 500 if the import fails. Only after that does it pick PKCS#8 for "pem" or JSON otherwise.
- On DELETE, parsing the record and comparing the password run outside any `try`. A failure there becomes Hono's default 500.
- A JSON body of `null` makes the guard's `value['password']` throw, which also gives 500.
- `GET /secure/:id` runs the body guard and then always answers "Ok". It never looks at the store.
- The API key binding is modelled as possibly unset. When it is unset, a request without an `authorization` header passes the gate, because `undefined !== undefined` is false (`ApiKeyAcceptedIff`).

## Model

| member | source | states |
|---|---|---|
| `Util.Validation` | src/util.ts:4-12 | the body passes exactly when `password` is a non-empty string, and then only that password is passed on; a missing, falsy or non-string password gives 400 "Invalid Request!"; a `null` body gives 500 |
| `Util.Lookup` | src/util.ts:14-24 | the cache after a lookup keeps every earlier entry and gains at most `id`; a returned record is the cached value for `id`; a `null` answer leaves the cache unchanged |
| `Util.JwkCache.constructor` | src/util.ts:2 | the cache starts empty |
| `Util.JwkCache.GetStoredJwkString` | src/util.ts:14-24 | the in-place lookup updates the cache and answers exactly as `Lookup` does, and keeps every cached record non-empty |
| `Util.LookupHitIgnoresStore` | src/util.ts:15-17 | on a hit the cached record is returned and the cache is unchanged, whatever the store holds |
| `Util.LookupMissEmpty` | src/util.ts:19-22 | on a miss where the store has no value or an empty one, the answer is `null` and the cache is unchanged |
| `Util.LookupMissLoads` | src/util.ts:19-24 | on a miss where the store holds a non-empty `v`, the answer is `v`, the cache gains `id ↦ v` and no other key |
| `Util.LookupKeepsNonEmpty` | src/util.ts:20-23 | only non-empty records enter the cache, so every answer found is non-empty |
| `VaultProperties.ApiKeyAcceptedIff` | src/index.ts:19 | the gate passes exactly when the `authorization` header equals `API_KEY`, both possibly absent |
| `VaultProperties.GateRejects` | src/index.ts:16-22 | a secure request with the wrong key gets 401 "Unauthorized", no handler runs, and storage, CDN and cache are unchanged |
| `VaultProperties.GuardRejects` | src/util.ts:5-8 | past the gate, a body without a usable password gets the guard's answer and nothing changes |
| `VaultProperties.FetchWritesNothing` | src/index.ts:42-68 | when the lookup finds a record, POST issues no write in any outcome, so storage and CDN are unchanged |
| `VaultProperties.FetchFailures` | src/index.ts:44-67 | on the fetch path a record that does not parse or has no string hash gives 500, a password bcrypt rejects gives 401, and a record that does not decrypt or parse gives 500 |
| `VaultProperties.FetchedMatchesCreate` | src/index.ts:56-63 | mode dispatch: "pem" answers PKCS#8 text and every other mode the JWK, and the fetch path answers what the create path (src/index.ts:98-99) answers for the same key |
| `VaultProperties.SealedRecordFields` | src/index.ts:79-91 | the stored record has exactly `iv` = base64 of the iv, `password` = bcrypt hash with cost 10, and `private_jwk` = base64 of the AES-GCM seal of the private JWK under the password-derived key |
| `VaultProperties.CreateWrites` | src/index.ts:70-99 | with no record, POST writes `jwk/<id>`, then `jwk/spki/<id>`, then `STORAGE[id]`, in that order, changes no other key and no cache entry, and answers the new private key |
| `VaultProperties.SealedRecordOpens` | src/index.ts:45-55 | a record created with a password passes that password's check and opens with the same derived key and iv to the private JWK |
| `VaultProperties.RoundTrip` | src/index.ts:31-99 | after a create, a POST with the same id and password takes the fetch path, writes nothing, and answers in every mode what the create answers in that mode |
| `VaultProperties.WrongPasswordRejected` | src/index.ts:46-49 | after a create, a password bcrypt rejects gets 401 and no write |
| `VaultProperties.DeleteAbsent` | src/index.ts:106-109 | deleting an id with no record answers "Ok" without checking the password and changes nothing |
| `VaultProperties.DeleteWrongPassword` | src/index.ts:111-115 | deleting a found record with a password bcrypt rejects answers 401 and writes nothing |
| `VaultProperties.DeleteRemoves` | src/index.ts:117-120 | a delete with the right password removes `STORAGE[id]`, `jwk/<id>` and `jwk/spki/<id>` and nothing else, answers "Ok", and leaves the record cached |
| `VaultProperties.StaleKeyAfterDelete` | src/index.ts:106-120 | after create and a successful delete, the store has no record, yet a POST with the same password fetches from the cache and answers the deleted key |
| `VaultProperties.SecondDeleteStillChecksPassword` | src/index.ts:106-115 | after a successful delete, a second delete with a wrong password gets 401 from the cached record |
| `VaultProperties.HandleExtendsCache` | src/util.ts:15-23 | no request removes or overwrites a cache entry, and every cached record stays non-empty |
| `VaultProperties.RunExtendsCache` | src/util.ts:2-24 | over any sequence of requests the cache only grows |
| `VaultProperties.CachedForever` | src/util.ts:15-17 | once `id` is cached, every later lookup answers that record after any requests, whatever the store then holds |
| `Vault.PublicBase` | src/index.ts:133-135 | the public address gets "/" appended exactly when it does not already end with "/" |
| `VaultProperties.PublicBaseIdempotent` | src/index.ts:133-135 | normalising an already normalised address changes nothing |
| `Vault.PublicRedirect` | src/index.ts:127-142 | the public route answers a redirect with status 301 exactly when the id is non-empty, and 400 "Bad Request" for an empty id |
| `VaultProperties.RedirectTargetsPublishedArtifact` | src/index.ts:137-141 | after a create, the redirect goes to the public base plus `jwk/spki/<id>` for "spki" or "pem" and `jwk/<id>` otherwise, and that object holds the SPKI PEM or the public JWK the create wrote |
| `Vault.Vault.constructor` | src/index.ts:14 | a new isolate starts with the given stores, an empty cache and no writes |
| `Vault.Vault.StoragePut` | src/index.ts:96 | `STORAGE.put` sets one key and journals the write |
| `Vault.Vault.StorageDelete` | src/index.ts:117 | `STORAGE.delete` removes one key and journals the write |
| `Vault.Vault.BucketPut` | src/index.ts:94-95 | `CDN_BUCKET.put` sets one object and journals the write |
| `Vault.Vault.BucketDelete` | src/index.ts:118-119 | `CDN_BUCKET.delete` removes one object and journals the write |
| `Vault.Vault.Post` | src/index.ts:25-100 | the in-place POST handler leaves the stores, journal, cache and response exactly as `PostOutcome` gives them |
| `Vault.Vault.Delete` | src/index.ts:102-121 | the in-place DELETE handler leaves the stores, journal, cache and response exactly as `DeleteOutcome` gives them |
| `Vault.Vault.Handle` | src/index.ts:16-142 | gate, guard and routing in place: the stores, journal, cache and response are exactly as `HandleOutcome` gives them |

## Left out

- Hono's routing, request and response objects, the content-type check, malformed-JSON handling of the body, and the `GET /` HTML page (src/index.ts:144-149) are not modelled. They are framework I/O. A request is taken after route matching.
- SHA-256, AES-GCM, bcrypt, the jose key generation and export/import functions, `JSON.parse`/`stringify`, `btoa` and `base64ToArrayBuffer` are parameters with only the `Lawful` laws. `base64ToArrayBuffer` is imported by src/index.ts:12 from src/util.ts, which does not export it.
- The model does not capture bcrypt truncating passwords at 72 bytes. Lemmas about wrong passwords assume only that `compare` rejects the candidate.
- Failing calls are not modelled. Key generation, the exports, `encodeURIComponent` (which throws on a lone surrogate), the store reads and the store writes are taken to succeed. A failing `STORAGE.get` (src/util.ts:19, reached from src/index.ts:42 and src/index.ts:106) would end in Hono's 500. A store write failing midway through a create would leave partial writes and a 500.
- JSON numbers are the bit patterns of finite doubles with negative zero identified with zero, because `JSON.stringify` writes `-0` as "0"; a body holding `-0` is a falsy non-string either way.
- The randomness of the iv, the bcrypt salt and the key pair is an `Entropy` parameter. The model does not state that ivs are unique.
- Concurrency between requests or isolates, such as last-write-wins races between two creates, is not modelled. Neither is the eventual consistency of KV and R2. Each request is one atomic transition.
- `console.log` in the catch block is logging only.
- src/index.types.ts is not modelled, because it only declares types. Its `public_jwk` field is never written. The stored record is the JSON object that `SealedRecord` builds.
