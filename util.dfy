/**
 * src/util.ts: the request-body guard and the process-wide read-through cache
 * that sits in front of the key-value store.
 */
module Util {
  import opened Wrappers
  import opened JsValues
  import opened Http

  /** What the guard hands the handler: an object holding only `password`. */
  datatype Body = Body(password: string)

  const InvalidRequest: Response := Text(400, "Invalid Request!")

  /** The request body carries `password` as a non-empty string. */
  predicate HasPassword(value: JsValue) {
    value.JObject? && "password" in value.fields
    && value.fields["password"].JString? && value.fields["password"].s != ""
  }

  /**
   * The `validation` guard. A `null` body makes `value['password']` throw,
   * which Hono answers with 500; a password that is missing, falsy or not a
   * string is answered with 400 "Invalid Request!"; otherwise only the
   * password is passed on.
   */
  function Validation(value: JsValue): (r: Result<Body, Response>)
    ensures r.Ok? <==> HasPassword(value)
    ensures r.Ok? ==> r.value == Body(value.fields["password"].s)
    ensures r.Err? ==> r.error == if value.JNull? then InternalServerError else InvalidRequest
  {
    if value.JNull? then Err(InternalServerError)
    else
      var password := Property(value, "password");
      if !Truthy(password) || TypeOf(password) != "string" then Err(InvalidRequest)
      else Ok(Body(password.value.s))
  }

  /** Every cached record is non-empty: only truthy store values are ever inserted. */
  ghost predicate NonEmptyValues(m: map<string, string>) {
    forall id :: id in m ==> m[id] != ""
  }

  /** `big` holds every entry of `small` with the same value. */
  ghost predicate Extends(small: map<string, string>, big: map<string, string>) {
    forall id :: id in small ==> id in big && big[id] == small[id]
  }

  /**
   * `getStoredJWKString` on values: the cache after the call and the record it
   * returns (`None` for `null`), given the cache and the store `ns` before it.
   */
  function Lookup(cache: map<string, string>, ns: map<string, string>, id: string): (r: (map<string, string>, Option<string>))
    ensures Extends(cache, r.0) && r.0.Keys <= cache.Keys + {id}
    ensures r.1.Some? ==> id in r.0 && r.0[id] == r.1.value
    ensures r.1.None? ==> r.0 == cache
  {
    if id in cache then (cache, Some(cache[id]))
    else if id !in ns || ns[id] == "" then (cache, None)
    else (cache[id := ns[id]], Some(ns[id]))
  }

  /** The module-level `storedJWK` map and the lookup through it. */
  class JwkCache {
    var entries: map<string, string>

    ghost predicate Valid()
      reads this
    {
      NonEmptyValues(entries)
    }

    constructor ()
      ensures Valid() && entries == map[]
    {
      entries := map[];
    }

    /** `getStoredJWKString(ns, id)`, where `ns` is the store's content at the call. */
    method GetStoredJwkString(ns: map<string, string>, id: string) returns (r: Option<string>)
      requires Valid()
      modifies this
      ensures Valid()
      ensures (entries, r) == Lookup(old(entries), ns, id)
      ensures r.Some? ==> r.value != ""
    {
      if id in entries {
        return Some(entries[id]);
      }
      if id !in ns || ns[id] == "" {
        return None;
      }
      var stored := ns[id];
      entries := entries[id := stored];
      r := Some(stored);
    }
  }

  /** A hit answers the cached record whatever the store holds; the store is not consulted. */
  lemma LookupHitIgnoresStore(cache: map<string, string>, ns1: map<string, string>, ns2: map<string, string>, id: string)
    requires id in cache
    ensures Lookup(cache, ns1, id) == Lookup(cache, ns2, id) == (cache, Some(cache[id]))
  {
  }

  /** A miss on an absent or empty store value answers `null` and leaves the cache as it was. */
  lemma LookupMissEmpty(cache: map<string, string>, ns: map<string, string>, id: string)
    requires id !in cache && (id !in ns || ns[id] == "")
    ensures Lookup(cache, ns, id) == (cache, None)
  {
  }

  /** A miss on a non-empty store value caches exactly that entry and answers it. */
  lemma LookupMissLoads(cache: map<string, string>, ns: map<string, string>, id: string)
    requires id !in cache && id in ns && ns[id] != ""
    ensures Lookup(cache, ns, id).1 == Some(ns[id])
    ensures Lookup(cache, ns, id).0 == cache[id := ns[id]]
    ensures forall other :: other != id ==> (other in Lookup(cache, ns, id).0 <==> other in cache)
  {
  }

  /** Lookups never break the invariant that cached records are non-empty. */
  lemma LookupKeepsNonEmpty(cache: map<string, string>, ns: map<string, string>, id: string)
    requires NonEmptyValues(cache)
    ensures NonEmptyValues(Lookup(cache, ns, id).0)
    ensures Lookup(cache, ns, id).1.Some? ==> Lookup(cache, ns, id).1.value != ""
  {
  }
}
