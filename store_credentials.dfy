/**
 * The store registry: the four stores the services accept, the upstream
 * credentials of each (read from configuration with a shared fallback),
 * and the display names shown to users. Store names are matched after
 * lower-casing.
 */
module StoreRegistry {
  import opened Wrappers
  import opened Text

  /** The configuration values, by variable name; a missing name reads as `undefined`. */
  type Env = map<string, string>

  function Get(env: Env, name: string): (v: Option<string>)
    ensures v.Some? <==> name in env
  {
    if name in env then Some(env[name]) else None
  }

  /** `apiKey`, `invoicesApiUrl`, `billsApiUrl`; each may be missing when the configuration lacks it. */
  datatype StoreCredentials = StoreCredentials(apiKey: Option<string>, invoicesApiUrl: Option<string>,
                                               billsApiUrl: Option<string>)

  datatype CredentialsError =
    | InvalidStore(store: string)        // "Tienda inválida: <store>. ..."
    | MissingCredentials(store: string)  // "No se encontraron credenciales para la tienda: <store>"

  function ValidStores(): seq<string>
  {
    ["pasto", "medellin", "armenia", "pereira"]
  }

  /** `stores.includes(key)`, one store at a time. */
  predicate Listed(key: string, stores: seq<string>)
  {
    stores != [] && (key == stores[0] || Listed(key, stores[1..]))
  }

  lemma {:induction false} ListedIffIn(key: string, stores: seq<string>)
    ensures Listed(key, stores) <==> key in stores
  {
    if stores != [] {
      ListedIffIn(key, stores[1..]);
      assert stores == [stores[0]] + stores[1..];
    }
  }

  /** `validStores.includes(store?.toLowerCase())`. */
  predicate IsValidStore(store: string)
  {
    Listed(Lower(store), ValidStores())
  }

  /** `getAllValidStores()`: exactly the stores `IsValidStore` accepts, in lower case. */
  function GetAllValidStores(): (r: seq<string>)
    ensures |r| == 4
    ensures forall s :: IsValidStore(s) <==> Lower(s) in r
  {
    assert forall s :: IsValidStore(s) <==> Lower(s) in ValidStores() by {
      forall s ensures IsValidStore(s) <==> Lower(s) in ValidStores() {
        ListedIffIn(Lower(s), ValidStores());
      }
    }
    ValidStores()
  }

  /** Lower-casing twice changes nothing more. */
  lemma {:induction false} LowerIdempotent(s: string)
    ensures Lower(Lower(s)) == Lower(s)
  {
    if s != [] {
      LowerIdempotent(s[1..]);
    }
  }

  /** Validity ignores case: `IsValidStore(s)` exactly when `IsValidStore(toLowerCase(s))`. */
  lemma ValidityIgnoresCase(s: string)
    ensures IsValidStore(s) <==> IsValidStore(Lower(s))
  {
    LowerIdempotent(s);
    ListedIffIn(Lower(s), ValidStores());
    ListedIffIn(Lower(Lower(s)), ValidStores());
  }

  /** `storeNames[store?.toLowerCase()] || store`. */
  function GetStoreDisplayName(store: string): (name: string)
    ensures IsValidStore(store) ==> name == DisplayNameOf(Lower(store))
    ensures !IsValidStore(store) ==> name == store
  {
    var key := Lower(store);
    ListedIffIn(key, ValidStores());
    if key in ValidStores() then DisplayNameOf(key) else store
  }

  function DisplayNameOf(key: string): string
    requires Listed(key, ValidStores())
  {
    if key == "pasto" then "Smart Gadgets Pasto"
    else if key == "medellin" then "Smart Gadgets Medell\U{ED}n"
    else if key == "armenia" then "Smart Gadgets Armenia"
    else "Smart Gadgets Pereira"
  }

  /** The four display names are distinct, so a display name identifies its store. */
  lemma DisplayNamesDistinct(a: string, b: string)
    requires IsValidStore(a) && IsValidStore(b)
    ensures GetStoreDisplayName(a) == GetStoreDisplayName(b) <==> Lower(a) == Lower(b)
  {
    ListedIffIn(Lower(a), ValidStores());
    ListedIffIn(Lower(b), ValidStores());
  }

  /** `configService.get(specific) || configService.get(shared)`. */
  function WithFallback(env: Env, specific: string, shared: string): (v: Option<string>)
    ensures Truthy(Get(env, specific)) ==> v == Some(env[specific])
    ensures !Truthy(Get(env, specific)) ==> v == Get(env, shared)
  {
    Or(Get(env, specific), Get(env, shared))
  }

  /** The credentials of one store that has its own variables, falling back to the shared ones. */
  function OwnOrShared(env: Env, keyVar: string, invoicesVar: string, billsVar: string): StoreCredentials
  {
    StoreCredentials(WithFallback(env, keyVar, "ALEGRA_API_KEY"),
                     WithFallback(env, invoicesVar, "ALEGRA_API_URL"),
                     WithFallback(env, billsVar, "ALEGRA_BILLS_API_URL"))
  }

  /** The credentials `initializeStoreCredentials` registers, by store. */
  function InitialCredentials(env: Env): (m: map<string, StoreCredentials>)
    ensures m.Keys == set s | s in ValidStores()
    ensures m["medellin"] == StoreCredentials(Get(env, "ALEGRA_API_KEY"), Get(env, "ALEGRA_API_URL"),
                                              Get(env, "ALEGRA_BILLS_API_URL"))
  {
    map["pasto" := OwnOrShared(env, "PASTO_API_KEY", "ALEGRA_API_URL_PASTO", "ALEGRA_BILLS_API_URL_PASTO"),
        "medellin" := StoreCredentials(Get(env, "ALEGRA_API_KEY"), Get(env, "ALEGRA_API_URL"),
                                       Get(env, "ALEGRA_BILLS_API_URL")),
        "armenia" := OwnOrShared(env, "ARMENIA_API_KEY", "ALEGRA_API_URL_ARMENIA", "ALEGRA_BILLS_API_URL_ARMENIA"),
        "pereira" := OwnOrShared(env, "PEREIRA_API_KEY", "ALEGRA_API_URL_PEREIRA", "ALEGRA_BILLS_API_URL_PEREIRA")]
  }

  /** A store without variables of its own uses the shared credentials, exactly as Medellín does. */
  lemma FallbackToShared(env: Env, store: string)
    requires store in ValidStores()
    requires forall name :: name in env ==> name in {"ALEGRA_API_KEY", "ALEGRA_API_URL", "ALEGRA_BILLS_API_URL"}
    ensures InitialCredentials(env)[store] == InitialCredentials(env)["medellin"]
  {
  }

  class StoreCredentialsService {
    var storeCredentials: map<string, StoreCredentials>

    /** Every valid store has its credentials registered. */
    ghost predicate Valid()
      reads this
    {
      forall s :: s in ValidStores() ==> s in storeCredentials
    }

    constructor (env: Env)
      ensures storeCredentials == InitialCredentials(env)
      ensures Valid()
    {
      storeCredentials := InitialCredentials(env);
    }

    /** `getCredentials(store)`: the lower-cased store's credentials, or the error it throws. */
    function GetCredentials(store: string): (r: Result<StoreCredentials, CredentialsError>)
      reads this
      ensures r == Err(InvalidStore(store)) <==> !IsValidStore(store)
      ensures r.Ok? ==> Lower(store) in storeCredentials && r.value == storeCredentials[Lower(store)]
      ensures Valid() ==> (r.Ok? <==> IsValidStore(store))
    {
      var key := Lower(store);
      ListedIffIn(key, ValidStores());
      if key !in ValidStores() then Err(InvalidStore(store))
      else if key !in storeCredentials then Err(MissingCredentials(store))
      else Ok(storeCredentials[key])
    }
  }
}
