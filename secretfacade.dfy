/**
 * The external secret store the health probe talks to: the
 * `SecretLocation` interface of the providers, and a key/value store with
 * `SetSecret` and `GetSecret`.
 *
 * The store keeps what was written (`written`) apart from what it serves to
 * readers (`served`). A store that is `lagging` serves reads from a replica
 * that has not seen the latest writes; otherwise a write is served at once.
 * Injected faults fail every set or every get, and every call is logged.
 */
module SecretFacade {
  import opened Wrappers
  import opened Errors
  import AzureKeyVault
  import GcpSecretsManager

  /** `api.SecretLocation`: the providers that can name where their secrets live. */
  datatype SecretLocation =
    | AzureKeyVaultLocation(azure: AzureKeyVault.AzureKeyVaultProvider)
    | GcpSecretsManagerLocation(gcp: GcpSecretsManager.GcpSecretsManagerProvider)

  /** `Location()`, dispatched to the provider. */
  function LocationOf(location: SecretLocation): (r: string)
    ensures location.AzureKeyVaultLocation? ==> r == location.azure.settings.vaultName
    ensures location.GcpSecretsManagerLocation? ==> r == location.gcp.settings.projectId
  {
    match location
    case AzureKeyVaultLocation(p) => AzureKeyVault.Location(p)
    case GcpSecretsManagerLocation(p) => GcpSecretsManager.Location(p)
  }

  /** A secret's address: a location and a name within it. */
  datatype SecretKey = SecretKey(location: string, name: string)

  datatype Call =
    | SetSecretCall(location: string, name: string, value: string)
    | GetSecretCall(location: string, name: string, version: string)

  datatype KvStore = KvStore(
    written: map<SecretKey, string>,
    served: map<SecretKey, string>,
    lagging: bool,
    setFault: Option<Error>,
    getFault: Option<Error>,
    calls: seq<Call>)

  /** `SetSecret`: records `value` under the key unless the set fault is injected. */
  function SetSecretStep(st: KvStore, location: string, name: string, value: string): (KvStore, Option<Error>) {
    var st' := st.(calls := st.calls + [SetSecretCall(location, name, value)]);
    var key := SecretKey(location, name);
    if st.setFault.Some? then (st', st.setFault)
    else if st.lagging then (st'.(written := st.written[key := value]), None)
    else (st'.(written := st.written[key := value], served := st.served[key := value]), None)
  }

  /** `GetSecret`: the served value under the key (the latest version), NotFound when there is none. */
  function GetSecretStep(st: KvStore, location: string, name: string, version: string): (KvStore, Result<string, Error>) {
    var st' := st.(calls := st.calls + [GetSecretCall(location, name, version)]);
    var key := SecretKey(location, name);
    if st.getFault.Some? then (st', Failure(st.getFault.value))
    else if key in st.served then (st', Success(st.served[key]))
    else (st', Failure(NotFound))
  }

  /** A connection to a secret store whose state is `store`. */
  class SecretStoreClient {
    var store: KvStore

    constructor (store: KvStore)
      ensures this.store == store
    {
      this.store := store;
    }

    method SetSecret(location: string, name: string, value: string) returns (err: Option<Error>)
      modifies this
      ensures (store, err) == SetSecretStep(old(store), location, name, value)
    {
      var (st, out) := SetSecretStep(store, location, name, value);
      store, err := st, out;
    }

    method GetSecret(location: string, name: string, version: string) returns (r: Result<string, Error>)
      modifies this
      ensures (store, r) == GetSecretStep(old(store), location, name, version)
    {
      var (st, out) := GetSecretStep(store, location, name, version);
      store, r := st, out;
    }
  }
}
