/**
 * The secret-store health probe (pkg/secretstores/health/health.go): write
 * the current time under a fixed name, read it back, and compare.
 */
module Health {
  import opened Wrappers
  import opened Errors
  import opened SecretFacade

  /** The name the probe writes and reads. */
  const SecretName := "lastUpdated"

  /**
   * `CheckSecretStoreHealth` as a transition of the store, with the clock
   * reading `now` as a parameter: the new store, the verdict and the error.
   * The verdict is true exactly when the write and the read succeed and the
   * read returns `now`; the three failures are told apart.
   */
  function CheckSpec(st: KvStore, location: SecretLocation, now: string): (r: (KvStore, bool, Option<Error>))
    ensures r.1 <==> r.2.None?
    ensures var key := SecretKey(LocationOf(location), SecretName);
      r.1 <==> st.setFault.None? && st.getFault.None? && (!st.lagging || (key in st.served && st.served[key] == now))
    // the write and the read address the same location and name; the read asks for the latest version
    ensures st.setFault.Some? ==> r.0.calls == st.calls + [SetSecretCall(LocationOf(location), SecretName, now)]
    ensures st.setFault.None? ==> r.0.calls == st.calls + [SetSecretCall(LocationOf(location), SecretName, now),
                                                          GetSecretCall(LocationOf(location), SecretName, "")]
    ensures st.setFault.Some? ==> r.2 == Some(SettingHealthSecret(st.setFault.value)) && r.0.written == st.written
    ensures st.setFault.None? ==> r.0.written == st.written[SecretKey(LocationOf(location), SecretName) := now]
    ensures st.setFault.None? && st.getFault.Some? ==> r.2 == Some(GettingHealthSecret(st.getFault.value))
    ensures var key := SecretKey(LocationOf(location), SecretName);
      st.setFault.None? && st.getFault.None? && st.lagging ==>
        r.2 == if key !in st.served then Some(GettingHealthSecret(NotFound))
               else if st.served[key] != now then Some(HealthSecretMismatch(st.served[key], now))
               else None
  {
    var loc := LocationOf(location);
    var (st1, setErr) := SetSecretStep(st, loc, SecretName, now);
    if setErr.Some? then (st1, false, Some(SettingHealthSecret(setErr.value)))
    else
      var (st2, got) := GetSecretStep(st1, loc, SecretName, "");
      if got.Failure? then (st2, false, Some(GettingHealthSecret(got.error)))
      else if got.value != now then (st2, false, Some(HealthSecretMismatch(got.value, now)))
      else (st2, true, None)
  }

  /** A store that serves what was last written and reports no failure always passes the probe. */
  lemma ConsistentStoreIsHealthy(st: KvStore, location: SecretLocation, now: string)
    requires st.setFault.None? && st.getFault.None? && !st.lagging
    ensures CheckSpec(st, location, now) == (CheckSpec(st, location, now).0, true, None)
  {
  }

  /** `CheckSecretStoreHealth`, issuing its calls through `store`. */
  method CheckSecretStoreHealth(store: SecretStoreClient, location: SecretLocation, now: string)
    returns (healthy: bool, err: Option<Error>)
    modifies store
    ensures (store.store, healthy, err) == CheckSpec(old(store.store), location, now)
  {
    var loc := LocationOf(location);
    var setErr := store.SetSecret(loc, SecretName, now);
    if setErr.Some? {
      return false, Some(SettingHealthSecret(setErr.value));
    }
    var got := store.GetSecret(loc, SecretName, "");
    if got.Failure? {
      return false, Some(GettingHealthSecret(got.error));
    }
    if got.value != now {
      return false, Some(HealthSecretMismatch(got.value, now));
    }
    return true, None;
  }
}
