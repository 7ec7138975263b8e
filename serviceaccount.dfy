/**
 * Creating or updating the ServiceAccount a SecretStore needs
 * (pkg/serviceaccount/reconcile.go): stamp the owner reference, look the
 * account up, create it when it is missing and otherwise overwrite it.
 */
module ServiceAccountReconcile {
  import opened Wrappers
  import opened Errors
  import opened Kube
  import opened Api
  import opened Cluster

  /**
   * The controller-runtime collaborators: registering the API types in the
   * scheme (which fails or not) and stamping the owner as controller of the
   * account (which yields the stamped account or an error).
   */
  datatype Environment = Environment(
    addToScheme: Option<Error>,
    setControllerReference: (SecretStore, ServiceAccount) -> Result<ServiceAccount, Error>)

  /** Where a ServiceAccount is stored. */
  function AccountKey(account: ServiceAccount): (key: ObjectKey)
    ensures key.namespace == account.meta.namespace && key.name == account.meta.name
  {
    ObjectKey(account.meta.namespace, account.meta.name)
  }

  /**
   * `Reconcile` as a transition of the cluster state. Failures of the
   * scheme or of the owner reference return before any request; otherwise
   * one get is issued for the stamped account, followed by a create when it
   * is missing, by nothing when the get failed otherwise, and by an
   * unconditional update when it exists.
   */
  function ReconcileSpec(st: Store<ServiceAccount>, account: ServiceAccount, owner: SecretStore, env: Environment)
    : (r: (Store<ServiceAccount>, Option<Error>))
    ensures env.addToScheme.Some? ==> r == (st, env.addToScheme)
    ensures env.addToScheme.None? && env.setControllerReference(owner, account).Failure? ==>
      r == (st, Some(env.setControllerReference(owner, account).error))
    ensures r.0.faults == st.faults
    ensures st.writes <= r.0.writes && |r.0.writes| <= |st.writes| + 1
    ensures env.addToScheme.None? && env.setControllerReference(owner, account).Success? ==>
      var stamped := env.setControllerReference(owner, account).value;
      var key := AccountKey(stamped);
      var afterGet := st.(gets := st.gets + [key]);
      r.0.gets == st.gets + [key] &&
      // missing: exactly one create, whose own error is returned unwrapped
      (st.faults.get == Some(NotFound) || (st.faults.get.None? && key !in st.objects) ==>
        r.0.writes == st.writes + [Created(key, stamped)] && r == CreateStep(afterGet, key, stamped)) &&
      // any other get error: wrapped, and no write
      (st.faults.get.Some? && st.faults.get != Some(NotFound) ==>
        r == (afterGet, Some(GettingServiceAccount(key.namespace, key.name, st.faults.get.value)))) &&
      // present: updated whatever its content
      (st.faults.get.None? && key in st.objects ==>
        r.0.writes == st.writes + [Updated(key, stamped)] && r == UpdateStep(afterGet, key, stamped))
  {
    if env.addToScheme.Some? then (st, env.addToScheme)
    else
      var stamped := env.setControllerReference(owner, account);
      if stamped.Failure? then (st, Some(stamped.error))
      else
        var key := AccountKey(stamped.value);
        var (st1, got) := GetStep(st, key);
        if got.Failure? && IsNotFound(got.error) then CreateStep(st1, key, stamped.value)
        else if got.Failure? then (st1, Some(GettingServiceAccount(stamped.value.meta.namespace, stamped.value.meta.name, got.error)))
        else UpdateStep(st1, key, stamped.value)
  }

  /**
   * On a cluster that reports no failure, a successful pass leaves the
   * stamped account stored under its key, whether it was created or
   * overwritten, and nothing else changes.
   */
  lemma ReconcileStoresAccount(st: Store<ServiceAccount>, account: ServiceAccount, owner: SecretStore, env: Environment)
    requires st.faults == NoFaults && env.addToScheme.None? && env.setControllerReference(owner, account).Success?
    ensures var stamped := env.setControllerReference(owner, account).value;
      ReconcileSpec(st, account, owner, env) ==
        (ReconcileSpec(st, account, owner, env).0.(objects := st.objects[AccountKey(stamped) := stamped]), None)
  {
  }

  /** An account already stored with exactly the stamped content is still written again. */
  lemma UnchangedAccountStillUpdated(st: Store<ServiceAccount>, account: ServiceAccount, owner: SecretStore, env: Environment)
    requires env.addToScheme.None? && env.setControllerReference(owner, account).Success?
    requires var stamped := env.setControllerReference(owner, account).value;
      st.faults.get.None? && AccountKey(stamped) in st.objects && st.objects[AccountKey(stamped)] == stamped
    ensures var stamped := env.setControllerReference(owner, account).value;
      ReconcileSpec(st, account, owner, env).0.writes == st.writes + [Updated(AccountKey(stamped), stamped)]
  {
  }

  /** `Reconcile`, issuing its requests through `client`. */
  method Reconcile(client: Client<ServiceAccount>, account: ServiceAccount, owner: SecretStore, env: Environment)
    returns (err: Option<Error>)
    modifies client
    ensures (client.store, err) == ReconcileSpec(old(client.store), account, owner, env)
  {
    if env.addToScheme.Some? {
      return env.addToScheme;
    }
    var stamped := env.setControllerReference(owner, account);
    if stamped.Failure? {
      return Some(stamped.error);
    }
    var key := AccountKey(stamped.value);
    var got := client.Get(key);
    if got.Failure? && IsNotFound(got.error) {
      err := client.Create(key, stamped.value);
      return;
    } else if got.Failure? {
      return Some(GettingServiceAccount(stamped.value.meta.namespace, stamped.value.meta.name, got.error));
    }
    err := client.Update(key, stamped.value);
  }
}
