/**
 * The operator's own resources (API group secret-operator.io, version
 * v1alpha1), restricted to the fields the core reads.
 */
module Api {
  import opened Wrappers
  import opened Kube

  /** Settings of the password generator. */
  datatype PasswordGenerator = PasswordGenerator(
    length: int,
    allowedSymbols: string,
    numDigits: int,
    numSymbols: int,
    allowRepeat: bool,
    noUpper: bool)

  /** Which generator produces a property: `hmac` or a password (nil when `None`). */
  datatype PropertyGenerator = PropertyGenerator(hmac: bool, password: Option<PasswordGenerator>)

  /** Where a property's value comes from (nil generator when `None`). */
  datatype PropertySource = PropertySource(propertyGenerator: Option<PropertyGenerator>)

  /** One named property of a claimed secret. */
  datatype Property = Property(name: string, propertySource: PropertySource)

  /** The Secret a claim asks for, and its properties. */
  datatype KubernetesClaim = KubernetesClaim(
    name: string,
    namespace: string,
    labels: StringMap,
    annotations: StringMap,
    secretType: string,
    properties: seq<Property>)

  datatype SecretClaimSpec = SecretClaimSpec(kubernetesClaim: Option<KubernetesClaim>)

  /** A SecretClaim: its type meta (kind, apiVersion), name, uid and spec. */
  datatype SecretClaim = SecretClaim(
    kind: string,
    apiVersion: string,
    name: string,
    uid: string,
    spec: SecretClaimSpec)

  /** GKE workload identity: the Kubernetes and the Google service account. */
  datatype WorkloadIdentity = WorkloadIdentity(serviceAccount: string, gcpServiceAccount: string)

  datatype GcpAuth = GcpAuth(workloadIdentity: Option<WorkloadIdentity>)

  datatype GcpSecretsManagerProvider = GcpSecretsManagerProvider(projectId: string, auth: GcpAuth)

  datatype AzureKeyVaultProvider = AzureKeyVaultProvider(vaultName: string)

  datatype Provider = Provider(
    gcpSecretsManager: Option<GcpSecretsManagerProvider>,
    azureKeyVault: Option<AzureKeyVaultProvider>)

  datatype SecretStoreSpec = SecretStoreSpec(provider: Provider)

  /** A SecretStore resource. */
  datatype SecretStore = SecretStore(name: string, namespace: string, spec: SecretStoreSpec)

  /** The store uses GCP Secret Manager with workload identity (the controller's guard). */
  predicate HasGcpWorkloadIdentity(store: SecretStore) {
    store.spec.provider.gcpSecretsManager.Some? &&
    store.spec.provider.gcpSecretsManager.value.auth.workloadIdentity.Some?
  }
}
