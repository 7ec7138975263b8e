# secrets-operator core, modelled in Dafny

The secrets-operator is a Kubernetes operator. This project models the parts of it that decide what gets written to the cluster and to secret stores:

- **The claim-to-Secret pipeline.** A `SecretClaim` with a `KubernetesClaim` is sent by the factory to the Kubernetes claim handler. The handler sources every declared property from its generator: an HMAC key, or a password with the given settings. It base64-encodes each value (section 4 of RFC 4648) and builds a Secret that the claim owns. Then it applies the Secret. If nothing is stored under the Secret's key, the Secret is created. If the stored Secret is owned by the claim, it is overwritten. Otherwise the handler refuses.
- **Hash-labelled Deployments.** An expected Deployment carries, under the label `secrets-operator/template-hash`, the decimal form of the 32-bit FNV-1 hash of its own printed form. The reconciler updates the stored Deployment only when its label differs from the expected one.
- **The ServiceAccount reconcile.** The owner reference is stamped on the account. The account is then looked up, created when it is missing, and overwritten unconditionally when it exists.
- **The secret-store health probe.** The current time is written under `lastUpdated` and read back. The probe distinguishes a failed write, a failed read and a mismatch.
- **The builders.** These are the pod-template and ServiceAccount builders, the GKE workload-identity objects built with them, and the `Location()` accessors of the Azure Key Vault and Google Secret Manager providers.

How the model is laid out:

- **Source shape.**
  - The Go code that works step by step against a server is modelled as imperative Dafny. This covers applying the Secret, the property loop of `Handle`, the ServiceAccount reconcile, the health probe, the builders and the reconciled-Deployment closure.
  - The operations that talk to a server (`ApplySecret`, `Handle`, `Reconcile`, `CheckSecretStoreHealth`) are methods over a client class (`Cluster.Client`, `SecretFacade.SecretStoreClient`). Each one's postcondition equates the new server state and the result with a pure transition function of the old state: `ApplySecretSpec`, `HandleSpec`, `ReconcileSpec` or `CheckSpec`. The source's promises are proved as postconditions of those functions and as lemmas.
  - The builders (`PodTemplateBuilder`, `ServiceAccountBuilder`) and the reconciled Deployment (`ReconciledDeployment`, changed by `UpdateReconciled`) are classes whose methods state their new field values directly, in terms of the old ones.
  - The pure Go code stays pure, as functions and lemmas: hashing, labels, `New`, ownership and dispatch.
- **Servers.** The Kubernetes API server is a map from namespace and name to object, with a log of the requests issued. The secret store is modelled the same way. Failures are injected per operation (`Cluster.Faults`, `SecretFacade.KvStore`), so every outcome a server may choose is covered.
- **Collaborators.** Collaborators that are not shown are parameters:
  - the HMAC and password generators (`Generation.Generators`);
  - spew's printer inside `HashObject` (`render`);
  - `AddToScheme` and `SetControllerReference` (`ServiceAccountReconcile.Environment`);
  - the clock reading in the health probe (`now`).

Where the code and the operator's documentation disagree, the model follows the code:

- `checkOwnership` is described as looking for the claim among the owner references. It loops over them but returns on the first one, so only the first reference decides ownership. `OwnerAfterFirstDenied` exhibits a Secret that lists the claim second and is judged not owned.
- The typed client returns an empty object together with a Get error. So a Get that fails with anything other than NotFound makes `applySecret` report "not owned by this claim", and it issues no write.
- The ServiceAccount reconcile updates an existing account on every pass, even when its content is already what is expected (`UnchangedAccountStillUpdated`).
- `WithEnv`, `WithLabels` and `WithAnnotations` of the pod-template builder replace the whole field. Their doc comments say existing entries are kept. `setDefaults` says it disables service-account token auto-mount, but it only appends the default container.

## Model

| member | source | states |
|---|---|---|
| Factory.CreateClaimHandler | pkg/claimhandlers/factory/factory.go:12-17 | a handler exactly when the claim has a KubernetesClaim, holding that claim and context unchanged; otherwise the "unable to determine claim type" error |
| KubernetesClaim.NewHandler | pkg/claimhandlers/kubernetesclaim/kubernetesclaim.go:172-174 | the handler holds the given claim and context |
| KubernetesClaim.CreateOwnerReference | pkg/claimhandlers/kubernetesclaim/kubernetesclaim.go:176-183 | the reference names the claim's kind, API version, name and UID |
| KubernetesClaim.CheckOwnership | pkg/claimhandlers/kubernetesclaim/kubernetesclaim.go:185-202 | owned exactly when the list is non-empty and its first entry is the claim's own owner reference |
| KubernetesClaim.OnlyFirstOwnerConsulted | pkg/claimhandlers/kubernetesclaim/kubernetesclaim.go:185-202 | entries after the first never change the verdict |
| KubernetesClaim.OwnerAfterFirstDenied | pkg/claimhandlers/kubernetesclaim/kubernetesclaim.go:185-202 | a list holding the claim's reference second, behind another owner, is judged not owned |
| KubernetesClaim.OtherUidDenied | pkg/claimhandlers/kubernetesclaim/kubernetesclaim.go:196-198 | a first entry that differs from the claim's reference only in UID is judged not owned |
| KubernetesClaim.CreateSecret | pkg/claimhandlers/kubernetesclaim/kubernetesclaim.go:156-170 | the Secret takes name, namespace, labels, annotations and type from the KubernetesClaim and the given data; its only owner reference is the claim's, so the claim owns it |
| KubernetesClaim.SourceProperties | pkg/claimhandlers/kubernetesclaim/kubernetesclaim.go:34-44 | the data map the property loop builds, in order; a failure is the "error sourcing property" error and names one of the declared properties |
| KubernetesClaim.SourcingSucceedsIff | pkg/claimhandlers/kubernetesclaim/kubernetesclaim.go:35-39 | sourcing succeeds exactly when every property's source yields a value |
| KubernetesClaim.FailureSticks | pkg/claimhandlers/kubernetesclaim/kubernetesclaim.go:35-39 | once a prefix of the properties fails, the later properties are never consulted |
| KubernetesClaim.FirstFailureReported | pkg/claimhandlers/kubernetesclaim/kubernetesclaim.go:35-39 | the error names the first property whose source fails |
| KubernetesClaim.SourcedKeys | pkg/claimhandlers/kubernetesclaim/kubernetesclaim.go:34-44 | on success the data's keys are exactly the declared property names |
| KubernetesClaim.SourcedValue | pkg/claimhandlers/kubernetesclaim/kubernetesclaim.go:35-44 | under each name is the base64 encoding of the value sourced for the last property of that name |
| KubernetesClaim.SourcedValueDecodes | pkg/claimhandlers/kubernetesclaim/kubernetesclaim.go:40-43 | each stored value has the length the encoding prescribes and decodes back to the sourced value |
| KubernetesClaim.ApplySecretSpec | pkg/claimhandlers/kubernetesclaim/kubernetesclaim.go:55-80 | no client set: no request. Otherwise one Get and at most one write, of this Secret under its key. NotFound: create, with its error wrapped. Owned: update, with its error wrapped. Anything else: the "not owned" error and no write. Success stores the Secret; failure changes no object |
| KubernetesClaim.ApplySecret | pkg/claimhandlers/kubernetesclaim/kubernetesclaim.go:55-80 | the cluster state and error after the call are those of ApplySecretSpec |
| KubernetesClaim.HandleSpec | pkg/claimhandlers/kubernetesclaim/kubernetesclaim.go:32-53 | a property that fails aborts before any request; at most one write, and it is the claim's Secret over the sourced data; every failed apply, a failure to build the client set included, is wrapped as "error when applying secret"; success leaves the claim's Secret over the sourced data stored under its key, and no other object changed |
| KubernetesClaim.HandleWritesEncodedProperties | pkg/claimhandlers/kubernetesclaim/kubernetesclaim.go:32-53 | a written Secret is owned by the claim alone, its keys are the property names, and each value decodes to what that property's source yielded |
| KubernetesClaim.Handle | pkg/claimhandlers/kubernetesclaim/kubernetesclaim.go:32-53 | the loop over the properties and the apply reach the state and error of HandleSpec |
| Base64.Encode | pkg/claimhandlers/kubernetesclaim/kubernetesclaim.go:40-42 | the encoding has length 4 times the number of 3-byte groups, rounded up |
| Base64.DecodeEncode | pkg/claimhandlers/kubernetesclaim/kubernetesclaim.go:40-42 | decoding the standard padded encoding gives back the input |
| Base64.EncodeAlphabet | pkg/claimhandlers/kubernetesclaim/kubernetesclaim.go:40-42 | every output byte is in the standard alphabet, except padding in the last two places |
| Base64.EncodeInjective | pkg/claimhandlers/kubernetesclaim/kubernetesclaim.go:40-42 | distinct inputs give distinct encodings |
| Generation.Generate | pkg/generation/generate.go:11-24 | HMAC takes precedence; otherwise the password generator with the six settings in order; otherwise "unable to determine property generator" |
| Generation.HmacPrecedence | pkg/generation/generate.go:12-13 | with HMAC set, the password settings play no part |
| Source.HandleProperty | pkg/source/propertyhandler.go:10-15 | a source with a generator yields what the generator yields; one without yields "unable to determine how to source property" |
| Deployment.GetTemplateHashLabel | pkg/deployment/reconcile.go:42-45 | the value under `secrets-operator/template-hash`; "" when the key or the whole map is absent |
| Deployment.HashObject | pkg/deployment/reconcile.go:61-78 | 1 to 10 decimal digits, which read back as the FNV-1 32 sum of the printed form |
| Deployment.HashObjectEqualIff | pkg/deployment/reconcile.go:68-78 | equal hashes exactly when the FNV-1 sums are equal |
| Fnv.Sum32 | pkg/deployment/reconcile.go:69-77 | the sum is below 2^32 |
| Fnv.FoldConcat | pkg/deployment/reconcile.go:69-77 | hashing data written in pieces equals hashing it at once, so the printer's chunking does not matter |
| Fnv.KnownAnswers | pkg/deployment/reconcile.go:69 | the empty input hashes to the offset basis 0x811c9dc5, and "a" hashes to 0x050c5d7e |
| Decimal.Format | pkg/deployment/reconcile.go:77 | at least one digit, all decimal digits, no leading zero |
| Decimal.ParseFormat | pkg/deployment/reconcile.go:77 | reading the digits back gives the number |
| Decimal.FormatInjective | pkg/deployment/reconcile.go:77 | distinct numbers print differently |
| Decimal.FormatUint32Length | pkg/deployment/reconcile.go:77 | a 32-bit value prints in 1 to 10 digits |
| Deployment.SetHashLabel | pkg/deployment/reconcile.go:53-59 | nil labels give a fresh map holding only the hash label; otherwise the hash label is set and every other label is kept |
| Deployment.SetTemplateHashLabel | pkg/deployment/reconcile.go:47-51 | the template-hash label reads back as the template's hash; the keys are the old ones plus that label, with the other values kept |
| Deployment.WithTemplateHash | pkg/deployment/reconcile.go:126-131 | the copy's label reads back as the hash of the Deployment as given; its label keys are the old ones plus the hash label, and its spec, name, namespace, annotations, owners and other label values are unchanged |
| Deployment.New | pkg/deployment/reconcile.go:80-98 | the Params fields map one to one, with the selector as match labels and a revision history limit of 0 |
| Deployment.NeedsUpdate | pkg/deployment/reconcile.go:115-118 | an update is needed exactly when the stored and expected hash labels differ, a missing label reading as ""; equal labels never need one |
| Deployment.NeedsUpdateIffHashDiffers | pkg/deployment/reconcile.go:115-118 | between hash-labelled Deployments an update is needed exactly when the FNV-1 sums of their printed forms differ |
| Deployment.UnlabelledNeedsUpdate | pkg/deployment/reconcile.go:115-118 | a stored Deployment without the label always needs an update |
| Deployment.ReconciledDeployment.constructor | pkg/deployment/reconcile.go:109 | the reconciled Deployment starts as the zero Deployment |
| Deployment.UpdateReconciled | pkg/deployment/reconcile.go:119-121 | the reconciled Deployment becomes the expected one, after which no update is needed |
| ServiceAccountReconcile.ReconcileSpec | pkg/serviceaccount/reconcile.go:16-41 | scheme or owner-reference failures return before any request. NotFound: exactly one create, its error returned as is. Any other Get error: wrapped with namespace and name, no write. Found: an unconditional update. At most one write |
| ServiceAccountReconcile.ReconcileStoresAccount | pkg/serviceaccount/reconcile.go:27-40 | on a cluster that reports no failure, the stamped account ends up stored and no error is returned |
| ServiceAccountReconcile.UnchangedAccountStillUpdated | pkg/serviceaccount/reconcile.go:39-40 | an account already stored with the expected content is written again |
| ServiceAccountReconcile.Reconcile | pkg/serviceaccount/reconcile.go:16-41 | the requests issued and the error are those of ReconcileSpec |
| Health.CheckSpec | pkg/secretstores/health/health.go:15-35 | healthy exactly when the write and the read succeed and the read returns the time written. A write failure is "unable to set" and issues no read. A read failure is "unable to get". A mismatch carries both values. Both calls use the provider's location and `lastUpdated`, and the read asks for version "" |
| Health.ConsistentStoreIsHealthy | pkg/secretstores/health/health.go:15-35 | a store that serves what was last written and reports no failure always passes |
| Health.CheckSecretStoreHealth | pkg/secretstores/health/health.go:15-35 | the calls, verdict and error are those of CheckSpec |
| Builders.PodTemplateBuilder.constructor | pkg/builders/pod_template.go:10-13 | a new template has exactly one container, "store-operator" with no image, and nothing else set |
| Builders.PodTemplateBuilder.SetDefaults | pkg/builders/pod_template.go:15-20 | appends the default container and changes nothing else |
| Builders.PodTemplateBuilder.WithServiceAccount | pkg/builders/pod_template.go:22-27 | sets the service account name only while it is empty; returns the same builder |
| Builders.PodTemplateBuilder.WithImage | pkg/builders/pod_template.go:29-34 | sets the first container's image only while it is empty (there must be a container) |
| Builders.PodTemplateBuilder.WithEnv | pkg/builders/pod_template.go:36-40 | replaces the first container's environment wholesale |
| Builders.PodTemplateBuilder.WithLabels | pkg/builders/pod_template.go:42-46 | replaces the labels wholesale and nothing else |
| Builders.PodTemplateBuilder.WithAnnotations | pkg/builders/pod_template.go:48-52 | replaces the annotations wholesale and nothing else |
| Builders.FirstServiceAccountSticks | pkg/builders/pod_template.go:22-27 | a second service account name given to a builder has no effect |
| Builders.LabelsReplaced | pkg/builders/pod_template.go:42-52 | labels and annotations set earlier are not kept |
| Builders.ServiceAccountBuilder.constructor | pkg/builders/service_account.go:10-13 | wraps the account unchanged |
| Builders.ServiceAccountBuilder.WithAnnotations | pkg/builders/service_account.go:15-20 | sets the annotations only while they are nil, changes nothing else, returns the same builder |
| Builders.EmptyAnnotationsBlock | pkg/builders/service_account.go:16 | an empty but non-nil annotation map blocks the setter |
| Gcp.GcpPodTemplateSpec | pkg/secretstores/gcp/gcp.go:11-15 | the template runs as the workload-identity account unless it already names one |
| Gcp.GcpServiceAccount | pkg/secretstores/gcp/gcp.go:17-29 | the account is named after the workload-identity account, in the store's namespace, with exactly one annotation `iam.gke.io/gcp-service-account` set to `<gcp account>@<project>.iam.gserviceaccount.com` |
| Gcp.EmailNamesAccount | pkg/secretstores/gcp/gcp.go:24-27 | the Google account is recovered from the annotation as the part before the first '@' |
| AzureKeyVault.Location | pkg/secretstores/azurekeyvault/provider.go:9-11 | the location is the vault name exactly, with no validation |
| AzureKeyVault.SameLocationIffSameVault | pkg/secretstores/azurekeyvault/provider.go:9-11 | the location determines the modelled settings, which hold only the vault name |
| AzureKeyVault.NamedVaultLocation | pkg/secretstores/azurekeyvault/provider_test.go:12-17 | the vault "my-vault-name" is at location "my-vault-name" |
| GcpSecretsManager.Location | pkg/secretstores/gcpsecretsmanager/provider.go:9-11 | the location is the project id exactly, with no validation |
| GcpSecretsManager.LocationIgnoresAuth | pkg/secretstores/gcpsecretsmanager/provider.go:9-11 | the authentication settings play no part in the location |

## Left out

- Building the client set (`createClientSet`, `createKubeConfig`, `createKubeConfigPath`, `fileExists`, `homeDir`) reads the environment and the filesystem. It is not modelled. Its outcome is the `connect` fault of the cluster store: success or an error returned as is.
- The controller (`controllers/secretstore_controller.go`) is not part of this model. It is a controller-runtime loop with a 30-second requeue. Its one decision, that the store uses Google Secret Manager with workload identity, appears as the precondition `HasGcpWorkloadIdentity` of the GCP builders.
- `reconciler.ReconcileResource` is not part of this model. `Deployment.Reconcile` is modelled only through what it hands to it: the hash-labelled expected Deployment, the zero reconciled Deployment, and the `NeedsUpdate` and `UpdateReconciled` closures.
- spew's printer is the parameter `render`. It prints map keys sorted and follows pointers. Dafny maps and datatypes are unordered values without pointers, so key order and pointer identity cannot reach `render` in this model.
- The HMAC and password generators are parameters. Their randomness is left out: one generator gives the same value each time it is consulted within one pass.
- `AddToScheme` and `SetControllerReference` are parameters. Their effect on the process-wide scheme is not modelled.
- `time.Now()` is the parameter `now` of the health probe. `context.Context` and its cancellation are dropped throughout. The handler's context is an opaque value.
- Only the fields the core reads or writes are modelled:
  - object metadata is name, namespace, labels, annotations and owner references;
  - an owner reference is API version, kind, name and UID, without the `Controller` and `BlockOwnerDeletion` flags (which the core leaves unset);
  - a container is name, image and environment.
- Deployment.SetHashLabel: Go writes the hash into the caller's map in place and returns that map. The model returns a new map value. The only caller passes a deep copy, so the aliasing is not observable there, and it is not modelled.
- Errors are values that keep the cause where the source wraps with `%w`. The message text is not modelled.
- `SecretFacade` models the external secret-store interface: set, and get of the latest version. Versions other than "" are logged but not distinguished.

