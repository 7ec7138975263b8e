/**
 * The Kubernetes objects a Google Secret Manager store with workload
 * identity needs (pkg/secretstores/gcp/gcp.go): the pod runs as the
 * workload-identity ServiceAccount, which is annotated with the Google
 * service account it impersonates.
 */
module Gcp {
  import opened Wrappers
  import opened Kube
  import opened Api
  import opened Builders

  /** The annotation GKE reads to bind a Kubernetes ServiceAccount to a Google one. */
  const GkeServiceAccountAnnotation := "iam.gke.io/gcp-service-account"

  const GkeServiceAccountDomain := ".iam.gserviceaccount.com"

  /** The Google service account's e-mail address within the project. */
  function GkeServiceAccountEmail(gcpServiceAccount: string, projectId: string): string {
    gcpServiceAccount + "@" + projectId + GkeServiceAccountDomain
  }

  /** The part of `s` before its first '@' (all of `s` when there is none). */
  function BeforeFirstAt(s: string): (r: string)
    ensures r <= s && '@' !in r
  {
    if s == [] || s[0] == '@' then [] else [s[0]] + BeforeFirstAt(s[1..])
  }

  /**
   * When the Google account name holds no '@', it is recovered from the
   * e-mail address as the part before the first '@'.
   */
  lemma {:induction false} EmailNamesAccount(gcpServiceAccount: string, projectId: string)
    requires '@' !in gcpServiceAccount
    ensures BeforeFirstAt(GkeServiceAccountEmail(gcpServiceAccount, projectId)) == gcpServiceAccount
  {
    var email := GkeServiceAccountEmail(gcpServiceAccount, projectId);
    if gcpServiceAccount == [] {
      assert email[0] == '@';
    } else {
      assert email[0] == gcpServiceAccount[0];
      assert email[1..] == GkeServiceAccountEmail(gcpServiceAccount[1..], projectId);
      EmailNamesAccount(gcpServiceAccount[1..], projectId);
    }
  }

  /**
   * `GcpPodTemplateSpec`: the builder's template, run as the
   * workload-identity ServiceAccount unless it already names one.
   */
  method GcpPodTemplateSpec(store: SecretStore, builder: PodTemplateBuilder) returns (t: PodTemplateSpec)
    requires HasGcpWorkloadIdentity(store)
    modifies builder
    ensures t == builder.podTemplate
    ensures var sa := store.spec.provider.gcpSecretsManager.value.auth.workloadIdentity.value.serviceAccount;
      t == old(builder.podTemplate).(spec := old(builder.podTemplate).spec.(
        serviceAccountName := if old(builder.podTemplate.spec.serviceAccountName) == "" then sa
                              else old(builder.podTemplate.spec.serviceAccountName)))
  {
    var b := builder.WithServiceAccount(store.spec.provider.gcpSecretsManager.value.auth.workloadIdentity.value.serviceAccount);
    t := b.podTemplate;
  }

  /**
   * `GcpServiceAccount`: the workload-identity ServiceAccount in the
   * store's namespace, annotated (always, since it starts with no
   * annotations) with exactly the GKE binding to the Google account.
   */
  method GcpServiceAccount(store: SecretStore) returns (account: ServiceAccount)
    requires HasGcpWorkloadIdentity(store)
    ensures var gsm := store.spec.provider.gcpSecretsManager.value;
      var wi := gsm.auth.workloadIdentity.value;
      account == ServiceAccount(ObjectMeta(wi.serviceAccount, store.namespace, None,
        Some(map[GkeServiceAccountAnnotation := wi.gcpServiceAccount + "@" + gsm.projectId + ".iam.gserviceaccount.com"]), []))
  {
    var gsm := store.spec.provider.gcpSecretsManager.value;
    var wi := gsm.auth.workloadIdentity.value;
    var b := new ServiceAccountBuilder(ServiceAccount(ObjectMeta(wi.serviceAccount, store.namespace, None, None, [])));
    b := b.WithAnnotations(Some(map[GkeServiceAccountAnnotation := GkeServiceAccountEmail(wi.gcpServiceAccount, gsm.projectId)]));
    account := b.serviceAccount;
  }
}
