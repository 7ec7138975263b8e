/**
 * The errors the core returns. Each constructor stands for one `fmt.Errorf`
 * of the source (the wrapped cause kept where the source uses `%w`), or for
 * an error reported by a collaborator (the cluster, a secret store, a
 * generator).
 */
module Errors {

  datatype Error =
    // -- reported by collaborators --
    | NotFound                                   // the cluster has no object under the key
    | AlreadyExists                              // a create found an object under the key
    | External(message: string)                  // any other collaborator failure
    // -- generation/generate.go, source/propertyhandler.go, claimhandlers/factory/factory.go --
    | NoPropertyGenerator                        // "unable to determine property generator"
    | NoPropertySource                           // "unable to determine how to source propery"
    | NoClaimType                                // "unable to create claim handler - unable to determine claim type"
    // -- claimhandlers/kubernetesclaim/kubernetesclaim.go --
    | SourcingProperty(property: string)         // "error sourcing property %s" (cause dropped)
    | ApplyingSecret(cause: Error)               // "error when applying secret %w"
    | CreatingSecret(secret: string, cause: Error)
    | UpdatingSecret(secret: string, cause: Error)
    | NotOwnedByClaim(secret: string, claim: string)
    // -- serviceaccount/reconcile.go --
    | GettingServiceAccount(namespace: string, name: string, cause: Error)
    // -- secretstores/health/health.go --
    | SettingHealthSecret(cause: Error)
    | GettingHealthSecret(cause: Error)
    | HealthSecretMismatch(received: string, expected: string)

  /** `apierrors.IsNotFound`: the error is the cluster's NotFound status. */
  predicate IsNotFound(e: Error) {
    e.NotFound?
  }
}
