/** Dispatch from a claim to its handler (pkg/claimhandlers/factory/factory.go). */
module Factory {
  import opened Wrappers
  import opened Errors
  import opened Api
  import opened KubernetesClaim

  /**
   * `CreateClaimHandler`: a claim with a KubernetesClaim gets the Kubernetes
   * handler for that claim and context; any other claim is an error. Every
   * handler it returns meets `Handle`'s precondition.
   */
  function CreateClaimHandler(claim: SecretClaim, ctx: Context): (r: Result<Handler, Error>)
    ensures r.Success? <==> claim.spec.kubernetesClaim.Some?
    ensures r.Success? ==> r.value.claim == claim && r.value.ctx == ctx
    ensures r.Failure? ==> r.error == NoClaimType
  {
    if claim.spec.kubernetesClaim.Some? then Success(NewHandler(claim, ctx))
    else Failure(NoClaimType)
  }
}
