/** Resolution of one property's source (pkg/source/propertyhandler.go). */
module Source {
  import opened Wrappers
  import opened Errors
  import opened Kube
  import opened Api
  import opened Generation

  /**
   * `HandleProperty`: a generator-backed source yields exactly what
   * `Generate` yields, value or error; a source without a generator fails.
   * The value is passed on as generated (encoding is the caller's job).
   */
  function HandleProperty(ps: PropertySource, gens: Generators): (r: Result<Bytes, Error>)
    ensures ps.propertyGenerator.Some? ==> r == Generate(ps.propertyGenerator.value, gens)
    ensures ps.propertyGenerator.None? ==> r == Failure(NoPropertySource)
  {
    if ps.propertyGenerator.Some? then Generate(ps.propertyGenerator.value, gens)
    else Failure(NoPropertySource)
  }
}
