/**
 * Strategy dispatch from a property's generator settings to a generated
 * value (pkg/generation/generate.go). The hmac and password generators
 * themselves are parameters: their results, values or errors, are whatever
 * the functions in `Generators` say.
 */
module Generation {
  import opened Wrappers
  import opened Errors
  import opened Kube
  import opened Api

  /** The hmac generator and the password generator (length, allowedSymbols, numDigits, numSymbols, allowRepeat, noUpper). */
  datatype Generators = Generators(
    hmac: () -> Result<Bytes, Error>,
    password: (int, string, int, int, bool, bool) -> Result<Bytes, Error>)

  /** `Generate`: hmac when requested, else a password when configured, else an error. */
  function Generate(g: PropertyGenerator, gens: Generators): (r: Result<Bytes, Error>)
    ensures g.hmac ==> r == gens.hmac()
    ensures !g.hmac && g.password.Some? ==>
      var p := g.password.value;
      r == gens.password(p.length, p.allowedSymbols, p.numDigits, p.numSymbols, p.allowRepeat, p.noUpper)
    ensures !g.hmac && g.password.None? ==> r == Failure(NoPropertyGenerator)
  {
    if g.hmac then
      gens.hmac()
    else if g.password.Some? then
      var p := g.password.value;
      gens.password(p.length, p.allowedSymbols, p.numDigits, p.numSymbols, p.allowRepeat, p.noUpper)
    else
      Failure(NoPropertyGenerator)
  }

  /** hmac takes precedence: with `hmac` set, the password settings make no difference. */
  lemma HmacPrecedence(g: PropertyGenerator, password: Option<PasswordGenerator>, gens: Generators)
    requires g.hmac
    ensures Generate(g.(password := password), gens) == Generate(g, gens)
  {
  }
}
