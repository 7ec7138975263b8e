/** The Google Secret Manager provider (pkg/secretstores/gcpsecretsmanager/provider.go). */
module GcpSecretsManager {
  import Api

  /** `GcpSecretsManagerProvider`: the resource's Google settings, embedded. */
  datatype GcpSecretsManagerProvider = GcpSecretsManagerProvider(settings: Api.GcpSecretsManagerProvider)

  /** `Location`: the project id, as given (an empty id is an empty location). */
  function Location(provider: GcpSecretsManagerProvider): (location: string)
    ensures location == provider.settings.projectId
  {
    provider.settings.projectId
  }

  /** The authentication settings play no part in the location. */
  lemma LocationIgnoresAuth(provider: GcpSecretsManagerProvider, auth: Api.GcpAuth)
    ensures Location(GcpSecretsManagerProvider(provider.settings.(auth := auth))) == Location(provider)
  {
  }
}
