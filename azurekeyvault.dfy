/** The Azure Key Vault provider (pkg/secretstores/azurekeyvault/provider.go). */
module AzureKeyVault {
  import Api

  /** `AzureKeyVaultProvider`: the resource's Azure settings, embedded. */
  datatype AzureKeyVaultProvider = AzureKeyVaultProvider(settings: Api.AzureKeyVaultProvider)

  /** `Location`: the vault name, as given (an empty name is an empty location). */
  function Location(provider: AzureKeyVaultProvider): (location: string)
    ensures location == provider.settings.vaultName
  {
    provider.settings.vaultName
  }

  /** The location determines the modelled settings, which hold only the vault name. */
  lemma SameLocationIffSameVault(a: AzureKeyVaultProvider, b: AzureKeyVaultProvider)
    ensures Location(a) == Location(b) <==> a == b
  {
    if Location(a) == Location(b) {
      assert a.settings == b.settings;
    }
  }

  /** The vault "my-vault-name" is at location "my-vault-name". */
  lemma NamedVaultLocation()
    ensures Location(AzureKeyVaultProvider(Api.AzureKeyVaultProvider("my-vault-name"))) == "my-vault-name"
  {
  }
}
