/**
 * The provider selector: resolves a provider by its symbolic name and fixes
 * the primary and fallback roles.
 */
module ProviderFactory {
  import opened Wrappers
  import opened Js

  /**
   * The symbolic provider names. The backend's constants file is not part
   * of this model; any two distinct strings serve.
   */
  const PROVIDER_ONE: string := "PROVIDER_ONE"
  const PROVIDER_TWO: string := "PROVIDER_TWO"

  /** The two provider variants; neither holds state. */
  datatype Provider = ProviderOne | ProviderTwo

  /** The name under which the controller records a payment handled by `p`. */
  function NameOf(p: Provider): string
  {
    match p
    case ProviderOne => PROVIDER_ONE
    case ProviderTwo => PROVIDER_TWO
  }

  /** Resolves a provider by name; an unknown name is an error naming it. */
  function GetProvider(providerName: string): (r: Result<Provider, Error>)
    ensures r.Success? <==> providerName == PROVIDER_ONE || providerName == PROVIDER_TWO
    ensures r.Success? ==> NameOf(r.value) == providerName
    ensures r.Failure? ==> r.error == Raise("Provider not supported: " + providerName)
  {
    if providerName == PROVIDER_ONE then Success(ProviderOne)
    else if providerName == PROVIDER_TWO then Success(ProviderTwo)
    else Failure(Raise("Provider not supported: " + providerName))
  }

  /** The provider tried first; the name its records carry resolves back to it. */
  function GetPrimaryProvider(): (p: Provider)
    ensures p == ProviderOne
    ensures GetProvider(PROVIDER_ONE) == Success(p)
  {
    ProviderOne
  }

  /** The provider tried once after the primary fails; the name its records carry resolves back to it. */
  function GetFallbackProvider(): (p: Provider)
    ensures p == ProviderTwo
    ensures GetProvider(PROVIDER_TWO) == Success(p)
  {
    ProviderTwo
  }

  /** Every name a provider is recorded under resolves back to that provider. */
  lemma GetProviderOfName(p: Provider)
    ensures GetProvider(NameOf(p)) == Success(p)
  {
  }
}
