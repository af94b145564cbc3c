/** Chain validation shared by the vault endpoints. */
module VaultMisc {
  import Settings

  /** A chain is served exactly when it is configured. */
  function VerifyChain(s: Settings.Settings, chain: string): (r: bool)
    ensures r <==> exists i :: 0 <= i < |s.bobvaultChains| && s.bobvaultChains[i] == chain
  {
    chain in s.bobvaultChains
  }
}
