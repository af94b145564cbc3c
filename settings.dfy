/**
 * The process configuration read once at start-up. The model treats it as a
 * plain value handed to every component, so that properties hold for any
 * configuration and not only for the defaults.
 */
module Settings {

  datatype Settings = Settings(
    rpcs: seq<string>,
    bobToken: string,
    updateInterval: int,
    uploadToken: string,
    bobvaultChains: seq<string>,
    web3RetryAttempts: int,
    web3RetryDelay: int)
}
