/**
 * The vault endpoints: the upload is gated by the token and then by the
 * chain; every query answers the empty model for an unknown chain and
 * otherwise delegates to that chain's vault.
 */
module VaultRouter {
  import opened Wrappers
  import Settings
  import Misc
  import opened Upload
  import opened VaultModels
  import opened VaultMisc
  import opened VaultWeb

  /** The application's vault set was built from the same settings the router checks against. */
  ghost predicate Serves(s: Settings.Settings, app: BobVaults)
  {
    app.Valid() && app.chains == s.bobvaultChains
  }

  /** Every chain the router accepts has a vault to delegate to. */
  lemma AcceptedChainHasVault(s: Settings.Settings, app: BobVaults, chain: string)
    requires Serves(s, app)
    ensures VerifyChain(s, chain) <==> chain in app.vaults
  {
  }

  /** The frame of an upload: the named chain's vault and its health, when it exists. */
  function UploadFrame(app: BobVaults, chain: string): set<object>
  {
    if chain in app.vaults then {app.vaults[chain], app.vaults[chain].health} else {}
  }

  method UploadData(s: Settings.Settings, app: BobVaults, chain: string, data: VaultData,
                    token: string, now: int) returns (r: UploadResponse)
    requires Serves(s, app)
    modifies UploadFrame(app, chain)
    ensures !Misc.CheckAuthToken(s, token) ==> r == WrongToken
    ensures Misc.CheckAuthToken(s, token) && !VerifyChain(s, chain) ==> r == WrongChain
    ensures r != Accepted ==> chain in app.vaults ==> unchanged(app.vaults[chain], app.vaults[chain].health)
    ensures r == Accepted <==> Misc.CheckAuthToken(s, token) && VerifyChain(s, chain)
    ensures r == Accepted ==>
      && chain in app.vaults
      && app.vaults[chain].Loaded() == (if PairsOnly(data) then Ok(data) else Err(Health.ValidationError))
      && app.vaults[chain].health.status == Health.Success
      && app.vaults[chain].health.dataTimestamp == Some(Timestamp(data))
      && app.vaults[chain].health.lastSuccessTimestamp == now
      && app.vaults[chain].health.lastErrorTimestamp == old(app.vaults[chain].health.lastErrorTimestamp)
  {
    if !Misc.CheckAuthToken(s, token) {
      return WrongToken;
    }
    if !VerifyChain(s, chain) {
      return WrongChain;
    }
    AcceptedChainHasVault(s, app, chain);
    app.Store(chain, data, now);
    r := Accepted;
  }

  method Pairs(s: Settings.Settings, app: BobVaults, chain: string) returns (ret: Reply<seq<PairOut>>)
    requires Serves(s, app)
    ensures !VerifyChain(s, chain) ==> ret == Served([])
    ensures VerifyChain(s, chain) ==> chain in app.vaults && PairsAnswer(app.vaults[chain].Loaded(), ret)
  {
    if !VerifyChain(s, chain) {
      return Served([]);
    }
    AcceptedChainHasVault(s, app, chain);
    ret := app.Pairs(chain);
  }

  method Tickers(s: Settings.Settings, app: BobVaults, chain: string) returns (ret: Reply<seq<TickerOut>>)
    requires Serves(s, app)
    ensures !VerifyChain(s, chain) ==> ret == Served([])
    ensures VerifyChain(s, chain) ==> chain in app.vaults && TickersAnswer(app.vaults[chain].Loaded(), ret)
  {
    if !VerifyChain(s, chain) {
      return Served([]);
    }
    AcceptedChainHasVault(s, app, chain);
    ret := app.Tickers(chain);
  }

  /** `depth` is accepted and ignored. */
  method Orderbook(s: Settings.Settings, app: BobVaults, chain: string, tickerId: string, depth: int)
    returns (r: Reply<OrderbookOut>)
    requires Serves(s, app)
    ensures !VerifyChain(s, chain) ==> r == Served(EmptyOrderbook)
    ensures VerifyChain(s, chain) ==> chain in app.vaults && r == OrderbookAnswer(app.vaults[chain].Loaded(), tickerId)
  {
    if !VerifyChain(s, chain) {
      return Served(EmptyOrderbook);
    }
    AcceptedChainHasVault(s, app, chain);
    r := app.Orderbook(chain, tickerId);
  }

  /** `type` is restricted to `buy` or `sell` by the query pattern, modelled as `Side`. */
  method HistoricalTrades(s: Settings.Settings, app: BobVaults, chain: string, tickerId: string, side: Side,
                          limit: int, startTime: int, endTime: int) returns (r: Reply<PairTrades>)
    requires Serves(s, app)
    ensures !VerifyChain(s, chain) ==> r == Served(EmptyTrades)
    ensures VerifyChain(s, chain) ==>
      chain in app.vaults && r == TradesAnswer(app.vaults[chain].Loaded(), tickerId, side, limit, startTime, endTime)
  {
    if !VerifyChain(s, chain) {
      return Served(EmptyTrades);
    }
    AcceptedChainHasVault(s, app, chain);
    r := app.HistoricalTrades(chain, tickerId, side, limit, startTime, endTime);
  }

  /** The query defaults (`limit = 0`, the full timestamp range) answer the whole stored side. */
  lemma DefaultQueryIsWholeSide(d: VaultData, tickerId: string, side: Side)
    requires HoldsPair(d, tickerId) && StoredTrades(d, tickerId, side) != []
    ensures TradesAnswer(Ok(d), tickerId, side, 0, Misc.MinTimestamp, Misc.MaxTimestamp)
            == Served(OnlySide(side, StoredTrades(d, tickerId, side)))
  {
  }
}
