/**
 * What backend/services/btcService.js adds to the shared UTXO code: the
 * network endpoint and the balance rule.
 */
module BtcService {
  import opened Base
  import opened Text

  const SatoshiPerBtc: nat := 100000000

  const MainnetUrl: string := "https://blockstream.info/api"
  const Testnet4Url: string := "https://mempool.space/testnet4/api"
  const TestnetUrl: string := "https://blockstream.info/testnet/api"

  /** `getApiUrl`: the lower-cased `BTC_NETWORK` (unset or empty meaning mainnet) picks the endpoint. */
  function ApiUrl(network: string): (url: string)
    ensures url == MainnetUrl <==> network == "" || ToLower(network) == "mainnet"
    ensures url == Testnet4Url <==> network != "" && ToLower(network) == "testnet4"
    ensures url == MainnetUrl || url == Testnet4Url || url == TestnetUrl
  {
    var n := ToLower(if network == "" then "mainnet" else network);
    if n == "mainnet" then MainnetUrl
    else if n == "testnet4" then Testnet4Url
    else TestnetUrl
  }

  /** The setting is read without regard to case. */
  lemma ApiUrlIgnoresCase(network: string)
    ensures ApiUrl(ToLower(network)) == ApiUrl(network)
  {
    ToLowerIdempotent(network);
  }

  /**
   * `fetchBalance` in satoshi: 0 for a 404 or 400 answer or no body, and
   * when either chain sum is missing or not a number (`None`); otherwise the
   * funded sum less the spent sum, never below 0.
   */
  function BalanceSat(status: nat, body: bool, funded: Option<nat>, spent: Option<nat>): (sat: nat)
    ensures status == 404 || status == 400 || !body || funded.None? || spent.None? ==> sat == 0
    ensures status != 404 && status != 400 && body && funded.Some? && spent.Some? ==>
      sat + spent.value >= funded.value && (sat == 0 || sat + spent.value == funded.value)
  {
    if status == 404 || status == 400 || !body then 0
    else if funded.None? || spent.None? then 0
    else Max(0, funded.value - spent.value)
  }
}
