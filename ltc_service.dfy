/**
 * What backend/services/ltcService.js adds to the shared UTXO code: the
 * network endpoint, its own balance rule, and records without a status.
 */
module LtcService {
  import opened Base
  import opened Text
  import opened Canonical
  import Utxo
  import BtcService

  const LitoshiPerLtc: nat := 100000000

  const MainnetUrl: string := "https://litecoinspace.org/api"
  const TestnetUrl: string := "https://litecoinspace.org/testnet/api"

  /** `getApiUrl`: mainnet unless the lower-cased `LTC_NETWORK` names something else. */
  function ApiUrl(network: string): (url: string)
    ensures url == MainnetUrl <==> network == "" || ToLower(network) == "mainnet"
    ensures url == MainnetUrl || url == TestnetUrl
  {
    if ToLower(if network == "" then "mainnet" else network) == "mainnet" then MainnetUrl else TestnetUrl
  }

  /**
   * `fetchBalance` in litoshi: 0 for a 404 or 400 answer or no body; a
   * missing or non-numeric chain sum counts as 0 (`|| 0`), and the balance is
   * the funded sum less the spent sum, never below 0.
   */
  function BalanceLitoshi(status: nat, body: bool, funded: Option<nat>, spent: Option<nat>): (lit: nat)
    ensures status == 404 || status == 400 || !body ==> lit == 0
    ensures status != 404 && status != 400 && body ==>
      lit + spent.GetOr(0) >= funded.GetOr(0) && (lit == 0 || lit + spent.GetOr(0) == funded.GetOr(0))
  {
    if status == 404 || status == 400 || !body then 0
    else Max(0, funded.GetOr(0) - spent.GetOr(0))
  }

  /**
   * The two balance rules agree whenever both sums are numbers; with the
   * spent sum missing, Bitcoin reports 0 and Litecoin the funded sum.
   */
  lemma BalanceRulesCompared(status: nat, funded: nat, spent: Option<nat>)
    requires status != 404 && status != 400
    ensures spent.Some? ==> BalanceLitoshi(status, true, Some(funded), spent)
                            == BtcService.BalanceSat(status, true, Some(funded), spent)
    ensures spent.None? ==> BalanceLitoshi(status, true, Some(funded), spent) == funded
                            && BtcService.BalanceSat(status, true, Some(funded), spent) == 0
  {
  }

  /** Litecoin records carry no status, and otherwise match the Bitcoin record of the same transaction. */
  lemma RecordsWithoutStatus(tx: Utxo.RawTx, wallet: string, ageOf: int -> string)
    ensures var l := Utxo.Normalized(Utxo.Ltc, tx, wallet, ageOf);
      var b := Utxo.Normalized(Utxo.Btc, tx, wallet, ageOf);
      (l.Some? <==> b.Some?)
      && (l.Some? ==>
            l.value.status.None?
            && l.value == b.value.(walletType := "Litecoin", txType := "ltc", token := "LTC", status := None))
  {
  }
}
