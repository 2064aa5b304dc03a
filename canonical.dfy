/**
 * The canonical transaction record every chain adapter produces and the
 * persistence layer stores (the fields of backend/models/Transaction.js that
 * the engine reads; the quote-currency amount and the fee are left out).
 */
module Canonical {
  import opened Base

  /** The six chains a bot can watch. */
  datatype Chain = Ethereum | Bnb | Tron | Bitcoin | Litecoin | Solana

  /** The `walletType` string a chain's records and registry keys carry. */
  function WalletTypeName(c: Chain): (r: string)
    ensures |r| >= 3
  {
    match c
    case Ethereum => "Ethereum"
    case Bnb => "BNB"
    case Tron => "Tron"
    case Bitcoin => "Bitcoin"
    case Litecoin => "Litecoin"
    case Solana => "Solana"
  }

  /** Confirmation state of a record; Litecoin records carry none. */
  datatype Status = Confirmed | Pending | Failed

  /**
   * An amount: an exact count of base units (satoshi, litoshi, sun, lamport or
   * token units) with its number of decimals, or an amount string scraped as is.
   */
  datatype Amount = Units(units: nat, decimals: nat) | Text(text: string)

  /** One normalised transaction as a chain adapter returns it. */
  datatype Tx = Tx(
    hash: string,
    walletType: string,
    txType: string,
    token: string,
    methodName: string,
    block: string,
    age: string,
    from: string,
    to: string,
    inOut: string,
    amount: Amount,
    status: Option<Status>)
}
