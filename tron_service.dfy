/**
 * The Tron adapter of backend/services/tronService.js: the account and
 * transaction requests to TronGrid, the normaliser of native TRX transfers and
 * TRC-20 `transfer` calls, and the wallet fetch that splits the records and
 * reports the newest block timestamp.
 *
 * The base58check address codec of TronWeb is a parameter: `fromHex(h)` is
 * the base58 address of the hex address `h`, or `None` when the conversion
 * throws. Amounts are exact base units (sun, token units) with their decimals.
 */
module TronService {
  import opened Base
  import opened Text
  import opened Canonical
  import Hex
  import WalletService

  const SunPerTrx: nat := 1000000
  /** The page size of the transaction request. */
  const PageLimit: nat := 50
  /** The selector of `transfer(address,uint256)`. */
  const TransferSelector: string := "a9059cbb"
  /** Selector plus two 64-digit ABI words. */
  const MinCallData: nat := 136

  datatype TokenMeta = TokenMeta(symbol: string, decimals: nat)

  /** `KNOWN_TRC20`: contract address to symbol and decimals, in source order. */
  const KnownTrc20: seq<(string, TokenMeta)> := [
    ("TR7NHqjeKQxGTCi8q8ZY4pL8otSzgjLj6t", TokenMeta("USDT", 6)),
    ("TEkxiTehnzSmSe2XqrBj4w32RUN966rdz8", TokenMeta("USDC", 6)),
    ("TMwFHYXLJaRUPeW6421aqXL4ZEzPRFGkGT", TokenMeta("USDJ", 18)),
    ("TNUC9Qb1rRpS5CbWLmNMxXBjyFoydXjWFR", TokenMeta("WTRX", 6))
  ]

  /** The metadata of an unknown contract. */
  const UnknownToken: TokenMeta := TokenMeta("TRC20", 6)

  /** The entry of `table` for `contractAddress`, or the unknown token. */
  function Find(table: seq<(string, TokenMeta)>, contractAddress: string): TokenMeta {
    if table == [] then UnknownToken
    else if table[0].0 == contractAddress then table[0].1
    else Find(table[1..], contractAddress)
  }

  /** `KNOWN_TRC20[contractAddr] || { symbol: 'TRC20', decimals: 6 }`. */
  function TokenOf(contractAddress: string): TokenMeta {
    Find(KnownTrc20, contractAddress)
  }

  /** A contract missing from the table gets the unknown token. */
  lemma {:induction false} FindMissing(table: seq<(string, TokenMeta)>, contractAddress: string)
    requires forall i :: 0 <= i < |table| ==> table[i].0 != contractAddress
    ensures Find(table, contractAddress) == UnknownToken
    decreases |table|
  {
    if table != [] {
      assert table[0].0 != contractAddress;
      forall i | 0 <= i < |table[1..]| ensures table[1..][i].0 != contractAddress {
        assert table[1..][i] == table[i + 1];
      }
      FindMissing(table[1..], contractAddress);
    }
  }

  /** `Find` returns the unknown token or the metadata of one of the table's entries. */
  lemma {:induction false} FindEntry(table: seq<(string, TokenMeta)>, contractAddress: string)
    ensures Find(table, contractAddress) == UnknownToken
            || exists i :: 0 <= i < |table| && table[i] == (contractAddress, Find(table, contractAddress))
    decreases |table|
  {
    if table != [] && table[0].0 != contractAddress {
      FindEntry(table[1..], contractAddress);
      if Find(table, contractAddress) != UnknownToken {
        var i :| 0 <= i < |table[1..]| && table[1..][i] == (contractAddress, Find(table, contractAddress));
        assert table[i + 1] == table[1..][i];
      }
    } else if table != [] {
      assert table[0] == (contractAddress, Find(table, contractAddress));
    }
  }

  /** The listed contracts get their own entry; every other contract the unknown token; decimals are 6 except USDJ's 18. */
  lemma TokenOfTable(contractAddress: string)
    ensures TokenOf("TR7NHqjeKQxGTCi8q8ZY4pL8otSzgjLj6t") == TokenMeta("USDT", 6)
    ensures TokenOf("TNUC9Qb1rRpS5CbWLmNMxXBjyFoydXjWFR") == TokenMeta("WTRX", 6)
    ensures (forall i :: 0 <= i < |KnownTrc20| ==> KnownTrc20[i].0 != contractAddress) ==> TokenOf(contractAddress) == UnknownToken
    ensures TokenOf(contractAddress).decimals == 6 || TokenOf(contractAddress) == TokenMeta("USDJ", 18)
  {
    if forall i :: 0 <= i < |KnownTrc20| ==> KnownTrc20[i].0 != contractAddress {
      FindMissing(KnownTrc20, contractAddress);
    }
    FindEntry(KnownTrc20, contractAddress);
  }

  // ---------------------------------------------------------------- requests

  /** `min_block_timestamp` is sent only for a positive checkpoint. */
  function MinBlockParam(minBlockTimestamp: Option<int>): (r: Option<nat>)
    ensures r.Some? <==> minBlockTimestamp.Some? && minBlockTimestamp.value > 0
    ensures r.Some? ==> r.value == minBlockTimestamp.value
  {
    if minBlockTimestamp.Some? && minBlockTimestamp.value > 0 then Some(minBlockTimestamp.value) else None
  }

  /**
   * `fetchBalance`: the balance in sun, 0 for a 404 or 400 answer or a
   * missing account. `account` is the account's `balance` field when there is
   * an account (`None` inside when it is not a number).
   */
  function BalanceSun(status: nat, account: Option<Option<nat>>): (sun: nat)
    ensures status == 404 || status == 400 || account.None? ==> sun == 0
    ensures status != 404 && status != 400 && account.Some? && account.value.Some? ==> sun == account.value.value
  {
    if status == 404 || status == 400 || account.None? then 0
    else account.value.GetOr(0)
  }

  // ---------------------------------------------------------------- raw transactions

  datatype TransferValue = TransferValue(owner: string, to: string, amount: nat)
  datatype TriggerValue = TriggerValue(data: string, owner: string, contractAddress: string)

  /** The first contract of a transaction, by type, with its `parameter.value` when present. */
  datatype Contract =
    | TransferContract(transfer: Option<TransferValue>)
    | TriggerSmartContract(trigger: Option<TriggerValue>)
    | OtherContract

  datatype RawTx = RawTx(txID: string, txIdAlt: string, blockNumber: Option<nat>, blockTimestamp: Option<nat>,
                         contract: Option<Contract>)

  /** `toBase58`: prefix `41` when missing, convert, and keep the input when conversion throws. */
  function ToBase58(hex: string, fromHex: string -> Option<string>): (r: string)
    ensures var h := if StartsWith(hex, "41") then hex else "41" + hex;
      r == if fromHex(h).Some? then fromHex(h).value else hex
  {
    var h := if StartsWith(hex, "41") then hex else "41" + hex;
    match fromHex(h)
    case Some(b) => b
    case None => hex
  }

  /** A block timestamp in milliseconds: values below 10^12 are taken as seconds. */
  function TimestampMs(ts: nat): (ms: nat)
    ensures ts >= 1000000000000 ==> ms == ts
    ensures ts < 1000000000000 ==> ms == ts * 1000
  {
    if ts >= 1000000000000 then ts else ts * 1000
  }

  /** Normalising twice is normalising once, for every timestamp from 2001 on in seconds. */
  lemma TimestampMsIdempotent(ts: nat)
    requires ts >= 1000000000
    ensures TimestampMs(TimestampMs(ts)) == TimestampMs(ts)
    ensures TimestampMs(ts) >= 1000000000000
  {
  }

  function AgeText(ts: Option<nat>, ageOf: int -> string): string {
    if ts.Some? && ts.value != 0 then ageOf(TimestampMs(ts.value)) else ""
  }

  /** `String(tx.block_number ?? tx.block_timestamp ?? '')`. */
  function BlockText(tx: RawTx): string {
    if tx.blockNumber.Some? then NatToString(tx.blockNumber.value)
    else if tx.blockTimestamp.Some? then NatToString(tx.blockTimestamp.value)
    else ""
  }

  function TxHash(tx: RawTx): string {
    if tx.txID != "" then tx.txID else tx.txIdAlt
  }

  /** The recipient word of the call data: the 40 hex digits of the address, after `41`. */
  function RecipientHex(data: string): string
    requires |data| >= 72
  {
    "41" + data[32..72]
  }

  /** The recipient as the source derives it, with the address's own leading zeros stripped. */
  function RecipientHexAsWritten(data: string): string
    requires |data| >= 72
  {
    "41" + Hex.StripZeros(data[32..72])
  }

  /** `parseInt(word, 16) / 10^decimals`, exactly: the units and the decimals, or "NaN". */
  function TokenAmount(word: string, meta: TokenMeta): Amount {
    match Hex.Parse(word)
    case Some(v) => Units(v, meta.decimals)
    case None => Text("NaN")
  }

  /** The record of a native transfer involving the wallet. */
  function TrxRecord(tx: RawTx, v: TransferValue, wallet: string, fromHex: string -> Option<string>,
                     ageOf: int -> string): (r: Option<Tx>)
    ensures r.Some? <==> ToBase58(v.to, fromHex) == wallet || ToBase58(v.owner, fromHex) == wallet
  {
    var from := ToBase58(v.owner, fromHex);
    var to := ToBase58(v.to, fromHex);
    if to != wallet && from != wallet then None
    else Some(Tx(TxHash(tx), "Tron", "tron", "TRX", "Transfer", BlockText(tx), AgeText(tx.blockTimestamp, ageOf),
                 from, to, if to == wallet then "IN" else "OUT", Units(v.amount, 6), None))
  }

  /** The record of a TRC-20 transfer to `toHex` involving the wallet. */
  function TokenRecord(tx: RawTx, v: TriggerValue, toHex: string, wallet: string, fromHex: string -> Option<string>,
                       ageOf: int -> string): (r: Option<Tx>)
    requires |v.data| >= MinCallData
    ensures r.Some? <==> ToBase58(toHex, fromHex) == wallet || ToBase58(v.owner, fromHex) == wallet
  {
    var to := ToBase58(toHex, fromHex);
    var from := ToBase58(v.owner, fromHex);
    var meta := TokenOf(ToBase58(v.contractAddress, fromHex));
    if to != wallet && from != wallet then None
    else Some(Tx(TxHash(tx), "Tron", "token", meta.symbol, "Transfer", BlockText(tx), AgeText(tx.blockTimestamp, ageOf),
                 from, to, if to == wallet then "IN" else "OUT", TokenAmount(v.data[72..136], meta), None))
  }

  /** Whether the call data is a `transfer` call long enough to decode. */
  predicate IsTransferCall(v: TriggerValue) {
    |v.data| >= MinCallData && v.data[..8] == TransferSelector
  }

  /**
   * `normalizeTx` as the source writes it: the recipient of a TRC-20
   * transfer loses the leading zeros of its address digits.
   */
  function NormalizeTxAsWritten(tx: RawTx, wallet: string, fromHex: string -> Option<string>, ageOf: int -> string)
    : (r: Option<Tx>)
    ensures r.Some? ==> (r.value.inOut == "OUT" <==> r.value.to != wallet)
    ensures r.Some? && tx.contract.Some? && tx.contract.value.TriggerSmartContract? ==>
      tx.contract.value.trigger.Some? && IsTransferCall(tx.contract.value.trigger.value)
      && r.value.to == ToBase58(RecipientHexAsWritten(tx.contract.value.trigger.value.data), fromHex)
  {
    match tx.contract
    case Some(TransferContract(Some(v))) => TrxRecord(tx, v, wallet, fromHex, ageOf)
    case Some(TriggerSmartContract(Some(v))) =>
      if IsTransferCall(v) then TokenRecord(tx, v, RecipientHexAsWritten(v.data), wallet, fromHex, ageOf) else None
    case _ => None
  }

  /**
   * `normalizeTx`: a native transfer, or a TRC-20 `transfer` call, in which the
   * wallet is the recipient (incoming) or the sender (outgoing); nothing else.
   */
  function NormalizeTx(tx: RawTx, wallet: string, fromHex: string -> Option<string>, ageOf: int -> string)
    : (r: Option<Tx>)
    ensures r.Some? ==> r.value.walletType == "Tron" && r.value.hash == TxHash(tx) && r.value.methodName == "Transfer"
    ensures r.Some? ==> (r.value.to == wallet || r.value.from == wallet)
                        && (r.value.inOut == "IN" <==> r.value.to == wallet)
                        && (r.value.inOut == "OUT" <==> r.value.to != wallet)
    ensures r.Some? && r.value.txType == "tron" ==>
              tx.contract.Some? && tx.contract.value.TransferContract? && tx.contract.value.transfer.Some?
              && r.value.token == "TRX" && r.value.amount == Units(tx.contract.value.transfer.value.amount, 6)
    ensures r.Some? && r.value.txType != "tron" ==>
              r.value.txType == "token"
              && tx.contract.Some? && tx.contract.value.TriggerSmartContract?
              && tx.contract.value.trigger.Some? && IsTransferCall(tx.contract.value.trigger.value)
    ensures r.Some? ==> r.value.txType == "tron" || r.value.txType == "token"
    ensures tx.contract.Some? && tx.contract.value.TriggerSmartContract? && tx.contract.value.trigger.Some?
            && IsTransferCall(tx.contract.value.trigger.value) ==>
      var v := tx.contract.value.trigger.value;
      (r.Some? <==> ToBase58(RecipientHex(v.data), fromHex) == wallet || ToBase58(v.owner, fromHex) == wallet)
      && (r.Some? ==> r.value.to == ToBase58(RecipientHex(v.data), fromHex))
  {
    match tx.contract
    case Some(TransferContract(Some(v))) => TrxRecord(tx, v, wallet, fromHex, ageOf)
    case Some(TriggerSmartContract(Some(v))) =>
      if IsTransferCall(v) then TokenRecord(tx, v, RecipientHex(v.data), wallet, fromHex, ageOf) else None
    case _ => None
  }

  /** A record of a `transfer` call carries the amount word read with the token's decimals. */
  lemma TransferAmount(tx: RawTx, v: TriggerValue, wallet: string, fromHex: string -> Option<string>, ageOf: int -> string)
    requires tx.contract == Some(TriggerSmartContract(Some(v))) && IsTransferCall(v)
    ensures var r := NormalizeTx(tx, wallet, fromHex, ageOf);
      r.Some? ==> r.value.amount == TokenAmount(v.data[72..136], TokenOf(ToBase58(v.contractAddress, fromHex)))
  {
  }

  /** The ABI call data of `transfer(to, amount)`: selector, the zero-padded 20-byte address, the 32-byte amount. */
  function TransferCallData(toBody: string, amount: nat): (data: string)
    requires |toBody| == 40
    ensures |data| == MinCallData && data[..8] == TransferSelector
    ensures data[32..72] == toBody
    ensures data[72..136] == Hex.Encode(amount, 64)
  {
    var head := TransferSelector + Hex.Encode(0, 24);
    var word := Hex.Encode(amount, 64);
    assert |head| == 32;
    var data := head + toBody + word;
    assert data[32..72] == toBody && data[72..136] == word && data[..8] == head[..8];
    data
  }

  /**
   * A `transfer` call to the wallet's own address is decoded as an incoming
   * record carrying the encoded amount with the token's decimals.
   */
  lemma DecodesIncomingTransfer(tx: RawTx, wallet: string, toBody: string, amount: nat, owner: string,
                                contractAddress: string, fromHex: string -> Option<string>, ageOf: int -> string)
    requires |toBody| == 40 && amount < Hex.Pow16(64)
    requires tx.contract == Some(TriggerSmartContract(Some(TriggerValue(TransferCallData(toBody, amount), owner, contractAddress))))
    requires fromHex("41" + toBody) == Some(wallet)
    ensures var r := NormalizeTx(tx, wallet, fromHex, ageOf);
      r.Some? && r.value.inOut == "IN" && r.value.to == wallet && r.value.txType == "token"
      && r.value.amount == Units(amount, TokenOf(ToBase58(contractAddress, fromHex)).decimals)
  {
    var data := TransferCallData(toBody, amount);
    var v := TriggerValue(data, owner, contractAddress);
    assert tx.contract.value.trigger.value == v;
    assert data[32..72] == toBody;
    assert data[72..136] == Hex.Encode(amount, 64);
    var meta := TokenOf(ToBase58(contractAddress, fromHex));
    Hex.ValueEncode(amount, 64);
    assert TokenAmount(data[72..136], meta) == Units(amount, meta.decimals);
    var h := RecipientHex(data);
    assert h == "41" + toBody && StartsWith(h, "41");
    assert ToBase58(h, fromHex) == wallet;
    assert IsTransferCall(v);
    TransferAmount(tx, v, wallet, fromHex, ageOf);
  }

  /**
   * As written, the same call to a wallet whose address digits start with `0`
   * is not decoded as incoming: the stripped hex names another address, or
   * none, whenever the codec gives the wallet for its own digits only.
   */
  lemma AsWrittenMissesLeadingZero(tx: RawTx, wallet: string, toBody: string, amount: nat, owner: string,
                                   contractAddress: string, fromHex: string -> Option<string>, ageOf: int -> string)
    requires |toBody| == 40 && toBody[0] == '0'
    requires tx.contract == Some(TriggerSmartContract(Some(TriggerValue(TransferCallData(toBody, amount), owner, contractAddress))))
    requires forall h :: fromHex(h) == Some(wallet) ==> h == "41" + toBody
    requires wallet != [] && wallet[0] == 'T'
    ensures var r := NormalizeTxAsWritten(tx, wallet, fromHex, ageOf);
      r.None? || (r.value.to != wallet && r.value.inOut == "OUT")
  {
    var data := TransferCallData(toBody, amount);
    assert data[32..72] == toBody;
    var h := RecipientHexAsWritten(data);
    assert h == "41" + Hex.StripZeros(toBody);
    StrippedNotWallet(toBody, wallet, fromHex);
    assert ToBase58(h, fromHex) != wallet;
    assert tx.contract.value.trigger.value.data == data;
  }

  /** The stripped recipient of an address whose digits start with `0` never names the wallet. */
  lemma StrippedNotWallet(toBody: string, wallet: string, fromHex: string -> Option<string>)
    requires |toBody| == 40 && toBody[0] == '0'
    requires forall h :: fromHex(h) == Some(wallet) ==> h == "41" + toBody
    requires wallet != [] && wallet[0] == 'T'
    ensures ToBase58("41" + Hex.StripZeros(toBody), fromHex) != wallet
  {
    var stripped := Hex.StripZeros(toBody);
    var h := "41" + stripped;
    assert StartsWith(h, "41");
    assert |stripped| < 40;
    assert h != "41" + toBody;
    if fromHex(h).None? {
      assert ToBase58(h, fromHex) == h && h[0] == '4';
    }
  }

  // ---------------------------------------------------------------- wallet fetch

  /** The native and the token records of a listing, each in listing order. */
  datatype Records = Records(native: seq<Tx>, tokens: seq<Tx>)

  /** One more normalised transaction: a record goes to the list of its kind. */
  function AddRecord(r: Records, norm: Option<Tx>): Records {
    if norm.None? then r
    else if norm.value.txType == "token" then r.(tokens := r.tokens + [norm.value])
    else r.(native := r.native + [norm.value])
  }

  /** The records of `txs` split into native and token records, in order. */
  function Split(txs: seq<RawTx>, wallet: string, fromHex: string -> Option<string>, ageOf: int -> string)
    : Records
    decreases |txs|
  {
    if txs == [] then Records([], [])
    else AddRecord(Split(txs[..|txs| - 1], wallet, fromHex, ageOf), NormalizeTx(txs[|txs| - 1], wallet, fromHex, ageOf))
  }

  /** The native list holds only native records, the token list only token records, at most one per transaction. */
  lemma {:induction false} SplitKinds(txs: seq<RawTx>, wallet: string, fromHex: string -> Option<string>, ageOf: int -> string)
    ensures var r := Split(txs, wallet, fromHex, ageOf);
      (forall t :: t in r.native ==> t.txType == "tron")
      && (forall t :: t in r.tokens ==> t.txType == "token")
      && |r.native| + |r.tokens| <= |txs|
    decreases |txs|
  {
    if txs != [] {
      SplitKinds(txs[..|txs| - 1], wallet, fromHex, ageOf);
    }
  }

  /** `Split` over one more transaction. */
  lemma SplitStep(txs: seq<RawTx>, i: nat, wallet: string, fromHex: string -> Option<string>, ageOf: int -> string)
    requires i < |txs|
    ensures Split(txs[..i + 1], wallet, fromHex, ageOf)
      == AddRecord(Split(txs[..i], wallet, fromHex, ageOf), NormalizeTx(txs[i], wallet, fromHex, ageOf))
  {
    assert txs[..i + 1][..i] == txs[..i];
  }

  /** `MaxTimestamp` over one more transaction. */
  lemma MaxTimestampStep(txs: seq<RawTx>, i: nat)
    requires i < |txs|
    ensures var ts := txs[i].blockTimestamp;
      MaxTimestamp(txs[..i + 1])
      == if ts.Some? && ts.value > MaxTimestamp(txs[..i]) then ts.value else MaxTimestamp(txs[..i])
  {
    assert txs[..i + 1][..i] == txs[..i];
  }

  /** The largest truthy block timestamp of `txs`, 0 when there is none. */
  function MaxTimestamp(txs: seq<RawTx>): (m: nat)
    decreases |txs|
  {
    if txs == [] then 0
    else
      var prev := MaxTimestamp(txs[..|txs| - 1]);
      var ts := txs[|txs| - 1].blockTimestamp;
      if ts.Some? && ts.value > prev then ts.value else prev
  }

  /** The maximum bounds every timestamp and is one of them (or 0). */
  lemma {:induction false} MaxTimestampIsMax(txs: seq<RawTx>)
    ensures forall i :: 0 <= i < |txs| && txs[i].blockTimestamp.Some? ==> txs[i].blockTimestamp.value <= MaxTimestamp(txs)
    ensures MaxTimestamp(txs) == 0 || exists i :: 0 <= i < |txs| && txs[i].blockTimestamp == Some(MaxTimestamp(txs))
    decreases |txs|
  {
    if txs != [] {
      var n := |txs| - 1;
      MaxTimestampIsMax(txs[..n]);
      assert forall i :: 0 <= i < n ==> txs[..n][i] == txs[i];
    }
  }

  /** The Tron checkpoint after a refresh covers every fetched block timestamp. */
  lemma CheckpointCoversFetched(checkpoint: Option<int>, txs: seq<RawTx>)
    ensures var m := MaxTimestamp(txs);
      var next := WalletService.NextTronCheckpoint(checkpoint, if m == 0 then None else Some(m));
      forall i :: 0 <= i < |txs| && txs[i].blockTimestamp.Some? && txs[i].blockTimestamp.value > 0 ==>
        next.Some? && txs[i].blockTimestamp.value <= next.value
  {
    MaxTimestampIsMax(txs);
  }

  /** The loop of `fetchAndParseTronWallet`: normalise and split each transaction, tracking the largest timestamp. */
  method ParseListing(txs: seq<RawTx>, a: string, fromHex: string -> Option<string>, ageOf: int -> string)
    returns (transactions: seq<Tx>, tokenTransactions: seq<Tx>, maxTs: nat)
    ensures Records(transactions, tokenTransactions) == Split(txs, a, fromHex, ageOf)
    ensures maxTs == MaxTimestamp(txs)
  {
    transactions, tokenTransactions := [], [];
    maxTs := 0;
    var i := 0;
    while i < |txs|
      invariant 0 <= i <= |txs|
      invariant Records(transactions, tokenTransactions) == Split(txs[..i], a, fromHex, ageOf)
      invariant maxTs == MaxTimestamp(txs[..i])
    {
      SplitStep(txs, i, a, fromHex, ageOf);
      MaxTimestampStep(txs, i);
      var ts := txs[i].blockTimestamp;
      if ts.Some? && ts.value > maxTs {
        maxTs := ts.value;
      }
      var norm := NormalizeTx(txs[i], a, fromHex, ageOf);
      ghost var before := Records(transactions, tokenTransactions);
      if norm.Some? {
        if norm.value.txType == "token" {
          tokenTransactions := tokenTransactions + [norm.value];
        } else {
          transactions := transactions + [norm.value];
        }
      }
      assert Records(transactions, tokenTransactions) == AddRecord(before, norm);
      i := i + 1;
    }
    assert txs[..i] == txs;
  }

  /**
   * `fetchAndParseTronWallet`: a blank address throws; otherwise the listing
   * for the checkpoint, normalised and split, with the largest block timestamp
   * (`None` when there is none). `balance` and `value` are the rendered
   * balance and its quote value.
   */
  method FetchAndParse(address: string, minBlockTimestamp: Option<int>, balance: string, value: string,
                       list: Option<nat> -> seq<RawTx>, fromHex: string -> Option<string>, ageOf: int -> string)
    returns (r: Result<WalletService.ChainFetch, string>)
    ensures Trim(address) == "" <==> r.Err?
    ensures r.Ok? ==>
      var txs := list(MinBlockParam(minBlockTimestamp));
      var split := Split(txs, Trim(address), fromHex, ageOf);
      var m := MaxTimestamp(txs);
      r.value == WalletService.ChainFetch(balance, value, split.native, split.tokens, if m == 0 then None else Some(m))
  {
    var a := Trim(address);
    if a == "" {
      return Err("Tron address is required");
    }
    var txs := list(MinBlockParam(minBlockTimestamp));
    var transactions, tokenTransactions, maxTs := ParseListing(txs, a, fromHex, ageOf);
    return Ok(WalletService.ChainFetch(balance, value, transactions, tokenTransactions,
                                       if maxTs == 0 then None else Some(maxTs)));
  }
}
