/**
 * The code backend/services/btcService.js and backend/services/ltcService.js
 * share (the two files differ only in names, the balance rule, the network
 * URLs and the status field): the paginated Esplora transaction listing and
 * the normaliser that turns a transaction into the wallet's net change.
 * Values are satoshi (litoshi) and stay integers.
 */
module Utxo {
  import opened Base
  import opened Text
  import opened Canonical
  import WalletService

  /** Which of the two services. */
  datatype Coin = Btc | Ltc

  function WalletTypeOf(coin: Coin): string {
    if coin == Btc then "Bitcoin" else "Litecoin"
  }

  function TxTypeOf(coin: Coin): string {
    if coin == Btc then "btc" else "ltc"
  }

  function TokenOf(coin: Coin): string {
    if coin == Btc then "BTC" else "LTC"
  }

  /** Confirmed transactions per page, and the page bound. */
  const PageSize: nat := 25
  const MaxPages: nat := 5

  /** A transaction output: its address (when it has one) and value (`Number(v) || 0`). */
  datatype Output = Output(address: Option<string>, value: nat)
  /** A transaction input: the output it spends, when the API includes it. */
  datatype Input = Input(prevout: Option<Output>)

  datatype RawTx = RawTx(txid: string, vin: seq<Input>, vout: seq<Output>, confirmed: bool,
                         blockHeight: Option<nat>, blockTime: Option<nat>)

  // ---------------------------------------------------------------- listing

  /**
   * The confirmed pages from the current state: `left` pages still allowed,
   * the cursor `last` ("" for the first page) and the records so far. A page
   * shorter than `PageSize`, or a last record without a txid, ends the listing.
   */
  function ConfirmedListing(chainPage: string -> seq<RawTx>, left: nat, last: string, acc: seq<RawTx>): (r: seq<RawTx>)
    ensures |acc| <= |r| && r[..|acc|] == acc
    decreases left
  {
    if left == 0 then acc
    else
      var chunk := chainPage(last);
      if |chunk| < PageSize || chunk[|chunk| - 1].txid == "" then acc + chunk
      else ConfirmedListing(chainPage, left - 1, chunk[|chunk| - 1].txid, acc + chunk)
  }

  /** The number of pages `ConfirmedListing` requests. */
  function PagesRequested(chainPage: string -> seq<RawTx>, left: nat, last: string): (n: nat)
    ensures n <= left
    decreases left
  {
    if left == 0 then 0
    else
      var chunk := chainPage(last);
      if |chunk| < PageSize || chunk[|chunk| - 1].txid == "" then 1
      else 1 + PagesRequested(chainPage, left - 1, chunk[|chunk| - 1].txid)
  }

  /** Every confirmed page holds full pages only, except the last one requested. */
  lemma {:induction false} ConfirmedPages(chainPage: string -> seq<RawTx>, left: nat, last: string, acc: seq<RawTx>)
    requires left >= 1
    ensures |ConfirmedListing(chainPage, left, last, acc)| >= |acc| + |chainPage(last)|
    ensures PagesRequested(chainPage, left, last) >= 1
    decreases left
  {
    var chunk := chainPage(last);
    if !(|chunk| < PageSize || chunk[|chunk| - 1].txid == "") && left > 1 {
      ConfirmedPages(chainPage, left - 1, chunk[|chunk| - 1].txid, acc + chunk);
    }
  }

  /**
   * `fetchTransactions`: the mempool transactions first, then at most
   * `MaxPages` confirmed pages, each after the last txid of the previous one.
   * A failed request counts as an empty page (`chainPage` and `mempool` are
   * already empty then).
   */
  method FetchTransactions(mempool: seq<RawTx>, chainPage: string -> seq<RawTx>)
    returns (txs: seq<RawTx>, requested: nat)
    ensures txs == mempool + ConfirmedListing(chainPage, MaxPages, "", [])
    ensures requested == PagesRequested(chainPage, MaxPages, "") <= MaxPages
  {
    var confirmed: seq<RawTx> := [];
    var last := "";
    var left := MaxPages;
    requested := 0;
    while left > 0
      invariant ConfirmedListing(chainPage, left, last, confirmed) == ConfirmedListing(chainPage, MaxPages, "", [])
      invariant requested + PagesRequested(chainPage, left, last) == PagesRequested(chainPage, MaxPages, "")
    {
      left, last, confirmed := NextPage(chainPage, left, last, confirmed);
      requested := requested + 1;
    }
    txs := mempool + confirmed;
  }

  /** One request of the confirmed-history loop: the page is appended, and the loop stops on a short page. */
  method NextPage(chainPage: string -> seq<RawTx>, left: nat, last: string, confirmed: seq<RawTx>)
    returns (left': nat, last': string, confirmed': seq<RawTx>)
    requires left > 0
    ensures left' < left
    ensures ConfirmedListing(chainPage, left', last', confirmed') == ConfirmedListing(chainPage, left, last, confirmed)
    ensures 1 + PagesRequested(chainPage, left', last') == PagesRequested(chainPage, left, last)
  {
    var chunk := chainPage(last);
    confirmed' := confirmed + chunk;
    if |chunk| < PageSize || chunk[|chunk| - 1].txid == "" {
      left', last' := 0, last;
    } else {
      left', last' := left - 1, chunk[|chunk| - 1].txid;
    }
  }

  // ---------------------------------------------------------------- net change

  /** The value of the outputs paying the wallet. */
  function Received(vout: seq<Output>, wallet: string): nat
    decreases |vout|
  {
    if vout == [] then 0
    else
      var o := vout[|vout| - 1];
      Received(vout[..|vout| - 1], wallet) + (if o.address == Some(wallet) then o.value else 0)
  }

  /** The value of the inputs spending the wallet's outputs. */
  function Sent(vin: seq<Input>, wallet: string): nat
    decreases |vin|
  {
    if vin == [] then 0
    else
      var p := vin[|vin| - 1].prevout;
      Sent(vin[..|vin| - 1], wallet) + (if p.Some? && p.value.address == Some(wallet) then p.value.value else 0)
  }

  /** Splitting the outputs splits what the wallet receives. */
  lemma {:induction false} ReceivedAppend(a: seq<Output>, b: seq<Output>, wallet: string)
    ensures Received(a + b, wallet) == Received(a, wallet) + Received(b, wallet)
    decreases |b|
  {
    if b == [] {
      assert a + b == a;
    } else {
      assert (a + b)[..|a + b| - 1] == a + b[..|b| - 1];
      assert (a + b)[|a + b| - 1] == b[|b| - 1];
      ReceivedAppend(a, b[..|b| - 1], wallet);
    }
  }

  /** Outputs to other addresses add nothing. */
  lemma {:induction false} ReceivedNone(vout: seq<Output>, wallet: string)
    requires forall i :: 0 <= i < |vout| ==> vout[i].address != Some(wallet)
    ensures Received(vout, wallet) == 0
    decreases |vout|
  {
    if vout != [] {
      ReceivedNone(vout[..|vout| - 1], wallet);
    }
  }

  /** Inputs from other addresses take nothing. */
  lemma {:induction false} SentNone(vin: seq<Input>, wallet: string)
    requires forall i :: 0 <= i < |vin| ==> vin[i].prevout.None? || vin[i].prevout.value.address != Some(wallet)
    ensures Sent(vin, wallet) == 0
    decreases |vin|
  {
    if vin != [] {
      SentNone(vin[..|vin| - 1], wallet);
    }
  }

  /** The loop of `normalizeTx` over the outputs. */
  method SumReceived(vout: seq<Output>, wallet: string) returns (total: nat)
    ensures total == Received(vout, wallet)
  {
    total := 0;
    var i := 0;
    while i < |vout|
      invariant 0 <= i <= |vout|
      invariant total == Received(vout[..i], wallet)
    {
      assert vout[..i + 1][..i] == vout[..i];
      if vout[i].address == Some(wallet) {
        total := total + vout[i].value;
      }
      i := i + 1;
    }
    assert vout[..i] == vout;
  }

  /** The loop of `normalizeTx` over the inputs. */
  method SumSent(vin: seq<Input>, wallet: string) returns (total: nat)
    ensures total == Sent(vin, wallet)
  {
    total := 0;
    var i := 0;
    while i < |vin|
      invariant 0 <= i <= |vin|
      invariant total == Sent(vin[..i], wallet)
    {
      assert vin[..i + 1][..i] == vin[..i];
      var p := vin[i].prevout;
      if p.Some? && p.value.address == Some(wallet) {
        total := total + p.value.value;
      }
      i := i + 1;
    }
    assert vin[..i] == vin;
  }

  // ---------------------------------------------------------------- counterparties

  /** A truthy address other than the wallet's. */
  predicate Foreign(a: Option<string>, wallet: string) {
    a.Some? && a.value != "" && a.value != wallet
  }

  function InputAddress(i: Input): Option<string> {
    if i.prevout.Some? then i.prevout.value.address else None
  }

  /** `vin.find(...)`: the index of the first input spending from a foreign address. */
  function FindForeignInput(vin: seq<Input>, wallet: string): (r: Option<nat>)
    ensures r.Some? ==> r.value < |vin| && Foreign(InputAddress(vin[r.value]), wallet)
                        && forall j :: 0 <= j < r.value ==> !Foreign(InputAddress(vin[j]), wallet)
    ensures r.None? ==> forall j :: 0 <= j < |vin| ==> !Foreign(InputAddress(vin[j]), wallet)
    decreases |vin|
  {
    if vin == [] then None
    else if Foreign(InputAddress(vin[0]), wallet) then Some(0)
    else
      var rest := FindForeignInput(vin[1..], wallet);
      assert forall j :: 1 <= j < |vin| ==> vin[j] == vin[1..][j - 1];
      if rest.Some? then Some(rest.value + 1) else None
  }

  /** `vout.find(...)`: the index of the first output paying a foreign address. */
  function FindForeignOutput(vout: seq<Output>, wallet: string): (r: Option<nat>)
    ensures r.Some? ==> r.value < |vout| && Foreign(vout[r.value].address, wallet)
                        && forall j :: 0 <= j < r.value ==> !Foreign(vout[j].address, wallet)
    ensures r.None? ==> forall j :: 0 <= j < |vout| ==> !Foreign(vout[j].address, wallet)
    decreases |vout|
  {
    if vout == [] then None
    else if Foreign(vout[0].address, wallet) then Some(0)
    else
      var rest := FindForeignOutput(vout[1..], wallet);
      assert forall j :: 1 <= j < |vout| ==> vout[j] == vout[1..][j - 1];
      if rest.Some? then Some(rest.value + 1) else None
  }

  /**
   * The sender of an incoming transaction: the address of the first input
   * from a foreign address, else the first input's address, else "".
   */
  function Sender(vin: seq<Input>, wallet: string): (r: string)
    ensures forall i :: 0 <= i < |vin| && Foreign(InputAddress(vin[i]), wallet)
                        && (forall j :: 0 <= j < i ==> !Foreign(InputAddress(vin[j]), wallet))
                        ==> r == InputAddress(vin[i]).value
    ensures (forall i :: 0 <= i < |vin| ==> !Foreign(InputAddress(vin[i]), wallet)) ==>
              r == (if vin != [] && InputAddress(vin[0]).Some? then InputAddress(vin[0]).value else "")
  {
    var k := FindForeignInput(vin, wallet);
    if k.Some? then InputAddress(vin[k.value]).value
    else if vin != [] && InputAddress(vin[0]).Some? then InputAddress(vin[0]).value
    else ""
  }

  /**
   * The recipient of an outgoing transaction: the first output address that
   * is foreign, else the first output's address, else "".
   */
  function Recipient(vout: seq<Output>, wallet: string): (r: string)
    ensures forall i :: 0 <= i < |vout| && Foreign(vout[i].address, wallet)
                        && (forall j :: 0 <= j < i ==> !Foreign(vout[j].address, wallet))
                        ==> r == vout[i].address.value
    ensures (forall i :: 0 <= i < |vout| ==> !Foreign(vout[i].address, wallet)) ==>
              r == (if vout != [] && vout[0].address.Some? then vout[0].address.value else "")
  {
    var k := FindForeignOutput(vout, wallet);
    if k.Some? then vout[k.value].address.value
    else if vout != [] && vout[0].address.Some? then vout[0].address.value
    else ""
  }

  /** A foreign input, wherever it is, makes the sender a non-empty address other than the wallet. */
  lemma SenderForeign(vin: seq<Input>, wallet: string)
    requires exists i :: 0 <= i < |vin| && Foreign(InputAddress(vin[i]), wallet)
    ensures Sender(vin, wallet) != "" && Sender(vin, wallet) != wallet
  {
    var k := FindForeignInput(vin, wallet);
    assert k.Some?;
  }

  /**
   * When the first output carries no address and the only addressed output is
   * the wallet's change, the recipient is "", not the wallet.
   */
  lemma RecipientNoFallThrough(wallet: string, change: nat)
    requires wallet != ""
    ensures Recipient([Output(None, 0), Output(Some(wallet), change)], wallet) == ""
  {
    var vout := [Output(None, 0), Output(Some(wallet), change)];
    assert !Foreign(vout[0].address, wallet) && !Foreign(vout[1].address, wallet);
  }

  // ---------------------------------------------------------------- normalisation

  /**
   * `normalizeTx`: nothing when the wallet's net change is zero; otherwise a
   * record of its size in coin units (8 decimals), incoming when positive,
   * with the counterparty on the other side and, for Bitcoin only, whether
   * the transaction is confirmed.
   */
  function Normalized(coin: Coin, tx: RawTx, wallet: string, ageOf: int -> string): (r: Option<Tx>)
    ensures var received := Received(tx.vout, wallet);
      var sent := Sent(tx.vin, wallet);
      (r.None? <==> received == sent)
      && (r.Some? ==>
            && (r.value.inOut == "IN" <==> received > sent)
            && (r.value.inOut == "OUT" <==> received < sent)
            && r.value.amount == Units(if received > sent then received - sent else sent - received, 8)
            && (received > sent ==> r.value.from == Sender(tx.vin, wallet) && r.value.to == wallet)
            && (received < sent ==> r.value.from == wallet && r.value.to == Recipient(tx.vout, wallet)))
    ensures r.Some? ==> r.value.hash == tx.txid && r.value.walletType == WalletTypeOf(coin)
                        && r.value.token == TokenOf(coin)
    ensures r.Some? ==> (r.value.status.Some? <==> coin == Btc)
    ensures r.Some? && coin == Btc ==> r.value.status == Some(if tx.confirmed then Confirmed else Pending)
  {
    var received := Received(tx.vout, wallet);
    var sent := Sent(tx.vin, wallet);
    if received == sent then None
    else
      var isIn := received > sent;
      var from := if isIn then Sender(tx.vin, wallet) else wallet;
      var to := if isIn then wallet else Recipient(tx.vout, wallet);
      Some(Tx(tx.txid, WalletTypeOf(coin), TxTypeOf(coin), TokenOf(coin), "Transfer",
              if tx.blockHeight.Some? then NatToString(tx.blockHeight.value) else "",
              if tx.blockTime.Some? && tx.blockTime.value != 0 then ageOf(tx.blockTime.value) else "",
              from, to, if isIn then "IN" else "OUT",
              Units(if isIn then received - sent else sent - received, 8),
              if coin == Btc then Some(if tx.confirmed then Confirmed else Pending) else None))
  }

  /** A transaction that neither pays nor spends the wallet yields no record. */
  lemma Unrelated(coin: Coin, tx: RawTx, wallet: string, ageOf: int -> string)
    requires forall i :: 0 <= i < |tx.vout| ==> tx.vout[i].address != Some(wallet)
    requires forall i :: 0 <= i < |tx.vin| ==> tx.vin[i].prevout.None? || tx.vin[i].prevout.value.address != Some(wallet)
    ensures Normalized(coin, tx, wallet, ageOf).None?
  {
    ReceivedNone(tx.vout, wallet);
    SentNone(tx.vin, wallet);
  }

  /** `normalizeTx` with its two summing loops. */
  method NormalizeTx(coin: Coin, tx: RawTx, wallet: string, ageOf: int -> string) returns (r: Option<Tx>)
    ensures r == Normalized(coin, tx, wallet, ageOf)
  {
    var received := SumReceived(tx.vout, wallet);
    var sent := SumSent(tx.vin, wallet);
    if received == sent {
      return None;
    }
    var isIn := received > sent;
    var from := if isIn then Sender(tx.vin, wallet) else wallet;
    var to := if isIn then wallet else Recipient(tx.vout, wallet);
    var block := if tx.blockHeight.Some? then NatToString(tx.blockHeight.value) else "";
    var age := if tx.blockTime.Some? && tx.blockTime.value != 0 then ageOf(tx.blockTime.value) else "";
    var status := if coin == Btc then Some(if tx.confirmed then Confirmed else Pending) else None;
    r := Some(Tx(tx.txid, WalletTypeOf(coin), TxTypeOf(coin), TokenOf(coin), "Transfer", block, age,
                 from, to, if isIn then "IN" else "OUT",
                 Units(if isIn then received - sent else sent - received, 8), status));
  }

  /** The records of `txs`, in order. */
  function Records(coin: Coin, txs: seq<RawTx>, wallet: string, ageOf: int -> string): (r: seq<Tx>)
    ensures |r| <= |txs|
    ensures forall t :: t in r ==> t.walletType == WalletTypeOf(coin) && (t.inOut == "IN" || t.inOut == "OUT")
    decreases |txs|
  {
    if txs == [] then []
    else
      var prev := Records(coin, txs[..|txs| - 1], wallet, ageOf);
      var norm := Normalized(coin, txs[|txs| - 1], wallet, ageOf);
      prev + (if norm.Some? then [norm.value] else [])
  }

  /**
   * `fetchAndParseBtcWallet` / `fetchAndParseLtcWallet`: a blank address
   * throws; otherwise the listing normalised, and no token records.
   * `balance` and `value` are the rendered balance and its quote value.
   */
  method FetchAndParse(coin: Coin, address: string, balance: string, value: string,
                       mempool: seq<RawTx>, chainPage: string -> seq<RawTx>, ageOf: int -> string)
    returns (r: Result<WalletService.ChainFetch, string>)
    ensures Trim(address) == "" <==> r.Err?
    ensures r.Err? ==> r.error == WalletTypeOf(coin) + " address is required"
    ensures r.Ok? ==> r.value == WalletService.ChainFetch(balance, value,
      Records(coin, mempool + ConfirmedListing(chainPage, MaxPages, "", []), Trim(address), ageOf), [], None)
  {
    var a := Trim(address);
    if a == "" {
      return Err(WalletTypeOf(coin) + " address is required");
    }
    var txs, _ := FetchTransactions(mempool, chainPage);
    var transactions := NormalizeAll(coin, txs, a, ageOf);
    return Ok(WalletService.ChainFetch(balance, value, transactions, [], None));
  }

  /** The loop of `fetchAndParse…Wallet`: every listed transaction normalised, the unrelated ones dropped. */
  method NormalizeAll(coin: Coin, txs: seq<RawTx>, wallet: string, ageOf: int -> string) returns (transactions: seq<Tx>)
    ensures transactions == Records(coin, txs, wallet, ageOf)
  {
    transactions := [];
    var i := 0;
    while i < |txs|
      invariant 0 <= i <= |txs|
      invariant transactions == Records(coin, txs[..i], wallet, ageOf)
    {
      RecordsStep(coin, txs, wallet, ageOf, i);
      var norm := NormalizeTx(coin, txs[i], wallet, ageOf);
      transactions := transactions + (if norm.Some? then [norm.value] else []);
      i := i + 1;
    }
    assert txs[..i] == txs;
  }

  /** Unfolds `Records` at one more transaction. */
  lemma RecordsStep(coin: Coin, txs: seq<RawTx>, wallet: string, ageOf: int -> string, i: nat)
    requires i < |txs|
    ensures var norm := Normalized(coin, txs[i], wallet, ageOf);
      Records(coin, txs[..i + 1], wallet, ageOf) == Records(coin, txs[..i], wallet, ageOf) + (if norm.Some? then [norm.value] else [])
  {
    assert txs[..i + 1][..i] == txs[..i];
  }
}
