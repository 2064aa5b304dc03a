/**
 * The standalone Bitcoin and Litecoin monitors of refer/btc.js and
 * refer/ltc.js. The two classes differ only in their address patterns and
 * network tables; both poll an Esplora API, diff the listed transaction ids
 * against the previous poll and report the wallet's net change for every
 * new transaction they have not processed.
 *
 * The two listings are parameters (`None` when a request throws or returns
 * no data, which the source turns into an empty list), as are the address
 * check's input and the clock.
 */
module ReferUtxo {
  import opened Base
  import opened Text
  import opened SeenSet
  import opened Utxo
  import opened Polling

  // ---------------------------------------------------------------- address patterns

  /** `[a-zA-HJ-NP-Z0-9]`: letters and digits without upper-case I and O. */
  predicate AllowedChar(c: char) {
    ('a' <= c <= 'z') || ('A' <= c <= 'H') || ('J' <= c <= 'N') || ('P' <= c <= 'Z') || ('0' <= c <= '9')
  }

  /** `[a-zA-HJ-NP-Z0-9]{25,62}$`. */
  predicate Body(s: string) {
    25 <= |s| <= 62 && forall i :: 0 <= i < |s| ==> AllowedChar(s[i])
  }

  /** `address` is one of the prefixes followed by an allowed body. */
  predicate MatchesAt(address: string, prefix: string) {
    StartsWith(address, prefix) && Body(address[|prefix|..])
  }

  /** The regular expression `^(p1|p2|...)body$`, checked one alternative after the other. */
  function Matches(address: string, prefixes: seq<string>): (r: bool)
    ensures r <==> exists i :: 0 <= i < |prefixes| && MatchesAt(address, prefixes[i])
  {
    if prefixes == [] then false
    else
      var rest := Matches(address, prefixes[1..]);
      assert rest <==> exists i :: 1 <= i < |prefixes| && MatchesAt(address, prefixes[i]) by {
        if rest {
          var i :| 0 <= i < |prefixes[1..]| && MatchesAt(address, prefixes[1..][i]);
          assert prefixes[i + 1] == prefixes[1..][i];
        }
        if exists i :: 1 <= i < |prefixes| && MatchesAt(address, prefixes[i]) {
          var i :| 1 <= i < |prefixes| && MatchesAt(address, prefixes[i]);
          assert prefixes[1..][i - 1] == prefixes[i];
        }
      }
      MatchesAt(address, prefixes[0]) || rest
  }

  /** The mainnet prefixes of each coin. */
  function MainnetPrefixes(coin: Coin): seq<string> {
    if coin == Btc then ["1", "3", "bc1"] else ["L", "M", "ltc1"]
  }

  /** The testnet prefixes of each coin (Bitcoin's testnet4 pattern is the testnet3 one). */
  function TestnetPrefixes(coin: Coin): seq<string> {
    if coin == Btc then ["m", "n", "2", "tb1"] else ["m", "n", "2", "tltc1"]
  }

  /** `isValidBitcoinAddress` / `isValidLitecoinAddress`. */
  function IsValidAddress(coin: Coin, address: string): (ok: bool)
    ensures ok <==> exists p :: (p in MainnetPrefixes(coin) || p in TestnetPrefixes(coin)) && MatchesAt(address, p)
  {
    var m := Matches(address, MainnetPrefixes(coin));
    var t := Matches(address, TestnetPrefixes(coin));
    assert m <==> exists p :: p in MainnetPrefixes(coin) && MatchesAt(address, p) by {
      if exists p :: p in MainnetPrefixes(coin) && MatchesAt(address, p) {
        var p :| p in MainnetPrefixes(coin) && MatchesAt(address, p);
        var i :| 0 <= i < |MainnetPrefixes(coin)| && MainnetPrefixes(coin)[i] == p;
      }
    }
    assert t <==> exists p :: p in TestnetPrefixes(coin) && MatchesAt(address, p) by {
      if exists p :: p in TestnetPrefixes(coin) && MatchesAt(address, p) {
        var p :| p in TestnetPrefixes(coin) && MatchesAt(address, p);
        var i :| 0 <= i < |TestnetPrefixes(coin)| && TestnetPrefixes(coin)[i] == p;
      }
    }
    m || t
  }

  /** A valid address is 26 to 67 characters long, and from its sixth character on every character is allowed. */
  lemma ValidAddressShape(coin: Coin, address: string)
    requires IsValidAddress(coin, address)
    ensures 26 <= |address| <= 67
    ensures forall i :: 5 <= i < |address| ==> AllowedChar(address[i])
  {
    var p :| (p in MainnetPrefixes(coin) || p in TestnetPrefixes(coin)) && MatchesAt(address, p);
    assert 1 <= |p| <= 5;
    forall i | |p| <= i < |address| ensures AllowedChar(address[i]) {
      assert address[|p|..][i - |p|] == address[i];
    }
  }

  // ---------------------------------------------------------------- networks

  datatype Endpoint = Endpoint(apiUrl: string, network: string)

  /** `getApiUrl()` and `getNetwork()` from the network setting ("" when unset, read as `testnet`). */
  function EndpointOf(coin: Coin, setting: string): (e: Endpoint)
    ensures setting == "mainnet" ==> e.network == "Mainnet"
    ensures coin == Btc && setting == "mainnet" ==> e.apiUrl == "https://blockstream.info/api"
    ensures coin == Btc && setting == "testnet4" ==> e == Endpoint("https://mempool.space/testnet4/api", "Testnet4")
    ensures coin == Btc && setting !in {"mainnet", "testnet4"} ==> e == Endpoint("https://blockstream.info/testnet/api", "Testnet3")
    ensures coin == Ltc && setting == "mainnet" ==> e.apiUrl == "https://litecoinspace.org/api"
    ensures coin == Ltc && setting != "mainnet" ==> e == Endpoint("https://litecoinspace.org/testnet/api", "Testnet")
  {
    var network := if setting == "" then "testnet" else setting;
    match coin
    case Btc =>
      if network == "mainnet" then Endpoint("https://blockstream.info/api", "Mainnet")
      else if network == "testnet4" then Endpoint("https://mempool.space/testnet4/api", "Testnet4")
      else Endpoint("https://blockstream.info/testnet/api", "Testnet3")
    case Ltc =>
      if network == "mainnet" then Endpoint("https://litecoinspace.org/api", "Mainnet")
      else Endpoint("https://litecoinspace.org/testnet/api", "Testnet")
  }

  // ---------------------------------------------------------------- one transaction

  /** What `sendDiscordNotification` is asked to send; the amount is in satoshi (litoshi). */
  datatype Notice = Notice(txid: string, amount: nat, incoming: bool, confirmed: bool,
                           blockHeight: Option<nat>, blockTime: Option<nat>)

  /** `analyzeAndNotify`: nothing for a zero net change, else its size and sign. */
  function NoticeOf(tx: RawTx, wallet: string): (n: Option<Notice>)
    ensures n.None? <==> Received(tx.vout, wallet) == Sent(tx.vin, wallet)
    ensures n.Some? ==> n.value.txid == tx.txid && n.value.confirmed == tx.confirmed
    ensures n.Some? ==> (n.value.incoming <==> Received(tx.vout, wallet) > Sent(tx.vin, wallet))
    ensures n.Some? && n.value.incoming ==> n.value.amount == Received(tx.vout, wallet) - Sent(tx.vin, wallet)
    ensures n.Some? && !n.value.incoming ==> n.value.amount == Sent(tx.vin, wallet) - Received(tx.vout, wallet)
  {
    var net := Received(tx.vout, wallet) - Sent(tx.vin, wallet);
    if net == 0 then None
    else Some(Notice(tx.txid, if net > 0 then net else -net, net > 0, tx.confirmed, tx.blockHeight, tx.blockTime))
  }

  const Blue: int := 0x3498db
  const Green: int := 0x2ecc71
  const Red: int := 0xe74c3c

  /** The embed colour: blue while pending, else green in and red out. */
  function Colour(n: Notice): (c: int)
    ensures !n.confirmed <==> c == Blue
    ensures n.confirmed ==> (c == Green <==> n.incoming) && (c == Red <==> !n.incoming)
  {
    if !n.confirmed then Blue else if n.incoming then Green else Red
  }

  // ---------------------------------------------------------------- one check

  /** The transactions whose id was not listed by the previous poll, in order. */
  function Unlisted(all: seq<RawTx>, lastChecked: set<string>): (r: seq<RawTx>)
    ensures forall t :: t in r <==> t in all && t.txid !in lastChecked
    ensures |r| <= |all|
  {
    if all == [] then []
    else (if all[0].txid !in lastChecked then [all[0]] else []) + Unlisted(all[1..], lastChecked)
  }

  /** `new Set(all.map(tx => tx.txid))`. */
  function TxIds(all: seq<RawTx>): (ids: set<string>)
    ensures forall id :: id in ids <==> exists t :: t in all && t.txid == id
  {
    set t | t in all :: t.txid
  }

  datatype Scanned = Scanned(processed: seq<string>, notices: seq<Notice>)

  /** One pass of the loop body over the new transactions. */
  function Visit(r: Scanned, tx: RawTx, wallet: string): Scanned {
    if tx.txid in r.processed then r
    else
      var n := NoticeOf(tx, wallet);
      Scanned(r.processed + [tx.txid], r.notices + if n.Some? then [n.value] else [])
  }

  function Scan(start: Scanned, txs: seq<RawTx>, wallet: string): Scanned
    decreases |txs|
  {
    if txs == [] then start else Visit(Scan(start, txs[..|txs| - 1], wallet), txs[|txs| - 1], wallet)
  }

  lemma ScanStep(start: Scanned, txs: seq<RawTx>, wallet: string, i: nat)
    requires i < |txs|
    ensures Scan(start, txs[..i + 1], wallet) == Visit(Scan(start, txs[..i], wallet), txs[i], wallet)
  {
    assert txs[..i + 1][..i] == txs[..i];
  }

  /**
   * The loop never forgets an id and marks no id twice, and every notice is
   * for a listed transaction that was not processed before.
   */
  lemma {:induction false} ScanFacts(start: Scanned, txs: seq<RawTx>, wallet: string)
    requires NoDup(start.processed) && start.notices == []
    ensures var r := Scan(start, txs, wallet);
      NoDup(r.processed) && |start.processed| <= |r.processed| && r.processed[..|start.processed|] == start.processed
      && forall n :: n in r.notices ==> n.txid !in start.processed && exists t :: t in txs && t.txid == n.txid
    decreases |txs|
  {
    if txs != [] {
      var init := txs[..|txs| - 1];
      ScanFacts(start, init, wallet);
      var r := Scan(start, init, wallet);
      var tx := txs[|txs| - 1];
      forall n | n in r.notices ensures exists t :: t in txs && t.txid == n.txid {
        var t :| t in init && t.txid == n.txid;
        assert t in txs;
      }
      if tx.txid !in r.processed {
        assert (r.processed + [tx.txid])[..|start.processed|] == start.processed;
        assert tx.txid !in start.processed;
      }
    }
  }

  datatype State = State(processed: seq<string>, lastChecked: set<string>)

  datatype Check = Check(state: State, notices: seq<Notice>)

  /**
   * `checkRecentTransactions`: with nothing listed the state stays; else
   * the transactions not listed last time and not yet processed are marked
   * and analysed, the listed ids become the new snapshot and the processed
   * set is trimmed.
   */
  function Checked(s: State, confirmed: Option<seq<RawTx>>, mempool: Option<seq<RawTx>>, wallet: string): Check {
    var all := mempool.GetOr([]) + confirmed.GetOr([]);
    if all == [] then Check(s, [])
    else
      var r := Scan(Scanned(s.processed, []), Unlisted(all, s.lastChecked), wallet);
      Check(State(Newest(r.processed, Cap), TxIds(all)), r.notices)
  }

  /**
   * A check reports only transactions it has just listed that were neither
   * in the previous snapshot nor processed before; the snapshot becomes
   * exactly the listed ids; the set stays within `Cap` and free of
   * duplicates. With nothing listed nothing changes.
   */
  lemma CheckFacts(s: State, confirmed: Option<seq<RawTx>>, mempool: Option<seq<RawTx>>, wallet: string)
    requires NoDup(s.processed)
    ensures var all := mempool.GetOr([]) + confirmed.GetOr([]);
      var c := Checked(s, confirmed, mempool, wallet);
      NoDup(c.state.processed)
      && (all == [] ==> c == Check(s, []))
      && (all != [] ==> c.state.lastChecked == TxIds(all) && |c.state.processed| <= Cap)
      && forall n :: n in c.notices ==>
           n.txid !in s.processed && n.txid !in s.lastChecked && exists t :: t in all && t.txid == n.txid
  {
    var all := mempool.GetOr([]) + confirmed.GetOr([]);
    if all != [] {
      var newTxs := Unlisted(all, s.lastChecked);
      ScanFacts(Scanned(s.processed, []), newTxs, wallet);
      var r := Scan(Scanned(s.processed, []), newTxs, wallet);
      forall n | n in r.notices ensures n.txid !in s.lastChecked && exists t :: t in all && t.txid == n.txid {
        var t :| t in newTxs && t.txid == n.txid;
      }
    }
  }

  /**
   * The converse of `CheckFacts`: a check loses no transaction. A listed
   * transaction that is in neither the previous snapshot nor the processed
   * set, and whose net change is not zero, is reported, provided its id
   * names only that transaction in the listing.
   */
  lemma CheckReportsEveryNew(s: State, confirmed: Option<seq<RawTx>>, mempool: Option<seq<RawTx>>, wallet: string, t: RawTx)
    requires t in mempool.GetOr([]) + confirmed.GetOr([])
    requires forall u :: u in mempool.GetOr([]) + confirmed.GetOr([]) && u.txid == t.txid ==> u == t
    requires t.txid !in s.processed && t.txid !in s.lastChecked && NoticeOf(t, wallet).Some?
    ensures NoticeOf(t, wallet).value in Checked(s, confirmed, mempool, wallet).notices
  {
    var all := mempool.GetOr([]) + confirmed.GetOr([]);
    ScanReportsNew(Scanned(s.processed, []), Unlisted(all, s.lastChecked), wallet, t);
  }

  /** The loop reports every transaction it meets whose id was not processed before. */
  lemma {:induction false} ScanReportsNew(start: Scanned, txs: seq<RawTx>, wallet: string, t: RawTx)
    requires t in txs && t.txid !in start.processed && NoticeOf(t, wallet).Some?
    requires forall u :: u in txs && u.txid == t.txid ==> u == t
    ensures NoticeOf(t, wallet).value in Scan(start, txs, wallet).notices
    decreases |txs|
  {
    var init := txs[..|txs| - 1];
    var r := Scan(start, init, wallet);
    assert txs == init + [txs[|txs| - 1]];
    if t in init {
      ScanReportsNew(start, init, wallet, t);
    } else {
      ScanMarksListed(start, init, wallet);
      assert t.txid !in r.processed;
    }
  }

  /** The loop marks only ids it has met. */
  lemma {:induction false} ScanMarksListed(start: Scanned, txs: seq<RawTx>, wallet: string)
    ensures forall id :: id in Scan(start, txs, wallet).processed ==>
      id in start.processed || exists u :: u in txs && u.txid == id
    decreases |txs|
  {
    if txs != [] {
      var init := txs[..|txs| - 1];
      ScanMarksListed(start, init, wallet);
      assert forall u :: u in init ==> u in txs;
    }
  }

  /** A check never marks an id twice. */
  lemma CheckKeepsNoDup(s: State, confirmed: Option<seq<RawTx>>, mempool: Option<seq<RawTx>>, wallet: string)
    requires NoDup(s.processed)
    ensures NoDup(Checked(s, confirmed, mempool, wallet).state.processed)
  {
    CheckFacts(s, confirmed, mempool, wallet);
  }

  /** The monitor object; `coin` tells the two scripts apart. */
  class UtxoMonitor {
    const coin: Coin
    const wallet: string
    const endpoint: Endpoint
    var processed: seq<string>
    var lastChecked: set<string>
    var isRunning: bool

    /** `checkInterval`. */
    const checkInterval: int

    function StateOf(): State
      reads this
    {
      State(processed, lastChecked)
    }

    ghost predicate Valid()
      reads this
    {
      NoDup(processed)
    }

    /** The constructor; `setting` is the network setting. */
    constructor (coin: Coin, wallet: string, setting: string)
      ensures Valid() && this.coin == coin && this.wallet == wallet && endpoint == EndpointOf(coin, setting)
      ensures StateOf() == State([], {}) && !isRunning && checkInterval == 10000
    {
      this.coin := coin;
      this.wallet := wallet;
      endpoint := EndpointOf(coin, setting);
      processed := [];
      lastChecked := {};
      isRunning := false;
      checkInterval := 10000;
    }

    /** `analyzeAndNotify`: the two summing loops, then the net change. */
    method AnalyzeAndNotify(tx: RawTx) returns (n: Option<Notice>)
      ensures n == NoticeOf(tx, wallet)
    {
      var totalReceived := SumReceived(tx.vout, wallet);
      var totalSent := SumSent(tx.vin, wallet);
      var netChange := totalReceived as int - totalSent as int;
      if netChange == 0 {
        return None;
      }
      n := Some(Notice(tx.txid, if netChange > 0 then netChange else -netChange, netChange > 0,
                       tx.confirmed, tx.blockHeight, tx.blockTime));
    }

    /** The loop of `checkRecentTransactions` over the new transactions. */
    method ScanNew(txs: seq<RawTx>) returns (notices: seq<Notice>)
      modifies this
      ensures Scanned(processed, notices) == Scan(Scanned(old(processed), []), txs, wallet)
      ensures lastChecked == old(lastChecked) && isRunning == old(isRunning)
    {
      ghost var start := Scanned(processed, []);
      notices := [];
      for i := 0 to |txs|
        invariant Scanned(processed, notices) == Scan(start, txs[..i], wallet)
        invariant lastChecked == old(lastChecked) && isRunning == old(isRunning)
      {
        ScanStep(start, txs, wallet, i);
        var tx := txs[i];
        if tx.txid !in processed {
          processed := processed + [tx.txid];
          var n := AnalyzeAndNotify(tx);
          if n.Some? {
            notices := notices + [n.value];
          }
        }
      }
      assert txs[..|txs|] == txs;
    }

    /** `checkRecentTransactions`. */
    method CheckRecentTransactions(confirmed: Option<seq<RawTx>>, mempool: Option<seq<RawTx>>) returns (notices: seq<Notice>)
      requires Valid()
      modifies this
      ensures Valid() && isRunning == old(isRunning)
      ensures Check(StateOf(), notices) == Checked(old(StateOf()), confirmed, mempool, wallet)
    {
      CheckKeepsNoDup(StateOf(), confirmed, mempool, wallet);
      var confirmedTxs := if confirmed.Some? then confirmed.value else [];
      var mempoolTxs := if mempool.Some? then mempool.value else [];
      var all := mempoolTxs + confirmedTxs;
      if |all| == 0 {
        return [];
      }
      var currentTxIds := TxIds(all);
      var newTxs := Unlisted(all, lastChecked);
      notices := ScanNew(newTxs);
      lastChecked := currentTxIds;
      if |processed| > Cap {
        processed := processed[|processed| - Cap..];
      }
    }

    /** `pollTransactions` with the clock read before and after the check. */
    method PollTransactions(startTime: int, endTime: int, confirmed: Option<seq<RawTx>>, mempool: Option<seq<RawTx>>)
      returns (next: Option<int>, notices: seq<Notice>)
      requires Valid()
      modifies this
      ensures Valid() && isRunning == old(isRunning)
      ensures !old(isRunning) ==> next.None? && notices == [] && StateOf() == old(StateOf())
      ensures old(isRunning) ==> (Check(StateOf(), notices) == Checked(old(StateOf()), confirmed, mempool, wallet)
                                  && next == Some(NextPoll(checkInterval, endTime - startTime)))
    {
      if !isRunning {
        return None, [];
      }
      notices := CheckRecentTransactions(confirmed, mempool);
      next := Some(Max(0, checkInterval - (endTime - startTime)));
    }

    /** `start`: nothing for an invalid address; else running, and a first check. */
    method Start(confirmed: Option<seq<RawTx>>, mempool: Option<seq<RawTx>>) returns (notices: seq<Notice>)
      requires Valid()
      modifies this
      ensures Valid()
      ensures !IsValidAddress(coin, wallet) ==> notices == [] && StateOf() == old(StateOf()) && isRunning == old(isRunning)
      ensures IsValidAddress(coin, wallet) ==>
        isRunning && Check(StateOf(), notices) == Checked(old(StateOf()), confirmed, mempool, wallet)
    {
      if !IsValidAddress(coin, wallet) {
        return [];
      }
      isRunning := true;
      notices := CheckRecentTransactions(confirmed, mempool);
    }

    /** `stop`. */
    method Stop()
      modifies this
      ensures !isRunning && StateOf() == old(StateOf())
    {
      isRunning := false;
    }
  }
}
