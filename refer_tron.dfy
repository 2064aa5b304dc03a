/**
 * The standalone Tron monitor of refer/tron.js: a polling loop that lists the
 * wallet's twenty newest transactions, reports native TRX transfers and
 * TRC-20 `transfer` calls that involve the wallet, and remembers what it has
 * reported.
 *
 * TronWeb, TronGrid and the clock are parameters: the balance and listing
 * results (an error in place of a value when the call throws), `fromHex`
 * (TronWeb's hex-to-base58 conversion) and `infos` (the contract lookup of
 * `getTokenMetadata`, `None` when it throws or has no data).
 */
module ReferTron {
  import opened Base
  import opened Text
  import opened SeenSet
  import opened Polling

  /** Why a TronGrid or TronWeb call threw. */
  datatype Failure = HttpStatus(code: int) | ConnectionReset | TimedOut | OtherError

  /** `parameter.value` of a `TransferContract`: hex addresses and the amount in sun. */
  datatype TransferValue = TransferValue(owner: string, to: string, sun: int)

  /** `parameter.value` of a `TriggerSmartContract`; `data` is "" when absent. */
  datatype TriggerValue = TriggerValue(owner: string, contractAddress: string, data: string)

  /** `raw_data.contract[0]`. */
  datatype Contract =
    | Transfer(transfer: Option<TransferValue>)
    | Trigger(trigger: Option<TriggerValue>)
    | OtherContract

  /** A listed transaction; `success` is `ret[0].contractRet === 'SUCCESS'`. */
  datatype TronTx = TronTx(txID: string, blockTimestamp: int, contract: Option<Contract>, success: bool)

  datatype TokenMeta = TokenMeta(symbol: string, decimals: nat, name: string)

  /** What the contract lookup returned; "" and 0 are the falsy (missing) values. */
  datatype ContractInfo = ContractInfo(symbol: string, decimals: nat, name: string)

  datatype Asset = Trx(sun: int) | Trc20(contractAddress: string, amountHex: string, meta: TokenMeta)

  /** What `sendDiscordNotification` is asked to send. */
  datatype Notice = Notice(txId: string, incoming: bool, otherParty: string, blockTime: int, failed: bool, asset: Asset)

  const TransferSelector := "a9059cbb"
  const BufferMs: int := 30000
  const PollMs: int := 2000
  const RateLimitedMs: int := 5000

  /** `getNetwork()` from `TRON_RPC_URL` ("" when unset). */
  function Network(url: string): (r: string)
    ensures Contains(url, "shasta") ==> r == "Shasta Testnet"
    ensures !Contains(url, "shasta") && Contains(url, "nile") ==> r == "Nile Testnet"
    ensures !Contains(url, "shasta") && !Contains(url, "nile") ==> r == "Mainnet"
  {
    if Contains(url, "shasta") then "Shasta Testnet"
    else if Contains(url, "nile") then "Nile Testnet"
    else "Mainnet"
  }

  // ---------------------------------------------------------------- token metadata

  /** `knownTokens`. */
  const KnownTokens: map<string, TokenMeta> := map[
    "TR7NHqjeKQxGTCi8q8ZY4pL8otSzgjLj6t" := TokenMeta("USDT", 6, "Tether USD"),
    "TEkxiTehnzSmSe2XqrBj4w32RUN966rdz8" := TokenMeta("USDC", 6, "USD Coin"),
    "TMwFHYXLJaRUPeW6421aqXL4ZEzPRFGkGT" := TokenMeta("USDJ", 18, "JUST Stablecoin"),
    "TNUC9Qb1rRpS5CbWLmNMxXBjyFoydXjWFR" := TokenMeta("WTRX", 6, "Wrapped TRX")]

  /** `Token (<first 7 characters>...)`. */
  function TokenLabel(contractAddress: string): string {
    "Token (" + Take(contractAddress, 7) + "...)"
  }

  /** The metadata made from a lookup, each missing field defaulted; the fallback without one. */
  function Fetched(contractAddress: string, info: Option<ContractInfo>): (m: TokenMeta)
    ensures info.None? ==> m == TokenMeta(TokenLabel(contractAddress), 6, "Unknown Token")
    ensures m.decimals > 0
    ensures info.Some? && info.value.decimals > 0 ==> m.decimals == info.value.decimals
    ensures info.Some? && info.value.symbol != "" ==> m.symbol == info.value.symbol
  {
    if info.None? then TokenMeta(TokenLabel(contractAddress), 6, "Unknown Token")
    else
      var i := info.value;
      TokenMeta(if i.symbol != "" then i.symbol else TokenLabel(contractAddress),
                if i.decimals != 0 then i.decimals else 6,
                if i.name != "" then i.name else "Unknown Token")
  }

  datatype Lookup = Lookup(meta: TokenMeta, cache: map<string, TokenMeta>)

  /**
   * `getTokenMetadata`: a cached entry wins, then a known token, then the
   * lookup; whatever is returned is cached, and no cached entry is replaced.
   */
  function TokenMetadata(cache: map<string, TokenMeta>, contractAddress: string, info: Option<ContractInfo>): (r: Lookup)
    ensures contractAddress in r.cache && r.cache[contractAddress] == r.meta
    ensures forall k :: k in cache ==> k in r.cache && r.cache[k] == cache[k]
    ensures r.cache.Keys == cache.Keys + {contractAddress}
    ensures contractAddress in cache ==> r.meta == cache[contractAddress]
    ensures contractAddress !in cache && contractAddress in KnownTokens ==> r.meta == KnownTokens[contractAddress]
    ensures contractAddress !in cache && contractAddress !in KnownTokens ==> r.meta == Fetched(contractAddress, info)
  {
    if contractAddress in cache then Lookup(cache[contractAddress], cache)
    else
      var m := if contractAddress in KnownTokens then KnownTokens[contractAddress] else Fetched(contractAddress, info);
      Lookup(m, cache[contractAddress := m])
  }

  // ---------------------------------------------------------------- one transaction

  /** `s.slice(a, b)` for 0 <= a <= b: the characters from `a` to `b`, cut at the end of `s`. */
  function Slice(s: string, a: nat, b: nat): (r: string)
    requires a <= b
    ensures |r| <= b - a
    ensures r == s[Min(a, |s|)..Min(b, |s|)]
    ensures b <= |s| ==> r == s[a..b] && |r| == b - a
  {
    if |s| <= a then "" else if |s| <= b then s[a..] else s[a..b]
  }

  datatype Processed = Processed(notice: Option<Notice>, cache: map<string, TokenMeta>)

  /**
   * `processTransaction`: TRX transfers and TRC-20 `transfer` calls from or
   * to the wallet become a notice; everything else is ignored. Only a TRC-20
   * notice consults (and fills) the metadata cache.
   */
  function ProcessTx(tx: TronTx, wallet: string, fromHex: string -> string,
                     cache: map<string, TokenMeta>, infos: string -> Option<ContractInfo>): (r: Processed)
    ensures r.notice.Some? ==> (r.notice.value.txId == tx.txID && r.notice.value.blockTime == tx.blockTimestamp
                                && r.notice.value.failed == !tx.success)
    ensures r.notice.Some? && r.notice.value.asset.Trx? ==>
      tx.contract.Some? && tx.contract.value.Transfer? && tx.contract.value.transfer.Some?
      && var v := tx.contract.value.transfer.value;
         (fromHex(v.to) == wallet || fromHex(v.owner) == wallet)
         && r.notice.value.incoming == (fromHex(v.to) == wallet)
         && r.notice.value.asset.sun == v.sun
    ensures r.notice.Some? && r.notice.value.asset.Trc20? ==>
      tx.contract.Some? && tx.contract.value.Trigger? && tx.contract.value.trigger.Some?
      && var v := tx.contract.value.trigger.value;
         Take(v.data, 8) == TransferSelector
         && (fromHex("41" + Slice(v.data, 32, 72)) == wallet || fromHex(v.owner) == wallet)
    ensures r.notice.None? || r.notice.value.asset.Trx? ==> r.cache == cache
    ensures forall k :: k in cache ==> k in r.cache && r.cache[k] == cache[k]
    ensures tx.contract.None? || tx.contract.value.OtherContract? ==> r.notice.None?
    ensures tx.contract.Some? && tx.contract.value.Transfer? && tx.contract.value.transfer.Some? ==>
      var v := tx.contract.value.transfer.value;
      var to := fromHex(v.to);
      var from := fromHex(v.owner);
      (to == wallet || from == wallet) ==>
        r.notice.Some? && r.notice.value.asset == Trx(v.sun) && r.notice.value.incoming == (to == wallet)
        && r.notice.value.otherParty == (if to == wallet then from else to)
    ensures tx.contract.Some? && tx.contract.value.Trigger? && tx.contract.value.trigger.Some? ==>
      var v := tx.contract.value.trigger.value;
      var to := fromHex("41" + Slice(v.data, 32, 72));
      var from := fromHex(v.owner);
      var token := fromHex(v.contractAddress);
      Take(v.data, 8) == TransferSelector && (to == wallet || from == wallet) ==>
        var l := TokenMetadata(cache, token, infos(token));
        r.notice.Some? && r.notice.value.asset == Trc20(token, Slice(v.data, 72, 136), l.meta)
        && r.notice.value.incoming == (to == wallet) && r.notice.value.otherParty == (if to == wallet then from else to)
        && r.cache == l.cache
  {
    if tx.contract.None? then Processed(None, cache)
    else match tx.contract.value
      case Transfer(value) =>
        if value.None? then Processed(None, cache)
        else
          var from := fromHex(value.value.owner);
          var to := fromHex(value.value.to);
          var incoming := to == wallet;
          if !incoming && from != wallet then Processed(None, cache)
          else
            Processed(Some(Notice(tx.txID, incoming, if incoming then from else to, tx.blockTimestamp,
                                  !tx.success, Trx(value.value.sun))), cache)
      case Trigger(value) =>
        if value.None? || value.value.data == "" then Processed(None, cache)
        else if Take(value.value.data, 8) != TransferSelector then Processed(None, cache)
        else
          var v := value.value;
          var to := fromHex("41" + Slice(v.data, 32, 72));
          var from := fromHex(v.owner);
          var token := fromHex(v.contractAddress);
          var incoming := to == wallet;
          if !incoming && from != wallet then Processed(None, cache)
          else
            var l := TokenMetadata(cache, token, infos(token));
            Processed(Some(Notice(tx.txID, incoming, if incoming then from else to, tx.blockTimestamp,
                                  !tx.success, Trc20(token, Slice(v.data, 72, 136), l.meta))), l.cache)
      case OtherContract => Processed(None, cache)
  }

  // ---------------------------------------------------------------- one check

  datatype Scanned = Scanned(processed: seq<string>, cache: map<string, TokenMeta>, notices: seq<Notice>)

  /** One pass of the loop body. */
  function Visit(r: Scanned, tx: TronTx, last: int, wallet: string, fromHex: string -> string,
                 infos: string -> Option<ContractInfo>): Scanned
  {
    if tx.txID in r.processed then r
    else if tx.blockTimestamp < last - BufferMs then r
    else
      var p := ProcessTx(tx, wallet, fromHex, r.cache, infos);
      Scanned(r.processed + [tx.txID], p.cache, r.notices + if p.notice.Some? then [p.notice.value] else [])
  }

  /** The state after the loop over `txs`. */
  function Scan(start: Scanned, txs: seq<TronTx>, last: int, wallet: string, fromHex: string -> string,
                infos: string -> Option<ContractInfo>): Scanned
    decreases |txs|
  {
    if txs == [] then start
    else Visit(Scan(start, txs[..|txs| - 1], last, wallet, fromHex, infos), txs[|txs| - 1], last, wallet, fromHex, infos)
  }

  lemma ScanStep(start: Scanned, txs: seq<TronTx>, last: int, wallet: string, fromHex: string -> string,
                 infos: string -> Option<ContractInfo>, i: nat)
    requires i < |txs|
    ensures Scan(start, txs[..i + 1], last, wallet, fromHex, infos)
         == Visit(Scan(start, txs[..i], last, wallet, fromHex, infos), txs[i], last, wallet, fromHex, infos)
  {
    assert txs[..i + 1][..i] == txs[..i];
  }

  /**
   * The loop marks ids without duplicates and never forgets one, keeps every
   * cached token, and reports only transactions that were not processed
   * before and are no older than the buffer allows.
   */
  lemma {:induction false} ScanFacts(start: Scanned, txs: seq<TronTx>, last: int, wallet: string,
                                     fromHex: string -> string, infos: string -> Option<ContractInfo>)
    requires NoDup(start.processed)
    ensures var r := Scan(start, txs, last, wallet, fromHex, infos);
      NoDup(r.processed) && |start.processed| <= |r.processed| && r.processed[..|start.processed|] == start.processed
      && (forall k :: k in start.cache ==> k in r.cache && r.cache[k] == start.cache[k])
      && |start.notices| <= |r.notices| && r.notices[..|start.notices|] == start.notices
      && (forall i :: |start.notices| <= i < |r.notices| ==>
            r.notices[i].txId !in start.processed && r.notices[i].txId in r.processed
            && r.notices[i].blockTime >= last - BufferMs)
    decreases |txs|
  {
    if txs != [] {
      var init := txs[..|txs| - 1];
      ScanFacts(start, init, last, wallet, fromHex, infos);
      var r := Scan(start, init, last, wallet, fromHex, infos);
      var tx := txs[|txs| - 1];
      if tx.txID !in r.processed && tx.blockTimestamp >= last - BufferMs {
        assert (r.processed + [tx.txID])[..|start.processed|] == start.processed;
        var p := ProcessTx(tx, wallet, fromHex, r.cache, infos);
        var ns := r.notices + if p.notice.Some? then [p.notice.value] else [];
        assert ns[..|start.notices|] == start.notices;
        assert tx.txID !in start.processed;
      }
    }
  }

  /** The newest block timestamp seen: `max(last, ...timestamps)` when any were listed. */
  function LastChecked(last: int, txs: seq<TronTx>): (r: int)
    ensures r >= last
    ensures forall i :: 0 <= i < |txs| ==> r >= txs[i].blockTimestamp
    ensures r == last || exists i :: 0 <= i < |txs| && r == txs[i].blockTimestamp
    decreases |txs|
  {
    if txs == [] then last
    else Max(LastChecked(last, txs[..|txs| - 1]), txs[|txs| - 1].blockTimestamp)
  }

  /** The monitor's fields that a check reads and writes. */
  datatype State = State(processed: seq<string>, last: int, interval: int, balance: Option<int>,
                         cache: map<string, TokenMeta>)

  /** The `catch` of `checkTransactions`: only an HTTP 429 has an effect, a slower poll. */
  function Caught(s: State, f: Failure): (r: State)
    ensures f == HttpStatus(429) ==> r == s.(interval := RateLimitedMs)
    ensures f != HttpStatus(429) ==> r == s
  {
    if f == HttpStatus(429) then s.(interval := RateLimitedMs) else s
  }

  datatype Check = Check(state: State, notices: seq<Notice>)

  /**
   * `checkTransactions`: read the balance, list the transactions, run the
   * loop, move the timestamp, trim the set. A throw at either call ends the
   * check in the `catch`; a listing without data ends it quietly after the
   * balance has been recorded.
   */
  function Checked(s: State, balance: Result<int, Failure>, listing: Result<Option<seq<TronTx>>, Failure>,
                   wallet: string, fromHex: string -> string, infos: string -> Option<ContractInfo>): Check
  {
    if balance.Err? then Check(Caught(s, balance.error), [])
    else
      var s1 := s.(balance := Some(balance.value));
      if listing.Err? then Check(Caught(s1, listing.error), [])
      else if listing.value.None? then Check(s1, [])
      else
        var txs := listing.value.value;
        var r := Scan(Scanned(s.processed, s.cache, []), txs, s.last, wallet, fromHex, infos);
        Check(s1.(processed := Newest(r.processed, Cap), cache := r.cache, last := LastChecked(s.last, txs)), r.notices)
  }

  /**
   * Across a check: the timestamp never decreases, the set stays free of
   * duplicates and within `Cap` once the loop has run, cached tokens are
   * kept, and every notice is for a transaction not processed before and no
   * older than the timestamp minus the 30-second buffer.
   */
  lemma CheckFacts(s: State, balance: Result<int, Failure>, listing: Result<Option<seq<TronTx>>, Failure>,
                   wallet: string, fromHex: string -> string, infos: string -> Option<ContractInfo>)
    requires NoDup(s.processed)
    ensures var c := Checked(s, balance, listing, wallet, fromHex, infos);
      c.state.last >= s.last && NoDup(c.state.processed)
      && (forall k :: k in s.cache ==> k in c.state.cache && c.state.cache[k] == s.cache[k])
      && (forall n :: n in c.notices ==> n.txId !in s.processed && n.blockTime >= s.last - BufferMs)
      && (balance.Ok? && listing.Ok? && listing.value.Some? ==> |c.state.processed| <= Cap)
  {
    if balance.Ok? && listing.Ok? && listing.value.Some? {
      var start := Scanned(s.processed, s.cache, []);
      ScanFacts(start, listing.value.value, s.last, wallet, fromHex, infos);
      var r := Scan(start, listing.value.value, s.last, wallet, fromHex, infos);
      forall n | n in r.notices ensures n.txId !in s.processed && n.blockTime >= s.last - BufferMs {
        var i :| 0 <= i < |r.notices| && r.notices[i] == n;
      }
    }
  }

  /**
   * The converse of `CheckFacts`: a check loses no transaction. A listed
   * transaction that was not processed before, is no older than the
   * timestamp minus the buffer and concerns the wallet is reported, provided
   * its id names only that transaction in the listing.
   */
  lemma CheckReportsEveryRecent(s: State, balance: Result<int, Failure>, listing: Result<Option<seq<TronTx>>, Failure>,
                                wallet: string, fromHex: string -> string, infos: string -> Option<ContractInfo>, t: TronTx)
    requires balance.Ok? && listing.Ok? && listing.value.Some? && t in listing.value.value
    requires forall u :: u in listing.value.value && u.txID == t.txID ==> u == t
    requires t.txID !in s.processed && t.blockTimestamp >= s.last - BufferMs
    requires ProcessTx(t, wallet, fromHex, s.cache, infos).notice.Some?
    ensures exists n :: n in Checked(s, balance, listing, wallet, fromHex, infos).notices && n.txId == t.txID
  {
    ScanReportsRecent(Scanned(s.processed, s.cache, []), listing.value.value, s.last, wallet, fromHex, infos, t);
  }

  /** The loop reports every recent, unprocessed transaction it meets that concerns the wallet. */
  lemma {:induction false} ScanReportsRecent(start: Scanned, txs: seq<TronTx>, last: int, wallet: string,
                                             fromHex: string -> string, infos: string -> Option<ContractInfo>, t: TronTx)
    requires t in txs && t.txID !in start.processed && t.blockTimestamp >= last - BufferMs
    requires forall u :: u in txs && u.txID == t.txID ==> u == t
    requires ProcessTx(t, wallet, fromHex, start.cache, infos).notice.Some?
    ensures exists n :: n in Scan(start, txs, last, wallet, fromHex, infos).notices && n.txId == t.txID
    decreases |txs|
  {
    var init := txs[..|txs| - 1];
    var r := Scan(start, init, last, wallet, fromHex, infos);
    assert txs == init + [txs[|txs| - 1]];
    if t in init {
      ScanReportsRecent(start, init, last, wallet, fromHex, infos, t);
      var n :| n in r.notices && n.txId == t.txID;
      assert n in Scan(start, txs, last, wallet, fromHex, infos).notices;
    } else {
      ScanMarksListed(start, init, last, wallet, fromHex, infos);
      assert t.txID !in r.processed;
      NoticeIgnoresCache(t, wallet, fromHex, start.cache, r.cache, infos);
      var p := ProcessTx(t, wallet, fromHex, r.cache, infos);
      assert p.notice.value in Scan(start, txs, last, wallet, fromHex, infos).notices;
    }
  }

  /** The loop marks only ids it has met. */
  lemma {:induction false} ScanMarksListed(start: Scanned, txs: seq<TronTx>, last: int, wallet: string,
                                           fromHex: string -> string, infos: string -> Option<ContractInfo>)
    ensures forall id :: id in Scan(start, txs, last, wallet, fromHex, infos).processed ==>
      id in start.processed || exists u :: u in txs && u.txID == id
    decreases |txs|
  {
    if txs != [] {
      var init := txs[..|txs| - 1];
      ScanMarksListed(start, init, last, wallet, fromHex, infos);
      assert forall u :: u in init ==> u in txs;
    }
  }

  /** Whether a transaction yields a notice does not depend on the token cache. */
  lemma NoticeIgnoresCache(tx: TronTx, wallet: string, fromHex: string -> string, c1: map<string, TokenMeta>,
                           c2: map<string, TokenMeta>, infos: string -> Option<ContractInfo>)
    ensures ProcessTx(tx, wallet, fromHex, c1, infos).notice.Some? == ProcessTx(tx, wallet, fromHex, c2, infos).notice.Some?
  {
  }

  lemma CheckKeepsNoDup(s: State, balance: Result<int, Failure>, listing: Result<Option<seq<TronTx>>, Failure>,
                        wallet: string, fromHex: string -> string, infos: string -> Option<ContractInfo>)
    requires NoDup(s.processed)
    ensures NoDup(Checked(s, balance, listing, wallet, fromHex, infos).state.processed)
  {
    CheckFacts(s, balance, listing, wallet, fromHex, infos);
  }

  /** The monitor object. */
  class TronMonitor {
    const wallet: string
    var processed: seq<string>
    var lastChecked: int
    var checkInterval: int
    var isRunning: bool
    var lastBalance: Option<int>
    var tokenCache: map<string, TokenMeta>

    function StateOf(): State
      reads this
    {
      State(processed, lastChecked, checkInterval, lastBalance, tokenCache)
    }

    ghost predicate Valid()
      reads this
    {
      NoDup(processed)
    }

    /** The constructor; `now` is the clock at construction. */
    constructor (wallet: string, now: int)
      ensures Valid() && this.wallet == wallet && StateOf() == State([], now, PollMs, None, map[]) && !isRunning
    {
      this.wallet := wallet;
      processed := [];
      lastChecked := now;
      checkInterval := PollMs;
      isRunning := false;
      lastBalance := None;
      tokenCache := map[];
    }

    /** `getTokenMetadata`. */
    method GetTokenMetadata(contractAddress: string, info: Option<ContractInfo>) returns (meta: TokenMeta)
      modifies this
      ensures Lookup(meta, tokenCache) == TokenMetadata(old(tokenCache), contractAddress, info)
      ensures processed == old(processed) && lastChecked == old(lastChecked) && checkInterval == old(checkInterval)
      ensures lastBalance == old(lastBalance) && isRunning == old(isRunning)
    {
      if contractAddress in tokenCache {
        return tokenCache[contractAddress];
      }
      if contractAddress in KnownTokens {
        tokenCache := tokenCache[contractAddress := KnownTokens[contractAddress]];
        return KnownTokens[contractAddress];
      }
      meta := Fetched(contractAddress, info);
      tokenCache := tokenCache[contractAddress := meta];
    }

    /** `processTransaction`. */
    method ProcessTransaction(tx: TronTx, fromHex: string -> string, infos: string -> Option<ContractInfo>) returns (notice: Option<Notice>)
      modifies this
      ensures Processed(notice, tokenCache) == ProcessTx(tx, wallet, fromHex, old(tokenCache), infos)
      ensures processed == old(processed) && lastChecked == old(lastChecked) && checkInterval == old(checkInterval)
      ensures lastBalance == old(lastBalance) && isRunning == old(isRunning)
    {
      notice := None;
      if tx.contract.None? {
        return;
      }
      match tx.contract.value {
        case Transfer(value) =>
          if value.None? {
            return;
          }
          var from := fromHex(value.value.owner);
          var to := fromHex(value.value.to);
          var incoming := to == wallet;
          var outgoing := from == wallet;
          if !incoming && !outgoing {
            return;
          }
          notice := Some(Notice(tx.txID, incoming, if incoming then from else to, tx.blockTimestamp,
                                !tx.success, Trx(value.value.sun)));
        case Trigger(value) =>
          if value.None? || value.value.data == "" {
            return;
          }
          if Take(value.value.data, 8) != TransferSelector {
            return;
          }
          var to := fromHex("41" + Slice(value.value.data, 32, 72));
          var from := fromHex(value.value.owner);
          var token := fromHex(value.value.contractAddress);
          var incoming := to == wallet;
          var outgoing := from == wallet;
          if !incoming && !outgoing {
            return;
          }
          var meta := GetTokenMetadata(token, infos(token));
          notice := Some(Notice(tx.txID, incoming, if incoming then from else to, tx.blockTimestamp,
                                !tx.success, Trc20(token, Slice(value.value.data, 72, 136), meta)));
        case OtherContract =>
      }
    }

    /** The loop of `checkTransactions` over the listed transactions. */
    method ScanTransactions(txs: seq<TronTx>, fromHex: string -> string, infos: string -> Option<ContractInfo>) returns (notices: seq<Notice>)
      modifies this
      ensures Scanned(processed, tokenCache, notices)
           == Scan(Scanned(old(processed), old(tokenCache), []), txs, lastChecked, wallet, fromHex, infos)
      ensures lastChecked == old(lastChecked) && checkInterval == old(checkInterval)
      ensures lastBalance == old(lastBalance) && isRunning == old(isRunning)
    {
      ghost var start := Scanned(processed, tokenCache, []);
      notices := [];
      for i := 0 to |txs|
        invariant Scanned(processed, tokenCache, notices) == Scan(start, txs[..i], lastChecked, wallet, fromHex, infos)
        invariant lastChecked == old(lastChecked) && checkInterval == old(checkInterval)
        invariant lastBalance == old(lastBalance) && isRunning == old(isRunning)
      {
        ScanStep(start, txs, lastChecked, wallet, fromHex, infos, i);
        var tx := txs[i];
        if tx.txID !in processed && tx.blockTimestamp >= lastChecked - BufferMs {
          processed := processed + [tx.txID];
          var n := ProcessTransaction(tx, fromHex, infos);
          if n.Some? {
            notices := notices + [n.value];
          }
        }
      }
      assert txs[..|txs|] == txs;
    }

    /** `Math.max(last, ...txs.map(tx => tx.block_timestamp))`. */
    static method Newest(last: int, txs: seq<TronTx>) returns (newest: int)
      ensures newest == LastChecked(last, txs)
    {
      newest := last;
      for i := 0 to |txs|
        invariant newest == LastChecked(last, txs[..i])
      {
        assert txs[..i + 1][..i] == txs[..i];
        newest := Max(newest, txs[i].blockTimestamp);
      }
      assert txs[..|txs|] == txs;
    }

    /** `checkTransactions`. */
    method CheckTransactions(balance: Result<int, Failure>, listing: Result<Option<seq<TronTx>>, Failure>,
                             fromHex: string -> string, infos: string -> Option<ContractInfo>) returns (notices: seq<Notice>)
      requires Valid()
      modifies this
      ensures Valid() && isRunning == old(isRunning)
      ensures Check(StateOf(), notices) == Checked(old(StateOf()), balance, listing, wallet, fromHex, infos)
    {
      CheckKeepsNoDup(StateOf(), balance, listing, wallet, fromHex, infos);
      notices := [];
      if balance.Err? {
        if balance.error == HttpStatus(429) {
          checkInterval := RateLimitedMs;
        }
        return;
      }
      lastBalance := Some(balance.value);
      if listing.Err? {
        if listing.error == HttpStatus(429) {
          checkInterval := RateLimitedMs;
        }
        return;
      }
      if listing.value.None? {
        return;
      }
      var txs := listing.value.value;
      notices := ScanTransactions(txs, fromHex, infos);
      if |txs| > 0 {
        lastChecked := Newest(lastChecked, txs);
      }
      if |processed| > Cap {
        processed := processed[|processed| - Cap..];
      }
    }

    /**
     * `pollTransactions` with the clock read before and after the check: no
     * check and no reschedule once stopped, else the delay to the next poll.
     */
    method PollTransactions(startTime: int, endTime: int, balance: Result<int, Failure>,
                            listing: Result<Option<seq<TronTx>>, Failure>,
                            fromHex: string -> string, infos: string -> Option<ContractInfo>)
      returns (next: Option<int>, notices: seq<Notice>)
      requires Valid()
      modifies this
      ensures Valid() && isRunning == old(isRunning)
      ensures !old(isRunning) ==> next.None? && notices == [] && StateOf() == old(StateOf())
      ensures old(isRunning) ==> (Check(StateOf(), notices) == Checked(old(StateOf()), balance, listing, wallet, fromHex, infos)
                                  && next == Some(NextPoll(checkInterval, endTime - startTime)))
    {
      if !isRunning {
        return None, [];
      }
      notices := CheckTransactions(balance, listing, fromHex, infos);
      next := Some(Max(0, checkInterval - (endTime - startTime)));
    }

    /** `start`: nothing for an invalid address; else the initial balance, a first check, and polling on. */
    method Start(validAddress: bool, initialBalance: Result<int, Failure>, balance: Result<int, Failure>,
                 listing: Result<Option<seq<TronTx>>, Failure>,
                 fromHex: string -> string, infos: string -> Option<ContractInfo>) returns (notices: seq<Notice>)
      requires Valid()
      modifies this
      ensures Valid()
      ensures !validAddress ==> notices == [] && StateOf() == old(StateOf()) && isRunning == old(isRunning)
      ensures validAddress ==> isRunning
      ensures validAddress ==>
        var s := if initialBalance.Ok? then old(StateOf()).(balance := Some(initialBalance.value)) else old(StateOf());
        Check(StateOf(), notices) == Checked(s, balance, listing, wallet, fromHex, infos)
    {
      if !validAddress {
        return [];
      }
      if initialBalance.Ok? {
        lastBalance := Some(initialBalance.value);
      }
      notices := CheckTransactions(balance, listing, fromHex, infos);
      isRunning := true;
    }

    /** `stop`. */
    method Stop()
      modifies this
      ensures !isRunning && StateOf() == old(StateOf())
    {
      isRunning := false;
    }
  }
}
