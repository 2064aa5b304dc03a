/**
 * The poll loop of backend/server.js: per-chain address selectors over the
 * running-bot configurations, the interval settings, one tick of a chain's
 * poller (every running bot's address refreshed in registry order, a failure
 * contained, one pause after each address) and the gate of the full-resync
 * schedule. The timers themselves are not modelled: a tick is one call.
 */
module Server {
  import opened Base
  import opened Text
  import opened Canonical
  import RunningBots
  import WalletService

  // Interval defaults in milliseconds, and the resync period in minutes.
  const EthIntervalMs: nat := 6000
  const BnbIntervalMs: nat := 2000
  const TronIntervalMs: nat := 2000
  const BtcIntervalMs: nat := 20000
  const LtcIntervalMs: nat := 10000
  const ChainDelayMs: nat := 400
  const ResyncMinutes: nat := 30

  /**
   * `parseInt(setting, 10) || fallback`: `setting` is the parsed value, `None`
   * for an unset or unparsable variable (NaN); NaN and 0 fall back.
   */
  function Setting(setting: Option<int>, fallback: nat): (r: int)
    ensures setting.None? ==> r == fallback
    ensures setting.Some? && setting.value != 0 ==> r == setting.value
    ensures r == 0 ==> fallback == 0
  {
    if setting.Some? && setting.value != 0 then setting.value else fallback
  }

  /**
   * The full resync: scheduled every `r.value` minutes when the setting is
   * positive, not scheduled otherwise; unset means every 30 minutes.
   */
  function ResyncSchedule(setting: Option<int>): (r: Option<nat>)
    ensures r.Some? <==> Setting(setting, ResyncMinutes) > 0
    ensures r.Some? ==> r.value == Setting(setting, ResyncMinutes) && r.value > 0
    ensures setting.None? ==> r == Some(ResyncMinutes)
  {
    var minutes := Setting(setting, ResyncMinutes);
    if minutes > 0 then Some(minutes) else None
  }

  /** A negative setting is the only way to switch the resync off. */
  lemma ResyncOffOnlyWhenNegative(setting: Option<int>)
    ensures ResyncSchedule(setting).None? <==> setting.Some? && setting.value < 0
  {
  }

  /** The chains with a poll timer; Solana is driven by its subscriptions instead. */
  datatype Poller = EthPoller | BnbPoller | TronPoller | BtcPoller | LtcPoller

  /** The chain code each poller hands to `refreshWallet`. */
  function Code(p: Poller): string {
    match p
    case EthPoller => "ETH"
    case BnbPoller => "BNB"
    case TronPoller => "TRON"
    case BtcPoller => "BTC"
    case LtcPoller => "LTC"
  }

  /** The interval each poller uses, given its parsed setting. */
  function Interval(p: Poller, setting: Option<int>): int {
    match p
    case EthPoller => Setting(setting, EthIntervalMs)
    case BnbPoller => Setting(setting, BnbIntervalMs)
    case TronPoller => Setting(setting, TronIntervalMs)
    case BtcPoller => Setting(setting, BtcIntervalMs)
    case LtcPoller => Setting(setting, LtcIntervalMs)
  }

  /** Each poller's code selects its own chain, and no poller refreshes Solana. */
  lemma PollerChains(p: Poller)
    ensures WalletService.RefreshChain(Code(p)) == match p
      case EthPoller => Ethereum
      case BnbPoller => Bnb
      case TronPoller => Tron
      case BtcPoller => Bitcoin
      case LtcPoller => Litecoin
    ensures WalletService.RefreshChain(Code(p)) != Solana
  {
    assert ToUpper("ETH") == "ETH";
    assert ToUpper("BNB") == "BNB";
    assert ToUpper("TRON") == "TRON";
    assert ToUpper("BTC") == "BTC";
    assert ToUpper("LTC") == "LTC";
  }

  /** `getBotEthereumAddress`: the trimmed `walletEthereum || walletAddress`, when not blank. */
  function EthereumAddress(c: RunningBots.Config): (r: Option<string>)
    ensures r.Some? <==> Trim(RunningBots.Or(c.walletEthereum, c.walletAddress)) != ""
    ensures r.Some? ==> r.value == Trim(RunningBots.Or(c.walletEthereum, c.walletAddress))
  {
    var raw := RunningBots.Or(c.walletEthereum, c.walletAddress);
    if Trim(raw) != "" then Some(Trim(raw)) else None
  }

  /** `getBotBnbAddress`: the trimmed address, when not blank and the raw value starts with `0x`. */
  function BnbAddress(c: RunningBots.Config): (r: Option<string>)
    ensures r.Some? <==> Trim(c.walletBnb) != "" && StartsWith(c.walletBnb, "0x")
    ensures r.Some? ==> r.value == Trim(c.walletBnb)
  {
    if Trim(c.walletBnb) != "" && StartsWith(c.walletBnb, "0x") then Some(Trim(c.walletBnb)) else None
  }

  /** The rule of the Tron, Bitcoin, Litecoin and Solana selectors: the trimmed address, when at least `min` long. */
  function LongEnough(raw: string, min: nat): (r: Option<string>)
    requires min > 0
    ensures r.Some? <==> |Trim(raw)| >= min
    ensures r.Some? ==> r.value == Trim(raw)
  {
    var t := Trim(raw);
    if t != "" && |t| >= min then Some(t) else None
  }

  /** The address a poller refreshes for one running bot, if any. */
  function Selector(p: Poller, c: RunningBots.Config): (r: Option<string>)
    ensures r.Some? ==> r.value != ""
  {
    match p
    case EthPoller => EthereumAddress(c)
    case BnbPoller => BnbAddress(c)
    case TronPoller => LongEnough(c.walletTron, 34)
    case BtcPoller => LongEnough(c.walletBitcoin, 25)
    case LtcPoller => LongEnough(c.walletLitecoin, 25)
  }

  /** `getBotSolAddress`: used by the bot routes, not by any poller. */
  function SolanaAddress(c: RunningBots.Config): (r: Option<string>)
    ensures r.Some? <==> |Trim(c.walletSolana)| >= 32
  {
    LongEnough(c.walletSolana, 32)
  }

  /** The addresses one tick refreshes: the selected address of each configuration, in order. */
  function Targets(p: Poller, configs: seq<RunningBots.Config>): (r: seq<string>)
    ensures |r| <= |configs|
  {
    if configs == [] then []
    else
      var last := configs[|configs| - 1];
      Targets(p, configs[..|configs| - 1]) + (if Selector(p, last).Some? then [Selector(p, last).value] else [])
  }

  /** A configuration contributes an address exactly when its selector gives one, and in registry order. */
  lemma {:induction false} TargetsSelected(p: Poller, configs: seq<RunningBots.Config>, a: string)
    ensures a in Targets(p, configs) <==> exists i :: 0 <= i < |configs| && Selector(p, configs[i]) == Some(a)
  {
    if configs != [] {
      var init := configs[..|configs| - 1];
      var last := configs[|configs| - 1];
      TargetsSelected(p, init, a);
      assert Targets(p, configs) == Targets(p, init) + (if Selector(p, last).Some? then [Selector(p, last).value] else []);
      if a in Targets(p, configs) {
        if a in Targets(p, init) {
          var i :| 0 <= i < |init| && Selector(p, init[i]) == Some(a);
          assert configs[i] == init[i];
        } else {
          assert Selector(p, configs[|configs| - 1]) == Some(a);
        }
      }
      if exists i :: 0 <= i < |configs| && Selector(p, configs[i]) == Some(a) {
        var i :| 0 <= i < |configs| && Selector(p, configs[i]) == Some(a);
        if i < |init| {
          assert init[i] == configs[i];
        }
      }
    }
  }

  /** What a tick has done after some addresses: the results, the alerts handed off, and the collections. */
  datatype TickRun = TickRun(results: seq<Result<WalletService.Refreshed, WalletService.RefreshError>>,
                             alerts: seq<WalletService.Alert>, store: WalletService.Store)

  /**
   * The refreshes of a tick over `addresses`, one after another, each forced
   * and not silent, each from the collections the previous one left; a
   * failure is just a result and the next address is refreshed all the same.
   */
  function Ticked(chain: Chain, addresses: seq<string>, fetch: (string, Option<int>) -> Result<WalletService.ChainFetch, string>,
                  webhooks: map<RunningBots.WalletKey, string>, now: int, later: int, st: WalletService.Store): (t: TickRun)
    ensures |t.results| == |addresses| && |t.alerts| <= |addresses|
  {
    if addresses == [] then TickRun([], [], st)
    else
      var prev := Ticked(chain, addresses[..|addresses| - 1], fetch, webhooks, now, later, st);
      var run := WalletService.RefreshSpec(chain, addresses[|addresses| - 1], true, false, fetch, map[], map[], webhooks, now, later, prev.store);
      TickRun(prev.results + [run.result], prev.alerts + (if run.alert.Some? then [run.alert.value] else []), run.store)
  }

  /** Unfolds `Ticked` at one more address. */
  lemma TickStep(chain: Chain, addresses: seq<string>, i: nat, fetch: (string, Option<int>) -> Result<WalletService.ChainFetch, string>,
                 webhooks: map<RunningBots.WalletKey, string>, now: int, later: int, st: WalletService.Store)
    requires i < |addresses|
    ensures var prev := Ticked(chain, addresses[..i], fetch, webhooks, now, later, st);
      var run := WalletService.RefreshSpec(chain, addresses[i], true, false, fetch, map[], map[], webhooks, now, later, prev.store);
      Ticked(chain, addresses[..i + 1], fetch, webhooks, now, later, st)
        == TickRun(prev.results + [run.result], prev.alerts + (if run.alert.Some? then [run.alert.value] else []), run.store)
  {
    assert addresses[..i + 1][..i] == addresses[..i];
  }

  /** A failed refresh leaves the collections as they were, so the rest of the tick starts from the same state. */
  lemma FailureContained(chain: Chain, addresses: seq<string>, i: nat,
                         fetch: (string, Option<int>) -> Result<WalletService.ChainFetch, string>,
                         webhooks: map<RunningBots.WalletKey, string>, now: int, later: int, st: WalletService.Store)
    requires i < |addresses|
    requires WalletService.NormalizeAddress(chain, addresses[i]).Err?
    ensures var t := Ticked(chain, addresses[..i + 1], fetch, webhooks, now, later, st);
      t.results[i].Err? && t.store == Ticked(chain, addresses[..i], fetch, webhooks, now, later, st).store
      && t.alerts == Ticked(chain, addresses[..i], fetch, webhooks, now, later, st).alerts
  {
    TickStep(chain, addresses, i, fetch, webhooks, now, later, st);
  }

  /** Unfolds `Targets` at one more configuration. */
  lemma TargetsStep(p: Poller, configs: seq<RunningBots.Config>, i: nat)
    requires i < |configs|
    ensures Targets(p, configs[..i + 1])
      == Targets(p, configs[..i]) + (if Selector(p, configs[i]).Some? then [Selector(p, configs[i]).value] else [])
  {
    assert configs[..i + 1][..i] == configs[..i];
  }

  /**
   * One tick of poller `p`: reads the running configurations once, and for
   * each one whose selector gives an address refreshes it (forced), catches
   * its failure, and pauses once. `pauses` counts the `delay(CHAIN_DELAY_MS)` calls.
   */
  method Tick(p: Poller, registry: RunningBots.Registry, storage: WalletService.Storage,
              fetch: (string, Option<int>) -> Result<WalletService.ChainFetch, string>, now: int, later: int)
    returns (refreshed: seq<string>, pauses: nat, run: TickRun)
    requires registry.Valid()
    modifies storage
    ensures refreshed == Targets(p, registry.Configs()) && pauses == |refreshed|
    ensures run == Ticked(WalletService.RefreshChain(Code(p)), refreshed, fetch, registry.webhooks, now, later,
      WalletService.Store(old(storage.wallets), old(storage.rows)))
    ensures WalletService.Store(storage.wallets, storage.rows) == run.store
  {
    var running := registry.Configs();
    var chain := WalletService.RefreshChain(Code(p));
    var webhooks := registry.webhooks;
    var st := WalletService.Store(storage.wallets, storage.rows);
    refreshed := [];
    pauses := 0;
    run := TickRun([], [], st);
    if |running| == 0 {
      return;
    }
    var i := 0;
    while i < |running|
      invariant 0 <= i <= |running|
      invariant refreshed == Targets(p, running[..i]) && pauses == |refreshed|
      invariant run == Ticked(chain, refreshed, fetch, webhooks, now, later, st)
      invariant run.store == WalletService.Store(storage.wallets, storage.rows)
    {
      refreshed, pauses, run := TickOne(p, running, i, chain, storage, fetch, webhooks, now, later, st, refreshed, pauses, run);
      i := i + 1;
    }
    assert running[..i] == running;
  }

  /** One pass of the tick's loop: the configuration at `i`, refreshed and paused after when it gives an address. */
  method TickOne(p: Poller, running: seq<RunningBots.Config>, i: nat, chain: Chain, storage: WalletService.Storage,
                 fetch: (string, Option<int>) -> Result<WalletService.ChainFetch, string>,
                 webhooks: map<RunningBots.WalletKey, string>, now: int, later: int, ghost st: WalletService.Store,
                 refreshed: seq<string>, pauses: nat, run: TickRun)
    returns (refreshed': seq<string>, pauses': nat, run': TickRun)
    requires i < |running|
    requires refreshed == Targets(p, running[..i]) && pauses == |refreshed|
    requires run == Ticked(chain, refreshed, fetch, webhooks, now, later, st)
    requires run.store == WalletService.Store(storage.wallets, storage.rows)
    modifies storage
    ensures refreshed' == Targets(p, running[..i + 1]) && pauses' == |refreshed'|
    ensures run' == Ticked(chain, refreshed', fetch, webhooks, now, later, st)
    ensures run'.store == WalletService.Store(storage.wallets, storage.rows)
  {
    TargetsStep(p, running, i);
    refreshed', pauses', run' := refreshed, pauses, run;
    var address := Selector(p, running[i]);
    if address.Some? {
      run' := RefreshTarget(chain, address.value, storage, fetch, webhooks, now, later, refreshed, st, run);
      refreshed' := refreshed + [address.value];
      pauses' := pauses + 1;
    }
  }

  /** The guarded `refreshWallet` call of a tick: its result, caught, extends the run. */
  method RefreshTarget(chain: Chain, address: string, storage: WalletService.Storage,
                       fetch: (string, Option<int>) -> Result<WalletService.ChainFetch, string>,
                       webhooks: map<RunningBots.WalletKey, string>, now: int, later: int,
                       ghost done: seq<string>, ghost st: WalletService.Store, run: TickRun)
    returns (next: TickRun)
    requires run == Ticked(chain, done, fetch, webhooks, now, later, st)
    requires run.store == WalletService.Store(storage.wallets, storage.rows)
    modifies storage
    ensures next == Ticked(chain, done + [address], fetch, webhooks, now, later, st)
    ensures next.store == WalletService.Store(storage.wallets, storage.rows)
  {
    var r, alert := storage.Refresh(chain, address, true, false, fetch, map[], map[], webhooks, now, later);
    TickStep(chain, done + [address], |done|, fetch, webhooks, now, later, st);
    assert (done + [address])[..|done|] == done;
    assert (done + [address])[..|done| + 1] == done + [address];
    next := TickRun(run.results + [r], run.alerts + (if alert.Some? then [alert.value] else []),
      WalletService.Store(storage.wallets, storage.rows));
  }
}
