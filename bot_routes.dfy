/**
 * The bot lifecycle routes of backend/routes/botRoutes.js: the address helpers,
 * the wallet refreshes a create or an edit triggers, and what create, edit,
 * delete, run and stop do to the bot collection, the running-bot registry and
 * the Solana subscriptions.
 *
 * The second half models the Solana reference count the routes maintain
 * against the bots that are running: as written, stop releases nothing while
 * delete and edit always release, so the count drifts from the running bots;
 * the corrected routes release and acquire exactly on a change of
 * `isRunning`, and keep the count equal to the number of running bots that
 * watch each address.
 */
module BotRoutes {
  import opened Base
  import opened Text
  import opened Canonical
  import RunningBots
  import SubscriptionManager

  type Bot = RunningBots.Bot

  // ---------------------------------------------------------------- address helpers

  /** `normalizeEthereum`: the trimmed, lower-cased address when it starts with `0x` and has 40 characters or more. */
  function NormalizeEthereum(addr: string): (r: Option<string>)
    ensures r.Some? <==> StartsWith(ToLower(Trim(addr)), "0x") && |Trim(addr)| >= 40
    ensures r.Some? ==> r.value == ToLower(Trim(addr))
  {
    var s := ToLower(Trim(addr));
    if StartsWith(s, "0x") && |s| >= 40 then Some(s) else None
  }

  /** Lower-casing keeps a string's ends free of white space. */
  lemma ToLowerKeepsEnds(s: string)
    requires s == [] || (!IsSpace(s[0]) && !IsSpace(s[|s| - 1]))
    ensures Trim(ToLower(s)) == ToLower(s)
  {
    TrimFixed(ToLower(s));
  }

  /** A normalised address normalises to itself. */
  lemma NormalizeEthereumIdempotent(addr: string)
    requires NormalizeEthereum(addr).Some?
    ensures NormalizeEthereum(NormalizeEthereum(addr).value) == NormalizeEthereum(addr)
  {
    var t := Trim(addr);
    TrimEnds(addr);
    ToLowerKeepsEnds(t);
    ToLowerIdempotent(t);
  }

  /** `trimAddr`: the trimmed address, or nothing when it is blank. */
  function TrimAddr(addr: string): (r: Option<string>)
    ensures r.Some? <==> Trim(addr) != ""
    ensures r.Some? ==> r.value == Trim(addr)
  {
    if Trim(addr) != "" then Some(Trim(addr)) else None
  }

  /**
   * The shape of `getEthereumAddress` and `getBnbAddress`: the normalised
   * address when valid, else the raw value trimmed (which may be blank),
   * nothing for an empty raw value.
   */
  function EvmAddress(raw: string): (r: Option<string>)
    ensures r.Some? <==> raw != ""
    ensures NormalizeEthereum(raw).Some? ==> r == NormalizeEthereum(raw)
    ensures raw != "" && NormalizeEthereum(raw).None? ==> r == Some(Trim(raw))
  {
    match NormalizeEthereum(raw)
    case Some(s) => Some(s)
    case None => if raw != "" then Some(Trim(raw)) else None
  }

  /** `getEthereumAddress`: from `walletEthereum`, else the legacy `walletAddress`. */
  function EthereumAddress(bot: Bot): Option<string> {
    EvmAddress(RunningBots.Or(bot.walletEthereum, bot.walletAddress))
  }

  /** `getBnbAddress`. */
  function BnbAddress(bot: Bot): Option<string> {
    EvmAddress(bot.walletBnb)
  }

  /** One `addOrUpdateWallet*` call a route makes; `caught` when its failure is swallowed. */
  datatype WalletRefresh = WalletRefresh(chain: Chain, address: string, caught: bool)

  function RefreshIf(chain: Chain, a: Option<string>, caught: bool): seq<WalletRefresh> {
    if a.Some? && a.value != "" then [WalletRefresh(chain, a.value, caught)] else []
  }

  /**
   * The wallet refreshes create and edit make after saving, in order: the
   * Ethereum one (whose failure fails the request), then BNB, Tron, Bitcoin,
   * Litecoin and Solana (whose failures are ignored).
   */
  function WalletRefreshes(bot: Bot): (rs: seq<WalletRefresh>)
    ensures |rs| <= 6
    ensures CaughtUnlessEthereum(rs)
  {
    var r0 := RefreshIf(Ethereum, EthereumAddress(bot), false);
    var r1 := r0 + RefreshIf(Bnb, BnbAddress(bot), true);
    AppendCaught(r0, Bnb, BnbAddress(bot), true);
    var r2 := r1 + RefreshIf(Tron, TrimAddr(bot.walletTron), true);
    AppendCaught(r1, Tron, TrimAddr(bot.walletTron), true);
    var r3 := r2 + RefreshIf(Bitcoin, TrimAddr(bot.walletBitcoin), true);
    AppendCaught(r2, Bitcoin, TrimAddr(bot.walletBitcoin), true);
    var r4 := r3 + RefreshIf(Litecoin, TrimAddr(bot.walletLitecoin), true);
    AppendCaught(r3, Litecoin, TrimAddr(bot.walletLitecoin), true);
    var r5 := r4 + RefreshIf(Solana, TrimAddr(bot.walletSolana), true);
    AppendCaught(r4, Solana, TrimAddr(bot.walletSolana), true);
    r5
  }

  /** Every refresh has an address, and only the Ethereum one is not caught. */
  predicate CaughtUnlessEthereum(rs: seq<WalletRefresh>) {
    forall i :: 0 <= i < |rs| ==> rs[i].address != "" && (rs[i].caught <==> rs[i].chain != Ethereum)
  }

  lemma AppendCaught(rs: seq<WalletRefresh>, chain: Chain, a: Option<string>, caught: bool)
    requires CaughtUnlessEthereum(rs) && (caught <==> chain != Ethereum)
    ensures CaughtUnlessEthereum(rs + RefreshIf(chain, a, caught))
  {
  }

  /** The position of a chain in the refresh order. */
  function Rank(c: Chain): nat {
    match c
    case Ethereum => 0
    case Bnb => 1
    case Tron => 2
    case Bitcoin => 3
    case Litecoin => 4
    case Solana => 5
  }

  predicate InChainOrder(rs: seq<WalletRefresh>) {
    forall i, j :: 0 <= i < j < |rs| ==> Rank(rs[i].chain) < Rank(rs[j].chain)
  }

  /** Appending a refresh of a later chain keeps the order. */
  lemma AppendInOrder(rs: seq<WalletRefresh>, chain: Chain, a: Option<string>, caught: bool)
    requires InChainOrder(rs) && forall i :: 0 <= i < |rs| ==> Rank(rs[i].chain) < Rank(chain)
    ensures InChainOrder(rs + RefreshIf(chain, a, caught))
  {
  }

  /**
   * Each chain is refreshed at most once, in the fixed order, and a bot's
   * Solana wallet is refreshed exactly when it has a Solana address.
   */
  lemma RefreshesInChainOrder(bot: Bot)
    ensures InChainOrder(WalletRefreshes(bot))
    ensures Trim(bot.walletSolana) != "" <==> WalletRefresh(Solana, Trim(bot.walletSolana), true) in WalletRefreshes(bot)
  {
    var r0 := RefreshIf(Ethereum, EthereumAddress(bot), false);
    var r1 := r0 + RefreshIf(Bnb, BnbAddress(bot), true);
    AppendInOrder(r0, Bnb, BnbAddress(bot), true);
    var r2 := r1 + RefreshIf(Tron, TrimAddr(bot.walletTron), true);
    AppendInOrder(r1, Tron, TrimAddr(bot.walletTron), true);
    var r3 := r2 + RefreshIf(Bitcoin, TrimAddr(bot.walletBitcoin), true);
    AppendInOrder(r2, Bitcoin, TrimAddr(bot.walletBitcoin), true);
    var r4 := r3 + RefreshIf(Litecoin, TrimAddr(bot.walletLitecoin), true);
    AppendInOrder(r3, Litecoin, TrimAddr(bot.walletLitecoin), true);
    AppendInOrder(r4, Solana, TrimAddr(bot.walletSolana), true);
    assert WalletRefreshes(bot) == r4 + RefreshIf(Solana, TrimAddr(bot.walletSolana), true);
    assert forall i :: 0 <= i < |r4| ==> r4[i].chain != Solana;
  }

  // ---------------------------------------------------------------- the routes

  /**
   * Why a route answers with an error: a missing name (400), an unknown id
   * (404), a save the schema rejects because the name is empty, or the
   * Ethereum refresh throwing (both 500).
   */
  datatype RouteError = NameRequired | NotFound | SaveRejected | RefreshFailed

  /** The Ethereum refresh a create or an edit awaits without a catch, if the bot has an Ethereum address. */
  function EthereumRefresh(bot: Bot): (rs: seq<WalletRefresh>)
    ensures |rs| <= 1 && rs <= WalletRefreshes(bot)
  {
    RefreshIf(Ethereum, EthereumAddress(bot), false)
  }

  /**
   * How `await bot.save()` and the uncaught `addOrUpdateWallet` end, given
   * whether that refresh succeeds: the schema requires a non-empty name, and
   * a bot without an Ethereum address makes no such call.
   */
  function SaveAndRefresh(bot: Bot, ethereumOk: bool): (r: Result<(), RouteError>)
    ensures r == Err(SaveRejected) <==> bot.name == ""
    ensures r == Err(RefreshFailed) <==> bot.name != "" && EthereumRefresh(bot) != [] && !ethereumOk
    ensures r.Ok? <==> bot.name != "" && (EthereumRefresh(bot) == [] || ethereumOk)
  {
    if bot.name == "" then Err(SaveRejected)
    else if EthereumRefresh(bot) != [] && !ethereumOk then Err(RefreshFailed)
    else Ok(())
  }

  /** The six address fields of a create request ("" for a missing one). */
  datatype Wallets = Wallets(ethereum: string, solana: string, bnb: string, bitcoin: string, litecoin: string, tron: string)

  /** The six address fields of an edit request (`None` for a null or missing one). */
  datatype WalletEdits = WalletEdits(ethereum: Option<string>, solana: Option<string>, bnb: Option<string>,
                                     bitcoin: Option<string>, litecoin: Option<string>, tron: Option<string>)

  /** The document a create stores: every field trimmed, not running, no legacy address. */
  function NewBot(id: string, name: string, webhook: Option<string>, w: Wallets): (b: Bot)
    ensures b.id == id && !b.isRunning && b.name == Trim(name)
  {
    RunningBots.Bot(id, Trim(name), false, Trim(w.ethereum), Trim(w.solana), Trim(w.bnb), Trim(w.bitcoin),
      Trim(w.litecoin), Trim(w.tron), "", if webhook.Some? then Trim(webhook.value) else "")
  }

  function EditField(current: string, edit: Option<string>): string {
    if edit.Some? then Trim(edit.value) else current
  }

  /**
   * The document an edit saves: a given name trimmed, a given webhook trimmed
   * (a non-string one cleared: `Some(None)`), given addresses trimmed.
   */
  function Edited(bot: Bot, name: Option<string>, webhook: Option<Option<string>>, w: WalletEdits): (b: Bot)
    ensures b.id == bot.id && b.isRunning == bot.isRunning && b.walletAddress == bot.walletAddress
  {
    bot.(name := EditField(bot.name, name),
         discordWebhookUrl := if webhook.None? then bot.discordWebhookUrl
                              else if webhook.value.Some? then Trim(webhook.value.value) else "",
         walletEthereum := EditField(bot.walletEthereum, w.ethereum),
         walletSolana := EditField(bot.walletSolana, w.solana),
         walletBnb := EditField(bot.walletBnb, w.bnb),
         walletBitcoin := EditField(bot.walletBitcoin, w.bitcoin),
         walletLitecoin := EditField(bot.walletLitecoin, w.litecoin),
         walletTron := EditField(bot.walletTron, w.tron))
  }

  /** The Solana address a route subscribes or unsubscribes, "" for none. */
  function SolanaOf(bot: Bot): string {
    Trim(bot.walletSolana)
  }

  /** `startSubscription(trimAddr(walletSolana))` when there is one, on the counts. */
  function Acquire(counts: map<string, nat>, bot: Bot, setupOk: bool): map<string, nat> {
    if SolanaOf(bot) != "" then SubscriptionManager.AfterStart(counts, SolanaOf(bot), setupOk) else counts
  }

  /** `stopSubscription(trimAddr(walletSolana))` when there is one, on the counts. */
  function Release(counts: map<string, nat>, bot: Bot): map<string, nat> {
    if SolanaOf(bot) != "" then SubscriptionManager.AfterStop(counts, SolanaOf(bot)) else counts
  }

  class Routes {
    /** The bot collection by id. */
    var bots: map<string, Bot>
    const registry: RunningBots.Registry
    const subs: SubscriptionManager.Subscriptions

    ghost predicate Valid()
      reads this, registry, subs
    {
      registry.Valid() && subs.Valid() && "" !in bots && forall id :: id in bots ==> bots[id].id == id
    }

    constructor (registry: RunningBots.Registry, subs: SubscriptionManager.Subscriptions)
      requires registry.Valid() && subs.Valid()
      ensures Valid() && bots == map[] && this.registry == registry && this.subs == subs
    {
      bots := map[];
      this.registry := registry;
      this.subs := subs;
    }

    /**
     * `POST /`: a blank name is refused; otherwise the bot is stored, not
     * running, under the id the database assigns, and its wallets are
     * refreshed. `ethereumOk` is whether the Ethereum refresh succeeds: when
     * it throws, the bot stays stored, the request fails and the other
     * refreshes are not made.
     */
    method Create(id: string, name: Option<string>, webhook: Option<string>, w: Wallets, ethereumOk: bool)
      returns (r: Result<Bot, RouteError>, refreshes: seq<WalletRefresh>)
      requires Valid() && id != "" && id !in bots
      modifies this
      ensures Valid()
      ensures name.None? || Trim(name.value) == "" ==> r == Err(NameRequired) && refreshes == [] && bots == old(bots)
      ensures name.Some? && Trim(name.value) != "" ==>
        var b := NewBot(id, name.value, webhook, w);
        bots == old(bots)[id := b]
        && (SaveAndRefresh(b, ethereumOk).Ok? ==> r == Ok(b) && refreshes == WalletRefreshes(b))
        && (SaveAndRefresh(b, ethereumOk).Err? ==> r == Err(RefreshFailed) && refreshes == EthereumRefresh(b))
    {
      if name.None? || Trim(name.value) == "" {
        return Err(NameRequired), [];
      }
      var b := NewBot(id, name.value, webhook, w);
      bots := bots[id := b];
      if EthereumRefresh(b) != [] && !ethereumOk {
        return Err(RefreshFailed), EthereumRefresh(b);
      }
      r, refreshes := Ok(b), WalletRefreshes(b);
    }

    /**
     * `PATCH /:id`: takes the bot out of the registry, releases its old
     * Solana subscription, saves the edit (keeping `isRunning`), refreshes
     * its wallets and, if it was running, registers it again and subscribes
     * its new Solana address. A save the schema rejects (an empty name) or a
     * throwing Ethereum refresh (`ethereumOk` false) ends the request before
     * the re-registration: the bot then stays out of the registry with its
     * old subscription released. `listener` is how the subscription set-up ends.
     */
    method Patch(id: string, name: Option<string>, webhook: Option<Option<string>>, w: WalletEdits,
                 ethereumOk: bool, listener: Option<nat>)
      returns (r: Result<Bot, RouteError>, refreshes: seq<WalletRefresh>)
      requires Valid()
      modifies this, registry, subs
      ensures Valid()
      ensures id !in old(bots) ==>
        (r == Err(NotFound) && refreshes == [] && bots == old(bots)
         && subs.refcount == old(subs.refcount) && registry.State() == old(registry.State()))
      ensures id in old(bots) ==>
        var b := Edited(old(bots)[id], name, webhook, w);
        var done := SaveAndRefresh(b, ethereumOk);
        && (done == Err(SaveRejected) ==> r == Err(SaveRejected) && refreshes == [] && bots == old(bots))
        && (done == Err(RefreshFailed) ==> r == Err(RefreshFailed) && refreshes == EthereumRefresh(b) && bots == old(bots)[id := b])
        && (done.Ok? ==> r == Ok(b) && refreshes == WalletRefreshes(b) && bots == old(bots)[id := b])
        && subs.refcount == (if done.Ok? && b.isRunning then Acquire(Release(old(subs.refcount), old(bots)[id]), b, listener.Some?)
                             else Release(old(subs.refcount), old(bots)[id]))
        && registry.State() == (if done.Ok? && b.isRunning then RunningBots.AfterAdd(RunningBots.AfterRemove(old(registry.State()), id), b)
                                else RunningBots.AfterRemove(old(registry.State()), id))
        && (id in registry.running <==> done.Ok? && b.isRunning)
        && (done.Ok? && b.isRunning ==> registry.running[id] == RunningBots.ConfigOf(b))
    {
      if id !in bots {
        return Err(NotFound), [];
      }
      var bot := bots[id];
      var keepRunning := bot.isRunning;
      var b := Edited(bot, name, webhook, w);
      registry.Remove(id);
      Unsubscribe(bot);
      if b.name == "" {
        return Err(SaveRejected), [];
      }
      bots := bots[id := b];
      if EthereumRefresh(b) != [] && !ethereumOk {
        return Err(RefreshFailed), EthereumRefresh(b);
      }
      refreshes := WalletRefreshes(b);
      if keepRunning {
        registry.Add(b);
        Subscribe(b, listener);
      }
      r := Ok(b);
    }

    /** `if (solAddr) startSolanaSubscription(solAddr)`. */
    method Subscribe(bot: Bot, listener: Option<nat>)
      requires subs.Valid()
      modifies subs
      ensures subs.Valid() && subs.refcount == Acquire(old(subs.refcount), bot, listener.Some?)
    {
      if SolanaOf(bot) != "" {
        subs.Start(SolanaOf(bot), listener);
      }
    }

    /** `if (solAddr) stopSolanaSubscription(solAddr)`. */
    method Unsubscribe(bot: Bot)
      requires subs.Valid()
      modifies subs
      ensures subs.Valid() && subs.refcount == Release(old(subs.refcount), bot)
    {
      if SolanaOf(bot) != "" {
        var _, _ := subs.Stop(SolanaOf(bot));
      }
    }

    /** `DELETE /:id`: takes the bot out of the registry, releases its Solana subscription and deletes it. */
    method Delete(id: string) returns (r: Result<(), RouteError>)
      requires Valid()
      modifies this, registry, subs
      ensures Valid()
      ensures id !in old(bots) ==>
        r == Err(NotFound) && bots == old(bots) && subs.refcount == old(subs.refcount) && registry.State() == old(registry.State())
      ensures id in old(bots) ==>
        r.Ok? && bots == old(bots) - {id} && registry.State() == RunningBots.AfterRemove(old(registry.State()), id)
        && subs.refcount == Release(old(subs.refcount), old(bots)[id])
    {
      if id !in bots {
        return Err(NotFound);
      }
      var bot := bots[id];
      registry.Remove(id);
      Unsubscribe(bot);
      bots := bots - {id};
      r := Ok(());
    }

    /** `POST /:id/run`: registers the bot, subscribes its Solana address and marks it running. */
    method Run(id: string, listener: Option<nat>) returns (r: Result<Bot, RouteError>)
      requires Valid()
      modifies this, registry, subs
      ensures Valid()
      ensures id !in old(bots) ==>
        r == Err(NotFound) && bots == old(bots) && subs.refcount == old(subs.refcount) && registry.State() == old(registry.State())
      ensures id in old(bots) ==>
        r == Ok(old(bots)[id].(isRunning := true)) && bots == old(bots)[id := old(bots)[id].(isRunning := true)]
        && registry.State() == RunningBots.AfterAdd(old(registry.State()), old(bots)[id])
        && subs.refcount == Acquire(old(subs.refcount), old(bots)[id], listener.Some?)
    {
      if id !in bots {
        return Err(NotFound);
      }
      var bot := bots[id];
      registry.Add(bot);
      Subscribe(bot, listener);
      bots := bots[id := bot.(isRunning := true)];
      r := Ok(bots[id]);
    }

    /** `POST /:id/stop`: takes the bot out of the registry and marks it stopped; the subscriptions are not touched. */
    method Stop(id: string) returns (r: Result<Bot, RouteError>)
      requires Valid()
      modifies this, registry
      ensures Valid()
      ensures id !in old(bots) ==> r == Err(NotFound) && bots == old(bots) && registry.State() == old(registry.State())
      ensures id in old(bots) ==>
        r == Ok(old(bots)[id].(isRunning := false)) && bots == old(bots)[id := old(bots)[id].(isRunning := false)]
        && registry.State() == RunningBots.AfterRemove(old(registry.State()), id)
      ensures subs.refcount == old(subs.refcount)
    {
      if id !in bots {
        return Err(NotFound);
      }
      var bot := bots[id];
      registry.Remove(id);
      bots := bots[id := bot.(isRunning := false)];
      r := Ok(bots[id]);
    }
  }

  // ---------------------------------------------------------------- the count against the running bots

  /** The running bots that watch `a`. */
  function Watchers(bots: map<string, Bot>, a: string): set<string> {
    set id | id in bots && bots[id].isRunning && SolanaOf(bots[id]) == a
  }

  function Get(counts: map<string, nat>, a: string): nat {
    if a in counts then counts[a] else 0
  }

  /** The count an address should have: its running watchers, when subscriptions accept it at all. */
  function Tally(bots: map<string, Bot>, a: string): nat {
    if SubscriptionManager.Eligible(a) && Trim(a) == a then |Watchers(bots, a)| else 0
  }

  /** The subscription count of every address is the number of running bots that watch it. */
  ghost predicate Balanced(bots: map<string, Bot>, counts: map<string, nat>) {
    (forall a :: a in counts ==> counts[a] >= 1) && forall a :: Get(counts, a) == Tally(bots, a)
  }

  /** The effect of the run route on the bots and the counts, as written (the set-up succeeding). */
  function RunAsWritten(bots: map<string, Bot>, counts: map<string, nat>, id: string): (map<string, Bot>, map<string, nat>)
    requires id in bots
  {
    (bots[id := bots[id].(isRunning := true)], Acquire(counts, bots[id], true))
  }

  /** The stop route as written: the bot stops, the count stays. */
  function StopAsWritten(bots: map<string, Bot>, counts: map<string, nat>, id: string): (map<string, Bot>, map<string, nat>)
    requires id in bots
  {
    (bots[id := bots[id].(isRunning := false)], counts)
  }

  /** The delete route as written: releases whether or not the bot runs. */
  function DeleteAsWritten(bots: map<string, Bot>, counts: map<string, nat>, id: string): (map<string, Bot>, map<string, nat>)
    requires id in bots
  {
    (bots - {id}, Release(counts, bots[id]))
  }

  /**
   * Run, stop, run and delete one bot with an eligible Solana address: no bot
   * is left, yet the address is still subscribed.
   */
  lemma RunStopRunDeleteLeaks(bot: Bot)
    requires bot.id != "" && !bot.isRunning && SubscriptionManager.Eligible(bot.walletSolana)
    ensures var s0 := (map[bot.id := bot], map[]);
      var s1 := RunAsWritten(s0.0, s0.1, bot.id);
      var s2 := StopAsWritten(s1.0, s1.1, bot.id);
      var s3 := RunAsWritten(s2.0, s2.1, bot.id);
      var s4 := DeleteAsWritten(s3.0, s3.1, bot.id);
      Balanced(s0.0, s0.1) && s4.0 == map[] && s4.1 == map[SolanaOf(bot) := 1] && !Balanced(s4.0, s4.1)
  {
    var a := SolanaOf(bot);
    TrimIdempotent(bot.walletSolana);
    var s0 := (map[bot.id := bot], map[]);
    assert Balanced(s0.0, s0.1) by {
      forall x ensures Get(s0.1, x) == Tally(s0.0, x) {
        assert Watchers(s0.0, x) == {};
      }
    }
    var s1 := RunAsWritten(s0.0, s0.1, bot.id);
    assert s1.1 == map[a := 1];
    var s3 := RunAsWritten(StopAsWritten(s1.0, s1.1, bot.id).0, s1.1, bot.id);
    assert s3.1 == map[a := 2];
    var s4 := DeleteAsWritten(s3.0, s3.1, bot.id);
    assert s4.1 == map[a := 1];
    assert Get(s4.1, a) != Tally(s4.0, a) by {
      assert Watchers(s4.0, a) == {};
    }
  }

  /** Run, corrected: a bot already running holds its subscription already. */
  function RunFixed(bots: map<string, Bot>, counts: map<string, nat>, id: string): (map<string, Bot>, map<string, nat>)
    requires id in bots
  {
    (bots[id := bots[id].(isRunning := true)], if bots[id].isRunning then counts else Acquire(counts, bots[id], true))
  }

  /** Stop, corrected: a running bot releases its subscription. */
  function StopFixed(bots: map<string, Bot>, counts: map<string, nat>, id: string): (map<string, Bot>, map<string, nat>)
    requires id in bots
  {
    (bots[id := bots[id].(isRunning := false)], if bots[id].isRunning then Release(counts, bots[id]) else counts)
  }

  /** Delete, corrected: only a running bot holds a subscription to release. */
  function DeleteFixed(bots: map<string, Bot>, counts: map<string, nat>, id: string): (map<string, Bot>, map<string, nat>)
    requires id in bots
  {
    (bots - {id}, if bots[id].isRunning then Release(counts, bots[id]) else counts)
  }

  /** Edit, corrected: a running bot moves its subscription to the new address; a stopped one holds none. */
  function PatchFixed(bots: map<string, Bot>, counts: map<string, nat>, id: string, edited: Bot): (map<string, Bot>, map<string, nat>)
    requires id in bots && edited.isRunning == bots[id].isRunning
  {
    (bots[id := edited], if bots[id].isRunning then Acquire(Release(counts, bots[id]), edited, true) else counts)
  }

  /** The watchers after one bot's record changes. */
  lemma WatchersUpdate(bots: map<string, Bot>, id: string, b: Bot, a: string)
    ensures Watchers(bots[id := b], a)
      == (Watchers(bots, a) - {id}) + (if b.isRunning && SolanaOf(b) == a then {id} else {})
  {
  }

  /** Adding a running watcher of `s` to a balanced state and acquiring `s` keeps it balanced. */
  lemma AcquireBalanced(bots: map<string, Bot>, counts: map<string, nat>, id: string, b: Bot)
    requires Balanced(bots, counts)
    requires id !in Watchers(bots, SolanaOf(b)) && b.isRunning
    requires forall a :: a != SolanaOf(b) ==> Watchers(bots[id := b], a) == Watchers(bots, a)
    ensures Balanced(bots[id := b], Acquire(counts, b, true))
  {
    var s := SolanaOf(b);
    var nb := bots[id := b];
    var after := Acquire(counts, b, true);
    AcquireCounts(bots, counts, id, b);
    OthersBalanced(bots, nb, counts, after, s);
    assert forall a :: Get(after, a) == Tally(nb, a);
  }

  /** Acquiring for a new running watcher adds one to its address, and only there. */
  lemma AcquireCounts(bots: map<string, Bot>, counts: map<string, nat>, id: string, b: Bot)
    requires (forall a :: a in counts ==> counts[a] >= 1) && Get(counts, SolanaOf(b)) == Tally(bots, SolanaOf(b))
    requires id !in Watchers(bots, SolanaOf(b)) && b.isRunning
    ensures var s := SolanaOf(b); var after := Acquire(counts, b, true);
      (after == counts || after == counts[s := Get(counts, s) + 1])
      && (forall a :: a in after ==> after[a] >= 1)
      && Get(after, s) == Tally(bots[id := b], s)
  {
    AcquireShape(counts, b);
    TallyAdded(bots, id, b);
  }

  /** `Acquire` on the counts alone: one more for an eligible address, nothing otherwise. */
  lemma AcquireShape(counts: map<string, nat>, b: Bot)
    requires forall a :: a in counts ==> counts[a] >= 1
    ensures var s := SolanaOf(b); var after := Acquire(counts, b, true);
      (SubscriptionManager.Eligible(s) ==> after == counts[s := Get(counts, s) + 1])
      && (!SubscriptionManager.Eligible(s) ==> after == counts)
      && (forall a :: a in after ==> after[a] >= 1)
  {
    TrimIdempotent(b.walletSolana);
  }

  /** A new running watcher adds one to the tally of an eligible address. */
  lemma TallyAdded(bots: map<string, Bot>, id: string, b: Bot)
    requires id !in Watchers(bots, SolanaOf(b)) && b.isRunning
    ensures var s := SolanaOf(b);
      Tally(bots[id := b], s) == if SubscriptionManager.Eligible(s) then Tally(bots, s) + 1 else Tally(bots, s)
  {
    var s := SolanaOf(b);
    WatchersUpdate(bots, id, b, s);
    assert Watchers(bots[id := b], s) == Watchers(bots, s) + {id};
    TrimIdempotent(b.walletSolana);
  }

  /** The addresses an update leaves alone stay balanced. */
  lemma OthersBalanced(bots: map<string, Bot>, nb: map<string, Bot>, counts: map<string, nat>,
                       after: map<string, nat>, s: string)
    requires forall a :: Get(counts, a) == Tally(bots, a)
    requires forall a :: a != s ==> Watchers(nb, a) == Watchers(bots, a)
    requires after == counts || after == counts[s := Get(counts, s) + 1]
    ensures forall a :: a != s ==> Get(after, a) == Tally(nb, a)
  {
    forall a | a != s
      ensures Get(after, a) == Tally(nb, a)
    {
      assert Get(after, a) == Get(counts, a);
      assert Watchers(nb, a) == Watchers(bots, a);
    }
  }

  /** Taking a running watcher of `s` out of a balanced state and releasing `s` keeps it balanced. */
  lemma ReleaseBalanced(bots: map<string, Bot>, counts: map<string, nat>, id: string, nb: map<string, Bot>, b: Bot)
    requires Balanced(bots, counts)
    requires id in bots && bots[id] == b && b.isRunning
    requires Watchers(nb, SolanaOf(b)) == Watchers(bots, SolanaOf(b)) - {id}
    requires forall a :: a != SolanaOf(b) ==> Watchers(nb, a) == Watchers(bots, a)
    ensures Balanced(nb, Release(counts, b))
  {
    var s := SolanaOf(b);
    var after := Release(counts, b);
    assert id in Watchers(bots, s);
    TrimIdempotent(b.walletSolana);
    forall a
      ensures Get(after, a) == Tally(nb, a)
    {
      assert Get(counts, a) == Tally(bots, a);
    }
  }

  /** The corrected run keeps the count balanced. */
  lemma RunFixedBalanced(bots: map<string, Bot>, counts: map<string, nat>, id: string)
    requires id in bots && Balanced(bots, counts)
    ensures var (nb, nc) := RunFixed(bots, counts, id); Balanced(nb, nc)
  {
    var b := bots[id].(isRunning := true);
    forall a ensures Watchers(bots[id := b], a) == (Watchers(bots, a) - {id}) + (if SolanaOf(b) == a then {id} else {}) {
      WatchersUpdate(bots, id, b, a);
    }
    if bots[id].isRunning {
      assert bots[id := b] == bots;
    } else {
      AcquireBalanced(bots, counts, id, b);
    }
  }

  /** The corrected stop keeps the count balanced. */
  lemma StopFixedBalanced(bots: map<string, Bot>, counts: map<string, nat>, id: string)
    requires id in bots && Balanced(bots, counts)
    ensures var (nb, nc) := StopFixed(bots, counts, id); Balanced(nb, nc)
  {
    var b := bots[id].(isRunning := false);
    forall a ensures Watchers(bots[id := b], a) == Watchers(bots, a) - {id} {
      WatchersUpdate(bots, id, b, a);
    }
    if bots[id].isRunning {
      ReleaseBalanced(bots, counts, id, bots[id := b], bots[id]);
    } else {
      forall a ensures Get(counts, a) == Tally(bots[id := b], a) {
        assert Get(counts, a) == Tally(bots, a);
      }
    }
  }

  /** The corrected delete keeps the count balanced. */
  lemma DeleteFixedBalanced(bots: map<string, Bot>, counts: map<string, nat>, id: string)
    requires id in bots && Balanced(bots, counts)
    ensures var (nb, nc) := DeleteFixed(bots, counts, id); Balanced(nb, nc)
  {
    forall a ensures Watchers(bots - {id}, a) == Watchers(bots, a) - {id} {
    }
    if bots[id].isRunning {
      ReleaseBalanced(bots, counts, id, bots - {id}, bots[id]);
    } else {
      forall a ensures Get(counts, a) == Tally(bots - {id}, a) {
        assert Get(counts, a) == Tally(bots, a);
      }
    }
  }

  /** The corrected edit keeps the count balanced. */
  lemma PatchFixedBalanced(bots: map<string, Bot>, counts: map<string, nat>, id: string, edited: Bot)
    requires id in bots && edited.isRunning == bots[id].isRunning && Balanced(bots, counts)
    ensures var (nb, nc) := PatchFixed(bots, counts, id, edited); Balanced(nb, nc)
  {
    if bots[id].isRunning {
      PatchRunningBalanced(bots, counts, id, edited);
    } else {
      PatchStoppedBalanced(bots, counts, id, edited);
    }
  }

  /** Editing a running bot: a corrected stop followed by a corrected run. */
  lemma PatchRunningBalanced(bots: map<string, Bot>, counts: map<string, nat>, id: string, edited: Bot)
    requires id in bots && edited.isRunning && bots[id].isRunning && Balanced(bots, counts)
    ensures Balanced(bots[id := edited], Acquire(Release(counts, bots[id]), edited, true))
  {
    var stopped := bots[id].(isRunning := false);
    var mid := bots[id := stopped];
    forall a ensures Watchers(mid, a) == Watchers(bots, a) - {id} {
      WatchersUpdate(bots, id, stopped, a);
    }
    ReleaseBalanced(bots, counts, id, mid, bots[id]);
    forall a ensures Watchers(mid[id := edited], a) == (Watchers(mid, a) - {id}) + (if SolanaOf(edited) == a then {id} else {}) {
      WatchersUpdate(mid, id, edited, a);
    }
    assert mid[id := edited] == bots[id := edited];
    AcquireBalanced(mid, Release(counts, bots[id]), id, edited);
  }

  /** Editing a stopped bot changes no watcher. */
  lemma PatchStoppedBalanced(bots: map<string, Bot>, counts: map<string, nat>, id: string, edited: Bot)
    requires id in bots && !edited.isRunning && !bots[id].isRunning && Balanced(bots, counts)
    ensures Balanced(bots[id := edited], counts)
  {
    forall a ensures Watchers(bots[id := edited], a) == Watchers(bots, a) {
      WatchersUpdate(bots, id, edited, a);
    }
    forall a ensures Get(counts, a) == Tally(bots[id := edited], a) {
      assert Get(counts, a) == Tally(bots, a);
    }
  }
}
