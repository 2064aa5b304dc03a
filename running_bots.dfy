/**
 * The in-memory registry of running bots (backend/services/runningBotsStore.js):
 * the configuration of every running bot, keyed by bot id and kept in the
 * order the bots were (re)started, and the webhook registered for each
 * (wallet type, address) key. A wallet has an alert destination exactly when
 * its key is registered here.
 */
module RunningBots {
  import opened Base
  import opened Text
  import opened SeenSet

  /** A bot document as the database returns it (an id of "" stands for a missing `_id`). */
  datatype Bot = Bot(
    id: string,
    name: string,
    isRunning: bool,
    walletEthereum: string,
    walletSolana: string,
    walletBnb: string,
    walletBitcoin: string,
    walletLitecoin: string,
    walletTron: string,
    walletAddress: string,
    discordWebhookUrl: string)

  /** The trimmed configuration the registry keeps for a running bot. */
  datatype Config = Config(
    id: string,
    walletEthereum: string,
    walletAddress: string,
    walletBnb: string,
    walletTron: string,
    walletBitcoin: string,
    walletLitecoin: string,
    walletSolana: string,
    webhook: string)

  /** The registry key `type:address`, kept as a pair (no chain name contains ':'). */
  datatype WalletKey = WalletKey(walletType: string, address: string)

  /** `a || b` on strings. */
  function Or(a: string, b: string): (r: string)
    ensures r == "" <==> a == "" && b == ""
  {
    if a != "" then a else b
  }

  /**
   * `walletKey`: no key for an empty address; otherwise the trimmed address,
   * lower-cased for the two case-insensitive EVM chains.
   */
  function KeyOf(walletType: string, address: string): (r: Option<WalletKey>)
    ensures r.None? <==> address == ""
    ensures r.Some? ==> r.value.walletType == walletType
    ensures r.Some? && walletType != "Ethereum" && walletType != "BNB" ==> r.value.address == Trim(address)
    ensures r.Some? && (walletType == "Ethereum" || walletType == "BNB") ==> r.value.address == ToLower(Trim(address))
  {
    if address == "" then None
    else
      var a := Trim(address);
      if walletType == "Ethereum" || walletType == "BNB" then Some(WalletKey(walletType, ToLower(a)))
      else Some(WalletKey(walletType, a))
  }

  /** The configuration `addBotToRunning` builds: every field trimmed, Ethereum falling back to the legacy address. */
  function ConfigOf(bot: Bot): (c: Config)
    ensures c.id == bot.id
    ensures c.walletEthereum == (if Trim(bot.walletEthereum) != "" then Trim(bot.walletEthereum) else Trim(bot.walletAddress))
    ensures c.walletEthereum == "" ==> c.walletAddress == ""
  {
    Config(bot.id, Or(Trim(bot.walletEthereum), Trim(bot.walletAddress)), Trim(bot.walletAddress),
      Trim(bot.walletBnb), Trim(bot.walletTron), Trim(bot.walletBitcoin), Trim(bot.walletLitecoin),
      Trim(bot.walletSolana), Trim(bot.discordWebhookUrl))
  }

  /** The (type, address) pairs `clearWebhooksForBot` visits, in its order. */
  function ClearTargets(c: Config): seq<(string, string)> {
    [("Ethereum", Or(c.walletEthereum, c.walletAddress)), ("BNB", c.walletBnb), ("Tron", c.walletTron),
     ("Bitcoin", c.walletBitcoin), ("Litecoin", c.walletLitecoin), ("Solana", c.walletSolana)]
  }

  /** The keys a list of targets names (empty addresses name none). */
  function KeysOf(ts: seq<(string, string)>): set<WalletKey>
    decreases |ts|
  {
    if ts == [] then {}
    else KeysOf(ts[..|ts| - 1]) + KeyIf(ts[|ts| - 1].0, ts[|ts| - 1].1)
  }

  /** The key of one target, if it has an address. */
  function KeyIf(walletType: string, address: string): set<WalletKey> {
    if address != "" then {KeyOf(walletType, address).value} else {}
  }

  /** Every target with an address contributes its key. */
  lemma {:induction false} KeysOfHas(ts: seq<(string, string)>, i: nat)
    requires i < |ts| && ts[i].1 != ""
    ensures KeyOf(ts[i].0, ts[i].1).value in KeysOf(ts)
    decreases |ts|
  {
    if i < |ts| - 1 {
      KeysOfHas(ts[..|ts| - 1], i);
    }
  }

  /** ... and only such targets contribute keys. */
  lemma {:induction false} KeysOfOnly(ts: seq<(string, string)>, k: WalletKey)
    requires k in KeysOf(ts)
    ensures exists i :: 0 <= i < |ts| && ts[i].1 != "" && KeyOf(ts[i].0, ts[i].1).value == k
    decreases |ts|
  {
    var n := |ts| - 1;
    if k in KeysOf(ts[..n]) {
      KeysOfOnly(ts[..n], k);
      var i :| 0 <= i < |ts[..n]| && ts[..n][i].1 != "" && KeyOf(ts[..n][i].0, ts[..n][i].1).value == k;
      assert ts[..n][i] == ts[i];
    } else {
      assert ts[n].1 != "" && KeyOf(ts[n].0, ts[n].1).value == k;
    }
  }

  /** The keys `clearWebhooksForBot` deletes for a configuration. */
  function ClearKeys(c: Config): set<WalletKey> {
    KeysOf(ClearTargets(c))
  }

  /** The keys `addBotToRunning` sets for a configuration. */
  function AddKeys(c: Config): set<WalletKey> {
    KeyIf("Ethereum", c.walletEthereum) + KeyIf("BNB", c.walletBnb) + KeyIf("Tron", c.walletTron)
    + KeyIf("Bitcoin", c.walletBitcoin) + KeyIf("Litecoin", c.walletLitecoin) + KeyIf("Solana", c.walletSolana)
  }

  /** One `webhookByWalletKey.set` for a target with an address. */
  function Step(m: map<WalletKey, string>, walletType: string, address: string, url: string): map<WalletKey, string> {
    if address != "" then m[KeyOf(walletType, address).value := url] else m
  }

  /** The webhook map after a configuration's keys are registered (none when its webhook is empty). */
  function Registered(m: map<WalletKey, string>, c: Config): map<WalletKey, string> {
    if c.webhook == "" then m
    else
      var url := c.webhook;
      Step(Step(Step(Step(Step(Step(m, "Ethereum", c.walletEthereum, url), "BNB", c.walletBnb, url),
        "Tron", c.walletTron, url), "Bitcoin", c.walletBitcoin, url), "Litecoin", c.walletLitecoin, url),
        "Solana", c.walletSolana, url)
  }

  /** The webhook map after the bot `id`, if running, has had its keys cleared. */
  function Cleared(m: map<WalletKey, string>, running: map<string, Config>, id: string): map<WalletKey, string> {
    if id in running then m - ClearKeys(running[id]) else m
  }

  /** `getWebhookForWallet` over a webhook map. */
  function Lookup(m: map<WalletKey, string>, walletType: string, address: string): (r: Option<string>)
    ensures address == "" ==> r.None?
    ensures r.Some? ==> r.value != "" && KeyOf(walletType, address).value in m
  {
    var k := KeyOf(walletType, address);
    if k.Some? && k.value in m && m[k.value] != "" then Some(m[k.value]) else None
  }

  /**
   * Registering adds exactly the configuration's keys, all mapped to its
   * webhook, and keeps every other entry.
   */
  lemma RegisteredEffect(m: map<WalletKey, string>, c: Config)
    requires c.webhook != ""
    ensures Registered(m, c).Keys == m.Keys + AddKeys(c)
    ensures forall k :: k in AddKeys(c) ==> Registered(m, c)[k] == c.webhook
    ensures forall k :: k in m && k !in AddKeys(c) ==> Registered(m, c)[k] == m[k]
  {
    var u := c.webhook;
    var m1 := Step(m, "Ethereum", c.walletEthereum, u);
    var m2 := Step(m1, "BNB", c.walletBnb, u);
    var m3 := Step(m2, "Tron", c.walletTron, u);
    var m4 := Step(m3, "Bitcoin", c.walletBitcoin, u);
    var m5 := Step(m4, "Litecoin", c.walletLitecoin, u);
    StepEffect(m, "Ethereum", c.walletEthereum, u);
    StepEffect(m1, "BNB", c.walletBnb, u);
    StepEffect(m2, "Tron", c.walletTron, u);
    StepEffect(m3, "Bitcoin", c.walletBitcoin, u);
    StepEffect(m4, "Litecoin", c.walletLitecoin, u);
    StepEffect(m5, "Solana", c.walletSolana, u);
  }

  lemma StepEffect(m: map<WalletKey, string>, walletType: string, address: string, url: string)
    ensures Step(m, walletType, address, url).Keys == m.Keys + KeyIf(walletType, address)
    ensures forall k :: k in KeyIf(walletType, address) ==> Step(m, walletType, address, url)[k] == url
    ensures forall k :: k in m && k !in KeyIf(walletType, address) ==> Step(m, walletType, address, url)[k] == m[k]
  {
  }

  /**
   * Every key `addBotToRunning` sets for a bot is deleted again when the bot is
   * removed, although the clearing step re-derives the Ethereum address.
   */
  lemma AddKeysCleared(c: Config)
    ensures AddKeys(c) <= ClearKeys(c)
  {
    var t := ClearTargets(c);
    if c.walletEthereum != "" {
      assert t[0] == ("Ethereum", c.walletEthereum);
      KeysOfHas(t, 0);
    }
    if c.walletBnb != "" { KeysOfHas(t, 1); }
    if c.walletTron != "" { KeysOfHas(t, 2); }
    if c.walletBitcoin != "" { KeysOfHas(t, 3); }
    if c.walletLitecoin != "" { KeysOfHas(t, 4); }
    if c.walletSolana != "" { KeysOfHas(t, 5); }
  }

  /** The (type, address) pairs `addBotToRunning` registers, in its order. */
  function AddTargets(c: Config): seq<(string, string)> {
    [("Ethereum", c.walletEthereum), ("BNB", c.walletBnb), ("Tron", c.walletTron),
     ("Bitcoin", c.walletBitcoin), ("Litecoin", c.walletLitecoin), ("Solana", c.walletSolana)]
  }

  /** After a bot with a webhook is added, each of its addresses looks up to that webhook. */
  lemma LookupAfterRegister(m: map<WalletKey, string>, c: Config, walletType: string, address: string)
    requires c.webhook != "" && address != "" && (walletType, address) in AddTargets(c)
    ensures Lookup(Registered(m, c), walletType, address) == Some(c.webhook)
  {
    RegisteredEffect(m, c);
  }

  /** After a bot is removed, none of its addresses has a webhook any more. */
  lemma LookupAfterClear(m: map<WalletKey, string>, bot: Bot, walletType: string, address: string)
    requires address != "" && (walletType, address) in AddTargets(ConfigOf(bot))
    ensures Lookup(m - ClearKeys(ConfigOf(bot)), walletType, address).None?
  {
    AddKeysCleared(ConfigOf(bot));
  }

  /** Clearing a bot leaves the lookup of every wallet it does not name unchanged. */
  lemma LookupUnaffected(m: map<WalletKey, string>, c: Config, walletType: string, address: string)
    requires forall i :: 0 <= i < |ClearTargets(c)| && ClearTargets(c)[i].1 != "" ==>
      KeyOf(ClearTargets(c)[i].0, ClearTargets(c)[i].1) != KeyOf(walletType, address)
    ensures Lookup(m - ClearKeys(c), walletType, address) == Lookup(m, walletType, address)
  {
    var k := KeyOf(walletType, address);
    if k.Some? && k.value in ClearKeys(c) {
      KeysOfOnly(ClearTargets(c), k.value);
    }
  }

  /**
   * Two running bots that watch the same wallet share one key: the bot added
   * last owns its webhook, and removing either bot silences the wallet.
   */
  lemma SharedWalletKey(m: map<WalletKey, string>, first: Bot, second: Bot, walletType: string, address: string)
    requires address != ""
    requires (walletType, address) in AddTargets(ConfigOf(first)) && (walletType, address) in AddTargets(ConfigOf(second))
    requires ConfigOf(second).webhook != ""
    ensures Lookup(Registered(Registered(m, ConfigOf(first)), ConfigOf(second)), walletType, address)
      == Some(ConfigOf(second).webhook)
    ensures Lookup(Registered(Registered(m, ConfigOf(first)), ConfigOf(second)) - ClearKeys(ConfigOf(first)),
      walletType, address).None?
  {
    LookupAfterRegister(Registered(m, ConfigOf(first)), ConfigOf(second), walletType, address);
    LookupAfterClear(Registered(Registered(m, ConfigOf(first)), ConfigOf(second)), first, walletType, address);
  }

  /** The registry's three fields as one value. */
  datatype Snapshot = Snapshot(running: map<string, Config>, order: seq<string>, webhooks: map<WalletKey, string>)

  /** `removeBotFromRunning(id)`: a running bot loses its entry, its place in the order and its webhook keys. */
  function AfterRemove(s: Snapshot, id: string): (t: Snapshot)
    ensures t.running == s.running - {id}
  {
    if id in s.running then Snapshot(s.running - {id}, Without(s.order, id), s.webhooks - ClearKeys(s.running[id]))
    else s
  }

  /** `addBotToRunning(bot)`: the old entry replaced, the bot moved last, its webhook keys cleared and registered anew. */
  function AfterAdd(s: Snapshot, bot: Bot): (t: Snapshot)
    ensures bot.id != "" ==> t.running == s.running[bot.id := ConfigOf(bot)]
    ensures bot.id != "" ==> t.order == Without(s.order, bot.id) + [bot.id]
  {
    if bot.id == "" then s
    else Snapshot(s.running[bot.id := ConfigOf(bot)], Without(s.order, bot.id) + [bot.id],
                  Registered(Cleared(s.webhooks, s.running, bot.id), ConfigOf(bot)))
  }

  /** After a running bot is removed, none of the addresses it was registered with has a webhook. */
  lemma RemovedBotSilent(s: Snapshot, id: string, walletType: string, address: string)
    requires id in s.running && address != "" && (walletType, address) in AddTargets(s.running[id])
    ensures Lookup(AfterRemove(s, id).webhooks, walletType, address).None?
  {
    AddKeysCleared(s.running[id]);
  }

  /** Removing a bot keeps every other running bot's entry and its place in the order. */
  lemma RemoveKeepsOthers(s: Snapshot, id: string, other: string)
    requires other in s.running && other != id
    ensures var t := AfterRemove(s, id);
      other in t.running && t.running[other] == s.running[other]
    ensures other in s.order ==> other in AfterRemove(s, id).order
  {
  }

  /** After a bot with a webhook is added, each of its addresses looks up to that webhook. */
  lemma AddedBotAlerted(s: Snapshot, bot: Bot, walletType: string, address: string)
    requires bot.id != "" && ConfigOf(bot).webhook != "" && address != ""
    requires (walletType, address) in AddTargets(ConfigOf(bot))
    ensures Lookup(AfterAdd(s, bot).webhooks, walletType, address) == Some(ConfigOf(bot).webhook)
  {
    LookupAfterRegister(Cleared(s.webhooks, s.running, bot.id), ConfigOf(bot), walletType, address);
  }

  class Registry {
    /** Ids of the running bots, in the iteration order of the JavaScript `Map`. */
    var order: seq<string>
    var running: map<string, Config>
    var webhooks: map<WalletKey, string>

    ghost predicate Valid()
      reads this
    {
      NoDup(order) && (forall id :: id in order <==> id in running) && "" !in running
    }

    /** The three fields as a value. */
    function State(): Snapshot
      reads this
    {
      Snapshot(running, order, webhooks)
    }

    constructor ()
      ensures Valid() && order == [] && running == map[] && webhooks == map[]
    {
      order := [];
      running := map[];
      webhooks := map[];
    }

    /** `getRunningConfigs`: the stored configurations in iteration order. */
    function Configs(): (r: seq<Config>)
      reads this
      requires Valid()
      ensures |r| == |order|
      ensures forall i :: 0 <= i < |r| ==> r[i] == running[order[i]]
      ensures forall id :: id in running ==> running[id] in r
    {
      seq(|order|, i requires 0 <= i < |order| && order[i] in running reads this => running[order[i]])
    }

    /** `getWebhookForWallet`: the webhook registered for a wallet, if any. */
    function WebhookFor(walletType: string, address: string): (r: Option<string>)
      reads this
      ensures r == Lookup(webhooks, walletType, address)
    {
      Lookup(webhooks, walletType, address)
    }

    /** `clearWebhooksForBot`: deletes the key of every address of the configuration. */
    method ClearWebhooks(c: Config)
      modifies this
      ensures webhooks == old(webhooks) - ClearKeys(c)
      ensures order == old(order) && running == old(running)
    {
      Unregister(ClearTargets(c));
    }

    /** The deleting loop of `clearWebhooksForBot`, over its list of targets. */
    method Unregister(ts: seq<(string, string)>)
      modifies this
      ensures webhooks == old(webhooks) - KeysOf(ts)
      ensures order == old(order) && running == old(running)
    {
      var m := webhooks;
      var i := 0;
      while i < |ts|
        invariant 0 <= i <= |ts|
        invariant m == old(webhooks) - KeysOf(ts[..i])
      {
        var (t, a) := ts[i];
        if a != "" {
          m := m - {KeyOf(t, a).value};
        }
        assert ts[..i + 1][..i] == ts[..i];
        i := i + 1;
      }
      assert ts[..i] == ts;
      webhooks := m;
    }

    /** `removeBotFromRunning`: an unknown id changes nothing; a known one loses its entry and its webhook keys. */
    method Remove(id: string)
      requires Valid()
      modifies this
      ensures Valid()
      ensures id !in old(running) ==> order == old(order) && running == old(running) && webhooks == old(webhooks)
      ensures id in old(running) ==>
        running == old(running) - {id} && order == Without(old(order), id)
        && webhooks == old(webhooks) - ClearKeys(old(running)[id])
      ensures State() == AfterRemove(old(State()), id)
    {
      if id == "" {
        return;
      }
      if id in running {
        ClearWebhooks(running[id]);
        running := running - {id};
        order := Without(order, id);
      }
    }

    /**
     * `addBotToRunning`: replaces any previous entry of the bot, appends it to
     * the iteration order and, when its webhook is non-empty, registers the
     * webhook for each of its addresses.
     */
    method Add(bot: Bot)
      requires Valid()
      modifies this
      ensures Valid()
      ensures bot.id == "" ==> order == old(order) && running == old(running) && webhooks == old(webhooks)
      ensures bot.id != "" ==> running == old(running)[bot.id := ConfigOf(bot)]
      ensures bot.id != "" ==> order == Without(old(order), bot.id) + [bot.id]
      ensures bot.id != "" ==> webhooks == Registered(Cleared(old(webhooks), old(running), bot.id), ConfigOf(bot))
      ensures State() == AfterAdd(old(State()), bot)
    {
      if bot.id == "" {
        return;
      }
      var c := ConfigOf(bot);
      ghost var r0 := running;
      Remove(bot.id);
      assert running == r0 - {bot.id};
      assert order == Without(old(order), bot.id);
      assert webhooks == Cleared(old(webhooks), r0, bot.id);
      ReplaceEntry(r0, bot.id, c);
      Enter(bot.id, c);
    }

    /** Appends a bot that is not running and registers its webhook keys. */
    method Enter(id: string, c: Config)
      requires Valid() && id != "" && id !in running
      modifies this
      ensures Valid()
      ensures running == old(running)[id := c] && order == old(order) + [id]
      ensures webhooks == Registered(old(webhooks), c)
    {
      AddKeepsValid(order, running, id, c);
      running := running[id := c];
      order := order + [id];
      RegisterConfig(c);
    }

    /** The six registering statements of `addBotToRunning`. */
    method RegisterConfig(c: Config)
      modifies this
      ensures webhooks == Registered(old(webhooks), c)
      ensures order == old(order) && running == old(running)
    {
      var url := c.webhook;
      if url != "" {
        webhooks := Step(webhooks, "Ethereum", c.walletEthereum, url);
        webhooks := Step(webhooks, "BNB", c.walletBnb, url);
        webhooks := Step(webhooks, "Tron", c.walletTron, url);
        webhooks := Step(webhooks, "Bitcoin", c.walletBitcoin, url);
        webhooks := Step(webhooks, "Litecoin", c.walletLitecoin, url);
        webhooks := Step(webhooks, "Solana", c.walletSolana, url);
      }
    }
  }

  lemma AppendKeepsNoDup(s: seq<string>, x: string)
    requires NoDup(s) && x !in s
    ensures NoDup(s + [x])
  {
  }

  /** Removing an entry and then setting it is the same as setting it. */
  lemma ReplaceEntry(m: map<string, Config>, id: string, c: Config)
    ensures (m - {id})[id := c] == m[id := c]
  {
  }

  /** Entering a new bot at the end of the order keeps the registry's invariant. */
  lemma AddKeepsValid(order: seq<string>, running: map<string, Config>, id: string, c: Config)
    requires NoDup(order) && (forall x :: x in order <==> x in running) && "" !in running
    requires id != "" && id !in running
    ensures NoDup(order + [id]) && (forall x :: x in order + [id] <==> x in running[id := c]) && "" !in running[id := c]
  {
    AppendKeepsNoDup(order, id);
  }

  /** `s` with every occurrence of `x` removed, order kept. */
  function Without(s: seq<string>, x: string): (r: seq<string>)
    ensures forall y :: y in r <==> y in s && y != x
    ensures NoDup(s) ==> NoDup(r)
    ensures |r| <= |s|
    ensures x !in s ==> r == s
  {
    if s == [] then []
    else if s[0] == x then Without(s[1..], x)
    else
      var r := Without(s[1..], x);
      assert NoDup(s) ==> NoDup(s[1..]) && s[0] !in r by {
        if NoDup(s) {
          forall i, j | 0 <= i < j < |s[1..]| ensures s[1..][i] != s[1..][j] {
            assert s[1..][i] == s[i + 1] && s[1..][j] == s[j + 1];
          }
        }
      }
      [s[0]] + r
  }
}
