/**
 * Discord alerts (backend/services/discordService.js): which embed builder a
 * record goes to, the direction, colour, amount and counterparty rules each
 * builder applies, and the batch sender that posts the embeds in chunks of
 * ten, in order, stopping at the first rejected post. The emoji description
 * templates, explorer links and time formatting are not modelled.
 */
module DiscordService {
  import opened Base
  import opened Text
  import opened Canonical

  /** At most this many embeds go in one webhook message. */
  const EmbedsPerMessage: nat := 10

  const DiscordPrefix := "https://discord.com/api/webhooks/"
  const DiscordAppPrefix := "https://discordapp.com/api/webhooks/"

  // Embed colours.
  const Blue: nat := 0x3498db
  const Green: nat := 0x2ecc71
  const Red: nat := 0xe74c3c
  const Grey: nat := 0x95a5a6
  const BnbYellow: nat := 0xF0B90B
  const EthBlue: nat := 0x627EEA

  /** The five embed builders. */
  datatype Builder = BitcoinEmbed | LitecoinEmbed | SolanaEmbed | TronEmbed | EvmEmbed

  /** The label every builder derives from `inOut`. */
  datatype Direction = Incoming | Outgoing | Transfer

  /** What the model keeps of one embed. */
  datatype Embed = Embed(builder: Builder, direction: Direction, colour: nat, amount: string, counterparty: string)

  /** `(tx.walletType || 'Ethereum').trim()`. */
  function EmbedWalletType(walletType: string): string {
    Trim(if walletType != "" then walletType else "Ethereum")
  }

  /** `buildTransactionEmbed`'s switch on the wallet type. */
  function BuilderFor(walletType: string): (b: Builder)
    ensures b == BitcoinEmbed <==> EmbedWalletType(walletType) == "Bitcoin"
    ensures b == LitecoinEmbed <==> EmbedWalletType(walletType) == "Litecoin"
    ensures b == SolanaEmbed <==> EmbedWalletType(walletType) == "Solana"
    ensures b == TronEmbed <==> EmbedWalletType(walletType) == "Tron"
  {
    match EmbedWalletType(walletType)
    case "Bitcoin" => BitcoinEmbed
    case "Litecoin" => LitecoinEmbed
    case "Solana" => SolanaEmbed
    case "Tron" => TronEmbed
    case _ => EvmEmbed
  }

  /** Every chain's own records reach the builder for that chain; BNB, Ethereum and a missing type reach the EVM one. */
  lemma BuilderPerChain(c: Chain)
    ensures BuilderFor(WalletTypeName(c)) == match c
      case Bitcoin => BitcoinEmbed
      case Litecoin => LitecoinEmbed
      case Solana => SolanaEmbed
      case Tron => TronEmbed
      case _ => EvmEmbed
    ensures BuilderFor("") == EvmEmbed
  {
    TrimFixed(WalletTypeName(c));
    TrimFixed("Ethereum");
  }

  /** `(tx.inOut || '').toUpperCase()` compared with `IN` and `OUT`. */
  function DirectionOf(inOut: string): (d: Direction)
    ensures d == Incoming <==> ToUpper(inOut) == "IN"
    ensures d == Outgoing <==> ToUpper(inOut) == "OUT"
  {
    if ToUpper(inOut) == "IN" then Incoming
    else if ToUpper(inOut) == "OUT" then Outgoing
    else Transfer
  }

  /** `exactAmount`: the trimmed amount string, or `'0'` when that is empty. */
  function ExactAmount(amount: string): (r: string)
    ensures r != ""
    ensures Trim(amount) != "" ==> r == Trim(amount)
    ensures Trim(amount) == "" ==> r == "0"
  {
    var s := Trim(amount);
    if s != "" then s else "0"
  }

  /** Rendering an amount twice changes nothing. */
  lemma ExactAmountIdempotent(amount: string)
    ensures ExactAmount(ExactAmount(amount)) == ExactAmount(amount)
  {
    TrimIdempotent(amount);
    TrimFixed("0");
  }

  /** The counterparty shortened to `keep…keep` when longer than `over` characters. */
  function Shorten(s: string, keep: nat, over: nat): (r: string)
    ensures |s| <= over ==> r == s
    ensures |s| > over && 2 * keep <= |s| ==>
      |r| == 2 * keep + 3 && r[..keep] == s[..keep] && r[keep..keep + 3] == "..." && r[keep + 3..] == s[|s| - keep..]
  {
    if |s| > over then Take(s, keep) + "..." + TakeLast(s, keep) else s
  }

  /** The party shown: the sender of an incoming record, otherwise the recipient. */
  function OtherParty(tx: Tx): string {
    if DirectionOf(tx.inOut) == Incoming then tx.from else tx.to
  }

  /** The status text the builders compare: `(tx.status || 'confirmed').toLowerCase()`. */
  function StatusText(s: Option<Status>): (r: string)
    ensures s.None? ==> r == "confirmed"
  {
    match s
    case None => "confirmed"
    case Some(Confirmed) => "confirmed"
    case Some(Pending) => "pending"
    case Some(Failed) => "failed"
  }

  /**
   * The colour of a chain builder's embed: the `flagged` status (pending for
   * the UTXO chains, failed for Solana and Tron) overrides the direction.
   */
  function DirectionColour(status: Option<Status>, flagged: string, flag: nat, d: Direction): nat {
    if StatusText(status) == flagged then flag else if d == Incoming then Green else Red
  }

  /**
   * `buildTransactionEmbed`. Amounts are rendered to strings by `render` (the
   * float formatting of the adapters is not modelled).
   */
  function BuildEmbed(tx: Tx, render: Amount -> string): (e: Embed)
    ensures e.builder == BuilderFor(tx.walletType) && e.direction == DirectionOf(tx.inOut)
    ensures (e.builder == BitcoinEmbed || e.builder == LitecoinEmbed) ==>
      e.colour == (if tx.status == Some(Pending) then Blue else if e.direction == Incoming then Green else Red)
    ensures (e.builder == SolanaEmbed || e.builder == TronEmbed) ==>
      e.colour == (if tx.status == Some(Failed) then Grey else if e.direction == Incoming then Green else Red)
    ensures e.builder == EvmEmbed ==> e.colour == (if EmbedWalletType(tx.walletType) == "BNB" then BnbYellow else EthBlue)
    ensures e.builder != EvmEmbed ==> e.amount == ExactAmount(render(tx.amount))
    ensures e.builder == SolanaEmbed ==> e.counterparty == Shorten(OtherParty(tx), 8, 16)
    ensures e.builder == TronEmbed ==> e.counterparty == Shorten(OtherParty(tx), 7, 14)
  {
    var d := DirectionOf(tx.inOut);
    var amount := ExactAmount(render(tx.amount));
    match BuilderFor(tx.walletType)
    case BitcoinEmbed => Embed(BitcoinEmbed, d, DirectionColour(tx.status, "pending", Blue, d), amount, "")
    case LitecoinEmbed => Embed(LitecoinEmbed, d, DirectionColour(tx.status, "pending", Blue, d), amount, "")
    case SolanaEmbed => Embed(SolanaEmbed, d, DirectionColour(tx.status, "failed", Grey, d), amount, Shorten(OtherParty(tx), 8, 16))
    case TronEmbed => Embed(TronEmbed, d, DirectionColour(tx.status, "failed", Grey, d), amount, Shorten(OtherParty(tx), 7, 14))
    case EvmEmbed =>
      var raw := render(tx.amount);
      Embed(EvmEmbed, d, if EmbedWalletType(tx.walletType) == "BNB" then BnbYellow else EthBlue,
        if raw != "" then raw else "—", "")
  }

  /** The embeds of a chunk, in order. */
  function Embeds(txs: seq<Tx>, render: Amount -> string): (r: seq<Embed>)
    ensures |r| == |txs| && forall k :: 0 <= k < |txs| ==> r[k] == BuildEmbed(txs[k], render)
  {
    seq(|txs|, k requires 0 <= k < |txs| => BuildEmbed(txs[k], render))
  }

  // ---------------------------------------------------------------------
  // Chunking.

  /** `ceil(n / 10)`: the number of messages a batch of `n` records takes. */
  function ChunkCount(n: nat): nat {
    (n + EmbedsPerMessage - 1) / EmbedsPerMessage
  }

  /** The `k`-th chunk: `txList.slice(10k, 10k + 10)`. */
  function ChunkAt<T>(s: seq<T>, k: nat): (c: seq<T>)
    requires k < ChunkCount(|s|)
    ensures 1 <= |c| <= EmbedsPerMessage
  {
    s[k * EmbedsPerMessage..Min(k * EmbedsPerMessage + EmbedsPerMessage, |s|)]
  }

  function Chunks<T>(s: seq<T>): (cs: seq<seq<T>>)
    ensures |cs| == ChunkCount(|s|)
  {
    seq(ChunkCount(|s|), k requires 0 <= k < ChunkCount(|s|) => ChunkAt(s, k))
  }

  /** The `k`-th chunk exists exactly when the batch reaches past its first index. */
  lemma ChunkIndex(n: nat, k: nat)
    ensures k < ChunkCount(n) <==> k * EmbedsPerMessage < n
  {
  }

  /** The message bodies of a sequence of chunks. */
  function EmbedChunks(cs: seq<seq<Tx>>, render: Amount -> string): (r: seq<seq<Embed>>)
    ensures |r| == |cs| && forall k :: 0 <= k < |cs| ==> r[k] == Embeds(cs[k], render)
  {
    seq(|cs|, k requires 0 <= k < |cs| => Embeds(cs[k], render))
  }

  function Flatten<T>(cs: seq<seq<T>>): seq<T> {
    if cs == [] then [] else cs[0] + Flatten(cs[1..])
  }

  /** Dropping the first ten records takes one message less. */
  lemma ChunkCountTail(n: nat)
    requires n > EmbedsPerMessage
    ensures ChunkCount(n - EmbedsPerMessage) == ChunkCount(n) - 1
  {
    assert n - EmbedsPerMessage + EmbedsPerMessage - 1 == (n + EmbedsPerMessage - 1) - EmbedsPerMessage;
  }

  /** The `k+1`-th chunk of a batch is the `k`-th chunk of what follows its first ten records. */
  lemma ChunkShift<T>(s: seq<T>, k: nat)
    requires |s| > EmbedsPerMessage && k < ChunkCount(|s| - EmbedsPerMessage)
    ensures k + 1 < ChunkCount(|s|)
    ensures ChunkAt(s, k + 1) == ChunkAt(s[EmbedsPerMessage..], k)
  {
    ChunkCountTail(|s|);
    var t := s[EmbedsPerMessage..];
    var lo := k * EmbedsPerMessage;
    assert (k + 1) * EmbedsPerMessage == lo + EmbedsPerMessage;
    var hi := Min(lo + EmbedsPerMessage, |t|);
    assert Min(lo + 2 * EmbedsPerMessage, |s|) == hi + EmbedsPerMessage;
    assert ChunkAt(s, k + 1) == s[lo + EmbedsPerMessage..hi + EmbedsPerMessage];
    assert ChunkAt(t, k) == t[lo..hi];
    assert t[lo..hi] == s[lo + EmbedsPerMessage..hi + EmbedsPerMessage];
  }

  /** The chunks after the first are the chunks of what follows the first ten. */
  lemma ChunksTail<T>(s: seq<T>)
    requires |s| > EmbedsPerMessage
    ensures Chunks(s)[1..] == Chunks(s[EmbedsPerMessage..])
  {
    var t := s[EmbedsPerMessage..];
    ChunkCountTail(|s|);
    forall k | 0 <= k < ChunkCount(|t|)
      ensures Chunks(s)[1..][k] == Chunks(t)[k]
    {
      ChunkShift(s, k);
    }
  }

  /** Every chunk holds one to ten records and, concatenated, the chunks are the input in order. */
  lemma {:induction false} ChunksCover<T>(s: seq<T>)
    ensures Flatten(Chunks(s)) == s
    ensures forall c :: c in Chunks(s) ==> 1 <= |c| <= EmbedsPerMessage
    decreases |s|
  {
    if |s| == 0 {
    } else if |s| <= EmbedsPerMessage {
      assert Chunks(s)[0] == s;
      assert Chunks(s) == [s];
    } else {
      ChunksTail(s);
      ChunksCover(s[EmbedsPerMessage..]);
      assert Chunks(s)[0] == s[..EmbedsPerMessage];
      assert s == s[..EmbedsPerMessage] + s[EmbedsPerMessage..];
    }
  }

  // ---------------------------------------------------------------------
  // Sending.

  /** The URL gate: a non-empty string whose trimmed form has one of the two webhook prefixes. */
  predicate Deliverable(webhookUrl: Option<string>) {
    webhookUrl.Some? && webhookUrl.value != ""
    && (StartsWith(Trim(webhookUrl.value), DiscordPrefix) || StartsWith(Trim(webhookUrl.value), DiscordAppPrefix))
  }

  predicate Accepted(status: int) {
    200 <= status < 300
  }

  /** The first message from `k` on (of `n`) whose post is rejected. */
  function FirstRejected(status: nat -> int, k: nat, n: nat): (r: Option<nat>)
    ensures r.Some? ==> k <= r.value < n && !Accepted(status(r.value))
    ensures r.Some? ==> forall j :: k <= j < r.value ==> Accepted(status(j))
    ensures r.None? ==> forall j :: k <= j < n ==> Accepted(status(j))
    decreases n - k
  {
    if k >= n then None
    else if !Accepted(status(k)) then Some(k)
    else FirstRejected(status, k + 1, n)
  }

  /**
   * What a batch send does: the chunks it posts (the embeds of each) and
   * whether it ends normally or throws with the rejected status. `status(k)`
   * is the HTTP status the `k`-th post receives.
   */
  function Delivery(webhookUrl: Option<string>, txs: seq<Tx>, render: Amount -> string, status: nat -> int)
    : (seq<seq<Embed>>, Result<(), int>)
  {
    if !Deliverable(webhookUrl) || txs == [] then ([], Ok(()))
    else Posted(EmbedChunks(Chunks(txs), render), status)
  }

  /** Posting messages in order until one is rejected. */
  function Posted(messages: seq<seq<Embed>>, status: nat -> int): (seq<seq<Embed>>, Result<(), int>) {
    match FirstRejected(status, 0, |messages|)
    case None => (messages, Ok(()))
    case Some(k) => (messages[..k + 1], Err(status(k)))
  }

  /** The embeds of consecutive chunks, concatenated, are the embeds of the concatenation. */
  lemma {:induction false} FlattenEmbeds(cs: seq<seq<Tx>>, render: Amount -> string)
    ensures Flatten(EmbedChunks(cs, render)) == Embeds(Flatten(cs), render)
  {
    var es := EmbedChunks(cs, render);
    if cs != [] {
      FlattenEmbeds(cs[1..], render);
      assert es[1..] == EmbedChunks(cs[1..], render);
      assert Flatten(es) == es[0] + Flatten(es[1..]);
      EmbedsAppend(cs[0], Flatten(cs[1..]), render);
    }
  }

  /** Building embeds distributes over concatenation. */
  lemma EmbedsAppend(a: seq<Tx>, b: seq<Tx>, render: Amount -> string)
    ensures Embeds(a + b, render) == Embeds(a, render) + Embeds(b, render)
  {
    var ab := a + b;
    var l := Embeds(ab, render);
    var ea := Embeds(a, render);
    var eb := Embeds(b, render);
    var r := ea + eb;
    assert |l| == |r|;
    forall k | 0 <= k < |l| ensures l[k] == r[k] {
      if k < |a| {
        assert ab[k] == a[k] && r[k] == ea[k];
      } else {
        assert ab[k] == b[k - |a|] && r[k] == eb[k - |a|];
      }
    }
    assert l == r;
  }

  /**
   * With every post accepted, `ceil(n/10)` messages go out, and together
   * they carry the embeds of all records, in order.
   */
  lemma AllAccepted(webhookUrl: Option<string>, txs: seq<Tx>, render: Amount -> string, status: nat -> int)
    requires Deliverable(webhookUrl) && txs != []
    requires forall k :: 0 <= k < ChunkCount(|txs|) ==> Accepted(status(k))
    ensures var (posts, r) := Delivery(webhookUrl, txs, render, status);
      r.Ok? && |posts| == ChunkCount(|txs|) && Flatten(posts) == Embeds(txs, render)
      && forall p :: p in posts ==> 1 <= |p| <= EmbedsPerMessage
  {
    var cs := Chunks(txs);
    ChunksCover(txs);
    FlattenEmbeds(cs, render);
    var posts := Delivery(webhookUrl, txs, render, status).0;
    assert posts == EmbedChunks(cs, render);
    forall p | p in posts
      ensures 1 <= |p| <= EmbedsPerMessage
    {
      var k :| 0 <= k < |posts| && posts[k] == p;
      assert cs[k] in cs;
    }
  }

  /** A rejected post ends the batch: nothing after it is sent and the rejection is reported. */
  lemma StopsAtRejection(webhookUrl: Option<string>, txs: seq<Tx>, render: Amount -> string, status: nat -> int, k: nat)
    requires Deliverable(webhookUrl) && k < ChunkCount(|txs|) && !Accepted(status(k))
    requires forall j :: 0 <= j < k ==> Accepted(status(j))
    ensures var (posts, r) := Delivery(webhookUrl, txs, render, status);
      |posts| == k + 1 && r == Err(status(k))
  {
  }

  /**
   * `sendTransactionAlertsBatch`: posts the embeds of `txList` ten at a time
   * to the trimmed URL, in order, and throws on the first non-2xx answer.
   */
  method SendBatch(webhookUrl: Option<string>, txList: seq<Tx>, render: Amount -> string, status: nat -> int)
    returns (posts: seq<seq<Embed>>, r: Result<(), int>)
    ensures (posts, r) == Delivery(webhookUrl, txList, render, status)
  {
    if webhookUrl.None? || webhookUrl.value == "" || txList == [] {
      return [], Ok(());
    }
    var url := Trim(webhookUrl.value);
    if !StartsWith(url, DiscordPrefix) && !StartsWith(url, DiscordAppPrefix) {
      return [], Ok(());
    }
    posts, r := PostChunks(txList, render, status);
  }

  /** The `for (i += 10)` loop of the batch sender. */
  method PostChunks(txList: seq<Tx>, render: Amount -> string, status: nat -> int)
    returns (posts: seq<seq<Embed>>, r: Result<(), int>)
    ensures (posts, r) == Posted(EmbedChunks(Chunks(txList), render), status)
  {
    ghost var all := EmbedChunks(Chunks(txList), render);
    posts := [];
    var i := 0;
    var k := 0;
    ChunkIndex(|txList|, k);
    while i < |txList|
      invariant i == k * EmbedsPerMessage && k <= |all|
      invariant i < |txList| <==> k < |all|
      invariant posts == all[..k]
      invariant FirstRejected(status, 0, |all|) == FirstRejected(status, k, |all|)
      decreases |txList| - i
    {
      var chunk := txList[i..Min(i + EmbedsPerMessage, |txList|)];
      assert chunk == Chunks(txList)[k];
      var embeds := Embeds(chunk, render);
      posts := posts + [embeds];
      if !Accepted(status(k)) {
        assert FirstRejected(status, 0, |all|) == Some(k);
        assert posts == all[..k + 1];
        return posts, Err(status(k));
      }
      i := i + EmbedsPerMessage;
      k := k + 1;
      ChunkIndex(|txList|, k);
    }
    assert FirstRejected(status, 0, |all|) == None;
    assert posts == all;
    return posts, Ok(());
  }
}
