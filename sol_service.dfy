/**
 * The Solana adapter of backend/services/solService.js: the configuration
 * clamps, the rate-limit test, the paginated signature listing, the retrying
 * transaction fetch, the record normaliser and the seen-set reconciliation
 * used by the subscription manager.
 *
 * RPC answers are parameters: `listPage(before)` is the signature page that
 * `getSignaturesForAddress` returns for a cursor (an error is already an
 * empty page there), `attempt(signature, k)` the outcome of the `k`-th
 * `getParsedTransaction` call for a signature. Amounts are lamports.
 */
module SolService {
  import opened Base
  import opened Text
  import opened Canonical
  import opened SeenSet
  import WalletService

  // ---------------------------------------------------------------- configuration

  /** `SOL_SIGNATURE_LIMIT`: the parsed setting (`None` when not a number), 0 meaning unset, clamped to [5, 50]. */
  function SignatureLimit(setting: Option<int>): (r: int)
    ensures 5 <= r <= 50
    ensures setting.None? || setting.value == 0 ==> r == 50
    ensures setting.Some? && 5 <= setting.value <= 50 ==> r == setting.value
  {
    var v := if setting.None? || setting.value == 0 then 50 else setting.value;
    Min(Max(v, 5), 50)
  }

  /** `SOL_SIGNATURE_PAGES`: as above with default 2, clamped to [1, 5]. */
  function SignaturePages(setting: Option<int>): (r: int)
    ensures 1 <= r <= 5
    ensures setting.None? || setting.value == 0 ==> r == 2
    ensures setting.Some? && 1 <= setting.value <= 5 ==> r == setting.value
  {
    var v := if setting.None? || setting.value == 0 then 2 else setting.value;
    Min(Max(v, 1), 5)
  }

  /** Signatures a reconciliation lists (`SOL_CHECK_RECENT_LIMIT`). */
  const CheckRecentLimit: nat := 10

  /** Retries after the first attempt (`SOL_429_RETRIES`) and the base back-off (`SOL_429_BASE_MS`). */
  const Retries: nat := 2
  const BaseWaitMs: nat := 5000

  /** `isRateLimitError`: the lower-cased message mentions 429 or "too many request". */
  predicate IsRateLimitError(message: string) {
    var m := ToLower(message);
    Contains(m, "429") || Contains(m, "too many request")
  }

  /** The test ignores case. */
  lemma RateLimitIgnoresCase(message: string)
    ensures IsRateLimitError(ToLower(message)) == IsRateLimitError(message)
  {
    ToLowerIdempotent(message);
  }

  /** A message carrying the status code 429 anywhere is a rate-limit error. */
  lemma RateLimitFrom429(message: string, k: nat)
    requires k + 3 <= |message| && message[k..k + 3] == "429"
    ensures IsRateLimitError(message)
  {
    var m := ToLower(message);
    assert m[k..k + 3] == "429" by {
      assert m[k] == ToLowerChar(message[k]) && m[k + 1] == ToLowerChar(message[k + 1]) && m[k + 2] == ToLowerChar(message[k + 2]);
      assert message[k] == '4' && message[k + 1] == '2' && message[k + 2] == '9';
    }
    ContainsAt(m, "429", k);
  }

  // ---------------------------------------------------------------- RPC shapes

  /** An entry of `getSignaturesForAddress`. */
  datatype SigInfo = SigInfo(signature: string, slot: Option<nat>, failed: bool, blockTime: Option<int>)

  /** The balance part of a parsed transaction's `meta`, in lamports. */
  datatype Meta = Meta(preBalances: seq<nat>, postBalances: seq<nat>)

  /** A parsed transaction: its `meta`, the account keys of its message, its block time and slot. */
  datatype ParsedTx = ParsedTx(meta: Option<Meta>, accountKeys: seq<string>, blockTime: Option<int>, slot: Option<nat>)

  function Signatures(sigs: seq<SigInfo>): (r: seq<string>)
    ensures |r| == |sigs| && forall i :: 0 <= i < |sigs| ==> r[i] == sigs[i].signature
  {
    seq(|sigs|, i requires 0 <= i < |sigs| => sigs[i].signature)
  }

  // ---------------------------------------------------------------- pagination

  /** The signatures of `batch` not yet in `all`, appended in order, each once. */
  function Merge(all: seq<SigInfo>, batch: seq<SigInfo>): (r: seq<SigInfo>)
    ensures |all| <= |r| && r[..|all|] == all
    decreases |batch|
  {
    if batch == [] then all
    else
      var m := Merge(all, batch[..|batch| - 1]);
      var s := batch[|batch| - 1];
      if s.signature in Signatures(m) then m else m + [s]
  }

  /** Merging keeps exactly the signatures of both sides, and never duplicates one. */
  lemma {:induction false} MergeFacts(all: seq<SigInfo>, batch: seq<SigInfo>)
    ensures forall x :: x in Signatures(Merge(all, batch)) <==> x in Signatures(all) || x in Signatures(batch)
    ensures NoDup(Signatures(all)) ==> NoDup(Signatures(Merge(all, batch)))
    decreases |batch|
  {
    if batch != [] {
      var m := Merge(all, batch[..|batch| - 1]);
      MergeFacts(all, batch[..|batch| - 1]);
      var s := batch[|batch| - 1];
      assert Signatures(batch) == Signatures(batch[..|batch| - 1]) + [s.signature];
      if s.signature !in Signatures(m) {
        assert Signatures(m + [s]) == Signatures(m) + [s.signature];
      }
    }
  }

  lemma MergeKeepsNoDup(all: seq<SigInfo>, batch: seq<SigInfo>)
    requires NoDup(Signatures(all))
    ensures NoDup(Signatures(Merge(all, batch)))
  {
    MergeFacts(all, batch);
  }

  /**
   * `fetchTransactionsPaginated` from the current state: `left` pages still
   * allowed, the cursor `before` ("" for none) and the signatures so far.
   */
  function Paginate(listPage: string -> seq<SigInfo>, limit: nat, left: nat, before: string, all: seq<SigInfo>)
    : seq<SigInfo>
    decreases left
  {
    if left == 0 then all
    else
      var batch := listPage(before);
      if batch == [] then all
      else
        var merged := Merge(all, batch);
        if |batch| < limit then merged
        else Paginate(listPage, limit, left - 1, batch[|batch| - 1].signature, merged)
  }

  /** The listing never holds a signature twice. */
  lemma {:induction false} PaginateNoDup(listPage: string -> seq<SigInfo>, limit: nat, left: nat, before: string,
                                         all: seq<SigInfo>)
    requires NoDup(Signatures(all))
    ensures NoDup(Signatures(Paginate(listPage, limit, left, before, all)))
    decreases left
  {
    if left > 0 {
      var batch := listPage(before);
      if batch != [] {
        MergeKeepsNoDup(all, batch);
        if |batch| >= limit {
          PaginateNoDup(listPage, limit, left - 1, batch[|batch| - 1].signature, Merge(all, batch));
        }
      }
    }
  }

  /** Paging only ever appends: the signatures listed so far stay, in order, at the front. */
  lemma {:induction false} PaginateExtends(listPage: string -> seq<SigInfo>, limit: nat, left: nat, before: string,
                                           all: seq<SigInfo>)
    ensures var r := Paginate(listPage, limit, left, before, all); |all| <= |r| && r[..|all|] == all
    decreases left
  {
    if left > 0 {
      var batch := listPage(before);
      if batch != [] && |batch| >= limit {
        var merged := Merge(all, batch);
        PaginateExtends(listPage, limit, left - 1, batch[|batch| - 1].signature, merged);
        var r := Paginate(listPage, limit, left - 1, batch[|batch| - 1].signature, merged);
        assert r[..|all|] == r[..|merged|][..|all|];
      }
    }
  }

  /** The number of pages `Paginate` requests. */
  function PagesRequested(listPage: string -> seq<SigInfo>, limit: nat, left: nat, before: string): (n: nat)
    ensures n <= left
    decreases left
  {
    if left == 0 then 0
    else
      var batch := listPage(before);
      if batch == [] || |batch| < limit then 1
      else 1 + PagesRequested(listPage, limit, left - 1, batch[|batch| - 1].signature)
  }

  /** A listing that returns one short page stops after it, with that page's signatures deduplicated. */
  lemma ShortFirstPageStops(listPage: string -> seq<SigInfo>, limit: nat, pages: nat)
    requires pages >= 1 && |listPage("")| < limit
    ensures PagesRequested(listPage, limit, pages, "") == 1
    ensures Paginate(listPage, limit, pages, "", []) == Merge([], listPage(""))
  {
  }

  /**
   * `fetchTransactionsPaginated`: at most `pages` pages of `limit`, stopping
   * at an empty or short page, each next page before the last signature of
   * the previous one; signatures are kept once, in first-seen order.
   */
  method FetchPaginated(listPage: string -> seq<SigInfo>, limit: nat, pages: nat)
    returns (all: seq<SigInfo>, requested: nat)
    ensures all == Paginate(listPage, limit, pages, "", [])
    ensures requested == PagesRequested(listPage, limit, pages, "") <= pages
  {
    all := [];
    requested := 0;
    var before := "";
    var left := pages;
    while left > 0
      invariant Paginate(listPage, limit, left, before, all) == Paginate(listPage, limit, pages, "", [])
      invariant requested + PagesRequested(listPage, limit, left, before) == PagesRequested(listPage, limit, pages, "")
    {
      left, before, all := NextPage(listPage, limit, left, before, all);
      requested := requested + 1;
    }
  }

  /** One request of the paging loop: a non-empty page is merged in, and the loop stops on a short page. */
  method NextPage(listPage: string -> seq<SigInfo>, limit: nat, left: nat, before: string, all: seq<SigInfo>)
    returns (left': nat, before': string, all': seq<SigInfo>)
    requires left > 0
    ensures left' < left
    ensures Paginate(listPage, limit, left', before', all') == Paginate(listPage, limit, left, before, all)
    ensures 1 + PagesRequested(listPage, limit, left', before') == PagesRequested(listPage, limit, left, before)
  {
    var batch := listPage(before);
    if batch == [] {
      left', before', all' := 0, before, all;
    } else {
      all' := Merge(all, batch);
      if |batch| < limit {
        left', before' := 0, before;
      } else {
        left', before' := left - 1, batch[|batch| - 1].signature;
      }
    }
  }

  /** The paginated listing never holds a signature twice. */
  lemma FetchedOnce(listPage: string -> seq<SigInfo>, limit: nat, pages: nat)
    ensures NoDup(Signatures(Paginate(listPage, limit, pages, "", [])))
  {
    PaginateNoDup(listPage, limit, pages, "", []);
  }

  // ---------------------------------------------------------------- retry

  /** The outcome of `getParsedTransactionWithRetry` from attempt `k` on. */
  function RetryFrom(attempt: (string, nat) -> Result<Option<ParsedTx>, string>, signature: string, k: nat)
    : Result<Option<ParsedTx>, string>
    requires k <= Retries
    decreases Retries - k
  {
    var res := attempt(signature, k);
    if res.Err? && IsRateLimitError(res.error) && k < Retries then RetryFrom(attempt, signature, k + 1)
    else res
  }

  /** The back-off waits taken from attempt `k` on. */
  function WaitsFrom(attempt: (string, nat) -> Result<Option<ParsedTx>, string>, signature: string, k: nat)
    : seq<nat>
    requires k <= Retries
    decreases Retries - k
  {
    var res := attempt(signature, k);
    if res.Err? && IsRateLimitError(res.error) && k < Retries then [BaseWaitMs * (k + 1)] + WaitsFrom(attempt, signature, k + 1)
    else []
  }

  /**
   * At most `Retries` waits of 5000·(attempt+1) ms, each after a rate-limit
   * error; the result is that of the last attempt made, which succeeded, failed
   * otherwise, or was the last allowed.
   */
  lemma {:induction false} RetryBounded(attempt: (string, nat) -> Result<Option<ParsedTx>, string>, signature: string, k: nat)
    requires k <= Retries
    ensures var w := WaitsFrom(attempt, signature, k);
      k + |w| <= Retries
      && (forall i :: 0 <= i < |w| ==>
            (w[i] == BaseWaitMs * (k + i + 1)
             && attempt(signature, k + i).Err? && IsRateLimitError(attempt(signature, k + i).error)))
      && RetryFrom(attempt, signature, k) == attempt(signature, k + |w|)
      && (RetryFrom(attempt, signature, k).Err? ==>
            k + |w| == Retries || !IsRateLimitError(RetryFrom(attempt, signature, k).error))
    decreases Retries - k
  {
    var res := attempt(signature, k);
    if res.Err? && IsRateLimitError(res.error) && k < Retries {
      RetryBounded(attempt, signature, k + 1);
    }
  }

  /** `getParsedTransactionWithRetry`: the attempt loop, returning its result and the waits it made. */
  method GetParsedWithRetry(attempt: (string, nat) -> Result<Option<ParsedTx>, string>, signature: string)
    returns (r: Result<Option<ParsedTx>, string>, waits: seq<nat>)
    ensures r == RetryFrom(attempt, signature, 0) && waits == WaitsFrom(attempt, signature, 0)
  {
    waits := [];
    var k := 0;
    while true
      invariant 0 <= k <= Retries
      invariant waits + WaitsFrom(attempt, signature, k) == WaitsFrom(attempt, signature, 0)
      invariant RetryFrom(attempt, signature, k) == RetryFrom(attempt, signature, 0)
      decreases Retries - k
    {
      var res := attempt(signature, k);
      if res.Ok? {
        return res, waits;
      }
      if IsRateLimitError(res.error) && k < Retries {
        waits := waits + [BaseWaitMs * (k + 1)];
        k := k + 1;
      } else {
        assert WaitsFrom(attempt, signature, k) == [];
        return res, waits;
      }
    }
  }

  // ---------------------------------------------------------------- normalisation

  /** The first index of `x` in `keys` (`findIndex`). */
  function IndexOf(keys: seq<string>, x: string): (r: Option<nat>)
    ensures r.Some? ==> r.value < |keys| && keys[r.value] == x && forall j :: 0 <= j < r.value ==> keys[j] != x
    ensures r.None? ==> x !in keys
    decreases |keys|
  {
    if keys == [] then None
    else if keys[0] == x then Some(0)
    else
      var r := IndexOf(keys[1..], x);
      if r.Some? then Some(r.value + 1) else None
  }

  /** The first key other than the wallet (`find`). */
  function FirstOther(keys: seq<string>, wallet: string): (r: Option<string>)
    ensures r.Some? ==> r.value in keys && r.value != wallet
    ensures r.None? ==> forall k :: k in keys ==> k == wallet
    decreases |keys|
  {
    if keys == [] then None
    else if keys[0] != wallet then Some(keys[0])
    else
      assert forall k :: k in keys ==> k == keys[0] || k in keys[1..];
      FirstOther(keys[1..], wallet)
  }

  /** `balances[i] || 0`. */
  function BalanceAt(balances: seq<nat>, i: nat): nat {
    if i < |balances| then balances[i] else 0
  }

  /** The slot as a string, or "" when absent. */
  function SlotText(slot: Option<nat>): string {
    if slot.Some? then NatToString(slot.value) else ""
  }

  /** The age text of a block time; 0 counts as absent. `ageOf` is the date formatter. */
  function AgeText(blockTime: Option<int>, ageOf: int -> string): string {
    if blockTime.Some? && blockTime.value != 0 then ageOf(blockTime.value) else ""
  }

  function StatusOf(sig: SigInfo): Status {
    if sig.failed then Failed else Confirmed
  }

  /**
   * `normalizeTx`: nothing without `meta`, when the wallet is not an account
   * of the transaction, or when its balance did not change; otherwise a native
   * SOL transfer, incoming when the balance rose, whose other party is the
   * first account that is not the wallet.
   */
  function NormalizeTx(sig: SigInfo, p: ParsedTx, wallet: string, ageOf: int -> string): (r: Option<Tx>)
    ensures r.Some? ==> p.meta.Some? && wallet in p.accountKeys
    ensures r.Some? ==>
      var i := IndexOf(p.accountKeys, wallet).value;
      var pre := BalanceAt(p.meta.value.preBalances, i);
      var post := BalanceAt(p.meta.value.postBalances, i);
      var t := r.value;
      pre != post
      && (t.inOut == "IN" <==> post > pre) && (t.inOut == "OUT" <==> post < pre)
      && t.amount == Units(if post > pre then post - pre else pre - post, 9)
      && (t.inOut == "IN" ==> t.to == wallet && (t.from == "" || t.from != wallet))
      && (t.inOut == "OUT" ==> t.from == wallet && (t.to == "" || t.to != wallet))
    ensures r.Some? ==> r.value.hash == sig.signature && r.value.walletType == "Solana" && r.value.token == "SOL"
    ensures (p.meta.Some? && wallet in p.accountKeys
             && BalanceAt(p.meta.value.preBalances, IndexOf(p.accountKeys, wallet).value)
                != BalanceAt(p.meta.value.postBalances, IndexOf(p.accountKeys, wallet).value)) ==> r.Some?
  {
    if p.meta.None? then None
    else
      match IndexOf(p.accountKeys, wallet)
      case None => None
      case Some(i) =>
        var pre := BalanceAt(p.meta.value.preBalances, i);
        var post := BalanceAt(p.meta.value.postBalances, i);
        if pre == post then None
        else
          var inOut := if post > pre then "IN" else "OUT";
          var other := if |p.accountKeys| > 1 then FirstOther(p.accountKeys, wallet).GetOr("") else "";
          Some(Tx(sig.signature, "Solana", "sol", "SOL", "Transfer", SlotText(p.slot), AgeText(p.blockTime, ageOf),
                  if inOut == "IN" then other else wallet,
                  if inOut == "OUT" then other else wallet,
                  inOut, Units(if post > pre then post - pre else pre - post, 9), Some(StatusOf(sig))))
  }

  /** The placeholder record of a signature whose transaction could not be normalised. */
  function Fallback(sig: SigInfo, ageOf: int -> string): (t: Tx)
    ensures t.hash == sig.signature && t.inOut == "" && t.amount == Text("")
  {
    Tx(sig.signature, "Solana", "sol", "SOL", "Transfer", SlotText(sig.slot), AgeText(sig.blockTime, ageOf),
       "", "", "", Text(""), Some(StatusOf(sig)))
  }

  /**
   * One signature's record: a failed fetch is skipped; otherwise the
   * normalised record, or the fallback when there is none and the signature is non-empty.
   */
  function RecordOf(sig: SigInfo, fetched: Result<Option<ParsedTx>, string>, wallet: string, ageOf: int -> string)
    : (r: Option<Tx>)
    ensures r.Some? ==> fetched.Ok? && r.value.hash == sig.signature
    ensures fetched.Ok? && sig.signature != "" ==> r.Some?
  {
    if fetched.Err? then None
    else
      var norm := if fetched.value.Some? then NormalizeTx(sig, fetched.value.value, wallet, ageOf) else None;
      if norm.None? && sig.signature != "" then Some(Fallback(sig, ageOf)) else norm
  }

  function Record(attempt: (string, nat) -> Result<Option<ParsedTx>, string>, sig: SigInfo, wallet: string,
                  ageOf: int -> string): Option<Tx>
  {
    RecordOf(sig, RetryFrom(attempt, sig.signature, 0), wallet, ageOf)
  }

  /** One signature: the transaction fetched with retry, then its record. */
  method FetchRecord(attempt: (string, nat) -> Result<Option<ParsedTx>, string>, sig: SigInfo, wallet: string,
                     ageOf: int -> string) returns (rec: Option<Tx>)
    ensures rec == Record(attempt, sig, wallet, ageOf)
    ensures rec.Some? ==> rec.value.hash == sig.signature
  {
    var fetched, _ := GetParsedWithRetry(attempt, sig.signature);
    rec := RecordOf(sig, fetched, wallet, ageOf);
  }

  // ---------------------------------------------------------------- reconciliation

  /** The seen-set and the records after visiting `sigs`: a seen signature is skipped, a new one is added, then fetched. */
  function Visit(seen: seq<string>, sigs: seq<SigInfo>, attempt: (string, nat) -> Result<Option<ParsedTx>, string>,
                 wallet: string, ageOf: int -> string): (r: (seq<string>, seq<Tx>))
    ensures |seen| <= |r.0| && r.0[..|seen|] == seen
    ensures NoDup(seen) ==> NoDup(r.0)
    ensures forall x :: x in r.0 <==> x in seen || x in Signatures(sigs)
    ensures forall t :: t in r.1 ==> t.hash in Signatures(sigs) && t.hash !in seen
    ensures (forall x :: x in Signatures(sigs) ==> x in seen) ==> r.1 == []
    decreases |sigs|
  {
    if sigs == [] then (seen, [])
    else
      var n := |sigs| - 1;
      var prev := Visit(seen, sigs[..n], attempt, wallet, ageOf);
      var s := sigs[n];
      assert Signatures(sigs) == Signatures(sigs[..n]) + [s.signature];
      if s.signature in prev.0 then prev
      else
        var rec := Record(attempt, s, wallet, ageOf);
        (prev.0 + [s.signature], prev.1 + (if rec.Some? then [rec.value] else []))
  }

  /** `Visit` over one more signature. */
  lemma VisitStep(seen: seq<string>, sigs: seq<SigInfo>, attempt: (string, nat) -> Result<Option<ParsedTx>, string>,
                  wallet: string, ageOf: int -> string, i: nat)
    requires i < |sigs|
    ensures var prev := Visit(seen, sigs[..i], attempt, wallet, ageOf);
      var rec := Record(attempt, sigs[i], wallet, ageOf);
      Visit(seen, sigs[..i + 1], attempt, wallet, ageOf)
      == if sigs[i].signature in prev.0 then prev
         else (prev.0 + [sigs[i].signature], prev.1 + (if rec.Some? then [rec.value] else []))
  {
    assert sigs[..i + 1][..i] == sigs[..i];
  }

  /** Each signature yields at most one record: the records' hashes are pairwise distinct and new. */
  lemma {:induction false} VisitReportsOnce(seen: seq<string>, sigs: seq<SigInfo>,
                                            attempt: (string, nat) -> Result<Option<ParsedTx>, string>,
                                            wallet: string, ageOf: int -> string)
    ensures var r := Visit(seen, sigs, attempt, wallet, ageOf);
      (forall i, j :: 0 <= i < j < |r.1| ==> r.1[i].hash != r.1[j].hash)
      && forall t :: t in r.1 ==> t.hash in r.0
    decreases |sigs|
  {
    if sigs != [] {
      var n := |sigs| - 1;
      VisitReportsOnce(seen, sigs[..n], attempt, wallet, ageOf);
    }
  }

  /**
   * The converse of `Visit`'s contract: a listed signature that is not in the
   * seen-set and appears here for the first time is reported with its record,
   * when its fetch gives one.
   */
  lemma {:induction false} VisitReportsEveryUnseen(seen: seq<string>, sigs: seq<SigInfo>,
                                                   attempt: (string, nat) -> Result<Option<ParsedTx>, string>,
                                                   wallet: string, ageOf: int -> string, i: nat)
    requires i < |sigs| && sigs[i].signature !in seen
    requires forall j :: 0 <= j < i ==> sigs[j].signature != sigs[i].signature
    requires Record(attempt, sigs[i], wallet, ageOf).Some?
    ensures Record(attempt, sigs[i], wallet, ageOf).value in Visit(seen, sigs, attempt, wallet, ageOf).1
    decreases |sigs|
  {
    var n := |sigs| - 1;
    var prev := Visit(seen, sigs[..n], attempt, wallet, ageOf);
    assert sigs[..n + 1] == sigs;
    VisitStep(seen, sigs, attempt, wallet, ageOf, n);
    if i < n {
      VisitReportsEveryUnseen(seen, sigs[..n], attempt, wallet, ageOf, i);
    } else {
      assert sigs[i].signature !in Signatures(sigs[..n]) by {
        forall j | 0 <= j < n ensures Signatures(sigs[..n])[j] != sigs[i].signature {
          assert Signatures(sigs[..n])[j] == sigs[j].signature;
        }
      }
    }
  }

  /**
   * `checkRecentTransactionsForAddress` on the caller's seen-set: a blank
   * address or a failed listing changes nothing; an empty set is seeded with
   * every listed signature and nothing is reported; otherwise the unseen
   * signatures are visited and the set cut back to its newest `Cap` entries.
   */
  function CheckRecentSpec(address: string, seen: seq<string>, listing: Result<seq<SigInfo>, string>,
                           attempt: (string, nat) -> Result<Option<ParsedTx>, string>, ageOf: int -> string)
    : (r: (seq<string>, seq<Tx>))
    ensures NoDup(seen) ==> NoDup(r.0)
    ensures Trim(address) == "" || listing.Err? ==> r == (seen, [])
    ensures seen == [] ==> r.1 == []
    ensures seen == [] && Trim(address) != "" && listing.Ok? ==> forall s :: s in Signatures(listing.value) ==> s in r.0
    ensures seen != [] && Trim(address) != "" && listing.Ok? ==> |r.0| <= Cap
    ensures forall t :: t in r.1 ==> t.hash !in seen && listing.Ok? && t.hash in Signatures(listing.value)
  {
    var a := Trim(address);
    if a == "" || listing.Err? then (seen, [])
    else if seen == [] then (AddAll(seen, Signatures(listing.value)), [])
    else
      var v := Visit(seen, listing.value, attempt, a, ageOf);
      (Newest(v.0, Cap), v.1)
  }

  /**
   * A later reconciliation loses no record: every listed signature that is
   * not in the seen-set and is listed for the first time is reported with
   * its record, when its fetch gives one.
   */
  lemma CheckRecentReportsEveryUnseen(address: string, seen: seq<string>, listing: Result<seq<SigInfo>, string>,
                                      attempt: (string, nat) -> Result<Option<ParsedTx>, string>, ageOf: int -> string, i: nat)
    requires seen != [] && Trim(address) != "" && listing.Ok? && i < |listing.value|
    requires listing.value[i].signature !in seen
    requires forall j :: 0 <= j < i ==> listing.value[j].signature != listing.value[i].signature
    requires Record(attempt, listing.value[i], Trim(address), ageOf).Some?
    ensures Record(attempt, listing.value[i], Trim(address), ageOf).value in CheckRecentSpec(address, seen, listing, attempt, ageOf).1
  {
    VisitReportsEveryUnseen(seen, listing.value, attempt, Trim(address), ageOf, i);
  }

  /** Reconciling twice against the same listing reports nothing the second time (while the set holds every signature). */
  lemma CheckRecentTwiceQuiet(address: string, seen: seq<string>, sigs: seq<SigInfo>,
                              attempt: (string, nat) -> Result<Option<ParsedTx>, string>, ageOf: int -> string)
    requires NoDup(seen)
    requires |seen| + |sigs| <= Cap
    ensures var first := CheckRecentSpec(address, seen, Ok(sigs), attempt, ageOf);
      CheckRecentSpec(address, first.0, Ok(sigs), attempt, ageOf).1 == []
  {
    var first := CheckRecentSpec(address, seen, Ok(sigs), attempt, ageOf);
    var a := Trim(address);
    if a != "" && seen != [] {
      var v := Visit(seen, sigs, attempt, a, ageOf);
      VisitLength(seen, sigs, attempt, a, ageOf);
      assert first.0 == v.0;
    }
    if a != "" && first.0 != [] {
      assert forall x :: x in Signatures(sigs) ==> x in first.0;
    }
  }

  lemma {:induction false} VisitLength(seen: seq<string>, sigs: seq<SigInfo>,
                                       attempt: (string, nat) -> Result<Option<ParsedTx>, string>,
                                       wallet: string, ageOf: int -> string)
    ensures |Visit(seen, sigs, attempt, wallet, ageOf).0| <= |seen| + |sigs|
    decreases |sigs|
  {
    if sigs != [] {
      VisitLength(seen, sigs[..|sigs| - 1], attempt, wallet, ageOf);
    }
  }

  /** The seeding loop of a first check: every listed signature is added, nothing is fetched. */
  method Seed(seen: seq<string>, sigs: seq<SigInfo>) returns (seenAfter: seq<string>)
    ensures seenAfter == AddAll(seen, Signatures(sigs))
  {
    seenAfter := seen;
    var i := 0;
    while i < |sigs|
      invariant 0 <= i <= |sigs|
      invariant seenAfter == AddAll(seen, Signatures(sigs)[..i])
    {
      assert Signatures(sigs)[..i + 1][..i] == Signatures(sigs)[..i];
      seenAfter := Add(seenAfter, sigs[i].signature);
      i := i + 1;
    }
    assert Signatures(sigs)[..i] == Signatures(sigs);
  }

  /** The visiting loop: each unseen signature is added, fetched with retry and recorded. */
  method VisitAll(seen: seq<string>, sigs: seq<SigInfo>, attempt: (string, nat) -> Result<Option<ParsedTx>, string>,
                  wallet: string, ageOf: int -> string)
    returns (seenAfter: seq<string>, newTransactions: seq<Tx>)
    ensures (seenAfter, newTransactions) == Visit(seen, sigs, attempt, wallet, ageOf)
  {
    seenAfter := seen;
    newTransactions := [];
    var i := 0;
    while i < |sigs|
      invariant 0 <= i <= |sigs|
      invariant (seenAfter, newTransactions) == Visit(seen, sigs[..i], attempt, wallet, ageOf)
    {
      seenAfter, newTransactions := VisitOne(seen, sigs, attempt, wallet, ageOf, i, seenAfter, newTransactions);
      i := i + 1;
    }
    assert sigs[..i] == sigs;
  }

  /** One turn of the visiting loop: an unseen signature is added, fetched with retry and recorded. */
  method VisitOne(seen: seq<string>, sigs: seq<SigInfo>, attempt: (string, nat) -> Result<Option<ParsedTx>, string>,
                  wallet: string, ageOf: int -> string, i: nat, seenBefore: seq<string>, found: seq<Tx>)
    returns (seenAfter: seq<string>, newTransactions: seq<Tx>)
    requires i < |sigs| && (seenBefore, found) == Visit(seen, sigs[..i], attempt, wallet, ageOf)
    ensures (seenAfter, newTransactions) == Visit(seen, sigs[..i + 1], attempt, wallet, ageOf)
  {
    var s := sigs[i];
    VisitStep(seen, sigs, attempt, wallet, ageOf, i);
    seenAfter, newTransactions := seenBefore, found;
    if s.signature !in seenBefore {
      seenAfter := seenBefore + [s.signature];
      var rec := FetchRecord(attempt, s, wallet, ageOf);
      newTransactions := found + (if rec.Some? then [rec.value] else []);
    }
  }

  /**
   * `checkRecentTransactionsForAddress`: returns the new seen-set (the
   * caller's set, updated) and the new records.
   */
  method CheckRecent(address: string, seen: seq<string>, listing: Result<seq<SigInfo>, string>,
                     attempt: (string, nat) -> Result<Option<ParsedTx>, string>, ageOf: int -> string)
    returns (seenAfter: seq<string>, newTransactions: seq<Tx>)
    ensures (seenAfter, newTransactions) == CheckRecentSpec(address, seen, listing, attempt, ageOf)
  {
    var a := Trim(address);
    if a == "" || listing.Err? {
      return seen, [];
    }
    if seen == [] {
      seenAfter := Seed(seen, listing.value);
      return seenAfter, [];
    }
    seenAfter, newTransactions := VisitAll(seen, listing.value, attempt, a, ageOf);
    if |seenAfter| > Cap {
      seenAfter := seenAfter[|seenAfter| - Cap..];
    }
  }

  // ---------------------------------------------------------------- wallet fetch

  /** The records of the listed signatures, in order; failed fetches are skipped. */
  function Records(sigs: seq<SigInfo>, attempt: (string, nat) -> Result<Option<ParsedTx>, string>,
                   wallet: string, ageOf: int -> string): (r: seq<Tx>)
    ensures |r| <= |sigs|
    ensures forall t :: t in r ==> t.hash in Signatures(sigs)
    decreases |sigs|
  {
    if sigs == [] then []
    else
      var n := |sigs| - 1;
      var prev := Records(sigs[..n], attempt, wallet, ageOf);
      assert Signatures(sigs) == Signatures(sigs[..n]) + [sigs[n].signature];
      var rec := Record(attempt, sigs[n], wallet, ageOf);
      prev + (if rec.Some? then [rec.value] else [])
  }

  /** `Records` over one more signature. */
  lemma RecordsStep(sigs: seq<SigInfo>, attempt: (string, nat) -> Result<Option<ParsedTx>, string>,
                    wallet: string, ageOf: int -> string, i: nat)
    requires i < |sigs|
    ensures var rec := Record(attempt, sigs[i], wallet, ageOf);
      Records(sigs[..i + 1], attempt, wallet, ageOf)
      == Records(sigs[..i], attempt, wallet, ageOf) + (if rec.Some? then [rec.value] else [])
  {
    assert sigs[..i + 1][..i] == sigs[..i];
  }

  /** The records of a prefix of the listing are a prefix of the records. */
  lemma {:induction false} RecordsPrefix(sigs: seq<SigInfo>, attempt: (string, nat) -> Result<Option<ParsedTx>, string>,
                                         wallet: string, ageOf: int -> string, k: nat)
    requires k <= |sigs|
    ensures var p := Records(sigs[..k], attempt, wallet, ageOf);
      var r := Records(sigs, attempt, wallet, ageOf);
      |p| <= |r| && r[..|p|] == p
    decreases |sigs|
  {
    if k < |sigs| {
      var n := |sigs| - 1;
      RecordsPrefix(sigs[..n], attempt, wallet, ageOf, k);
      assert sigs[..n][..k] == sigs[..k];
      RecordsStep(sigs, attempt, wallet, ageOf, n);
      assert sigs[..n + 1] == sigs;
    } else {
      assert sigs[..k] == sigs;
    }
  }

  /** Every listed signature whose fetch succeeds gives its record, right after those of the signatures before it. */
  lemma RecordsReportEvery(sigs: seq<SigInfo>, attempt: (string, nat) -> Result<Option<ParsedTx>, string>,
                           wallet: string, ageOf: int -> string, i: nat)
    requires i < |sigs| && Record(attempt, sigs[i], wallet, ageOf).Some?
    ensures var k := |Records(sigs[..i], attempt, wallet, ageOf)|;
      var r := Records(sigs, attempt, wallet, ageOf);
      k < |r| && r[k] == Record(attempt, sigs[i], wallet, ageOf).value
  {
    RecordsStep(sigs, attempt, wallet, ageOf, i);
    RecordsPrefix(sigs, attempt, wallet, ageOf, i + 1);
    var p := Records(sigs[..i + 1], attempt, wallet, ageOf);
    assert p[|p| - 1] == Records(sigs, attempt, wallet, ageOf)[|p| - 1];
  }

  /** The records keep the order of their signatures in the listing. */
  lemma RecordsInOrder(sigs: seq<SigInfo>, attempt: (string, nat) -> Result<Option<ParsedTx>, string>,
                       wallet: string, ageOf: int -> string, i: nat, j: nat)
    requires i < j < |sigs|
    requires Record(attempt, sigs[i], wallet, ageOf).Some? && Record(attempt, sigs[j], wallet, ageOf).Some?
    ensures var r := Records(sigs, attempt, wallet, ageOf);
      exists p, q :: 0 <= p < q < |r| && r[p] == Record(attempt, sigs[i], wallet, ageOf).value
                                      && r[q] == Record(attempt, sigs[j], wallet, ageOf).value
  {
    var r := Records(sigs, attempt, wallet, ageOf);
    var p := |Records(sigs[..i], attempt, wallet, ageOf)|;
    var q := |Records(sigs[..j], attempt, wallet, ageOf)|;
    RecordsReportEvery(sigs, attempt, wallet, ageOf, i);
    RecordsReportEvery(sigs, attempt, wallet, ageOf, j);
    RecordsBefore(sigs, attempt, wallet, ageOf, i, j);
    assert 0 <= p < q < |r| && r[p] == Record(attempt, sigs[i], wallet, ageOf).value
                            && r[q] == Record(attempt, sigs[j], wallet, ageOf).value;
  }

  /** A signature whose fetch gives a record adds to the count of records before every later signature. */
  lemma RecordsBefore(sigs: seq<SigInfo>, attempt: (string, nat) -> Result<Option<ParsedTx>, string>,
                      wallet: string, ageOf: int -> string, i: nat, j: nat)
    requires i < j <= |sigs| && Record(attempt, sigs[i], wallet, ageOf).Some?
    ensures |Records(sigs[..i], attempt, wallet, ageOf)| < |Records(sigs[..j], attempt, wallet, ageOf)|
  {
    RecordsStep(sigs, attempt, wallet, ageOf, i);
    RecordsPrefix(sigs[..j], attempt, wallet, ageOf, i + 1);
    assert sigs[..j][..i + 1] == sigs[..i + 1];
  }

  /**
   * `fetchAndParseSolWallet`: a blank address throws; otherwise the paginated
   * listing, each signature fetched with retry and normalised (or its fallback),
   * and no token records. `balance` and `value` are the rendered balance and
   * its quote value.
   */
  method FetchAndParse(address: string, balance: string, value: string,
                       listPage: string -> seq<SigInfo>, limit: nat, pages: nat,
                       attempt: (string, nat) -> Result<Option<ParsedTx>, string>, ageOf: int -> string)
    returns (r: Result<WalletService.ChainFetch, string>)
    ensures Trim(address) == "" <==> r.Err?
    ensures r.Ok? ==> r.value == WalletService.ChainFetch(balance, value,
      Records(Paginate(listPage, limit, pages, "", []), attempt, Trim(address), ageOf), [], None)
  {
    var a := Trim(address);
    if a == "" {
      return Err("Solana address is required");
    }
    var sigs, _ := FetchPaginated(listPage, limit, pages);
    var transactions := [];
    var i := 0;
    while i < |sigs|
      invariant 0 <= i <= |sigs|
      invariant transactions == Records(sigs[..i], attempt, a, ageOf)
    {
      assert sigs[..i + 1][..i] == sigs[..i];
      var rec := FetchRecord(attempt, sigs[i], a, ageOf);
      transactions := transactions + (if rec.Some? then [rec.value] else []);
      i := i + 1;
    }
    assert sigs[..i] == sigs;
    return Ok(WalletService.ChainFetch(balance, value, transactions, [], None));
  }
}
