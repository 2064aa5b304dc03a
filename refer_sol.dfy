/**
 * The standalone Solana monitor of refer/sol.js: a WebSocket account listener
 * that, on every balance change, lists the wallet's ten newest signatures,
 * reports the ones it has not seen and remembers at most `Cap` of them.
 *
 * The RPC results are parameters: the signature listing (`None` when the
 * call throws) and `parsed`, which gives for each signature what
 * `getParsedTransaction` returns (`None` for `null` or a throw, both of
 * which end the processing of that signature without a notice).
 */
module ReferSol {
  import opened Base
  import opened SeenSet

  /** An entry of `getSignaturesForAddress`; `failed` is a truthy `err`. */
  datatype SigInfo = SigInfo(signature: string, failed: bool)

  /** An account key of a parsed transaction with its balances before and after, in lamports. */
  datatype Account = Account(key: string, pre: int, post: int)

  /** A parsed transaction: whether it has `meta`, and its account keys in order. */
  datatype ParsedTx = ParsedTx(hasMeta: bool, accounts: seq<Account>)

  /** What `sendDiscordNotification` is asked to send. */
  datatype Notice = Notice(signature: string, lamports: nat, incoming: bool, otherParty: string, failed: bool)

  /** `accountKeys.findIndex(k => k === wallet)`, -1 when absent. */
  function AccountIndex(accounts: seq<Account>, wallet: string): (k: int)
    ensures -1 <= k < |accounts|
    ensures k == -1 <==> forall i :: 0 <= i < |accounts| ==> accounts[i].key != wallet
    ensures k >= 0 ==> accounts[k].key == wallet && forall i :: 0 <= i < k ==> accounts[i].key != wallet
  {
    if accounts == [] then -1
    else if accounts[0].key == wallet then 0
    else
      var k := AccountIndex(accounts[1..], wallet);
      if k == -1 then -1 else k + 1
  }

  /** The first account key that is not the wallet, when there are at least two keys; else `Unknown`. */
  function OtherParty(accounts: seq<Account>, wallet: string): (r: string)
    ensures |accounts| <= 1 ==> r == "Unknown"
    ensures |accounts| > 1 && (exists i :: 0 <= i < |accounts| && accounts[i].key != wallet) ==>
      exists i :: 0 <= i < |accounts| && accounts[i].key != wallet && r == accounts[i].key
        && forall j :: 0 <= j < i ==> accounts[j].key == wallet
  {
    if |accounts| <= 1 then "Unknown" else FirstOther(accounts, wallet)
  }

  /** `accountKeys.find(k => k !== wallet)`, or `Unknown`. */
  function FirstOther(accounts: seq<Account>, wallet: string): (r: string)
    ensures (exists i :: 0 <= i < |accounts| && accounts[i].key != wallet) ==>
      exists i :: 0 <= i < |accounts| && accounts[i].key != wallet && r == accounts[i].key
        && forall j :: 0 <= j < i ==> accounts[j].key == wallet
    ensures (forall i :: 0 <= i < |accounts| ==> accounts[i].key == wallet) ==> r == "Unknown"
  {
    if accounts == [] then "Unknown"
    else if accounts[0].key != wallet then accounts[0].key
    else
      var r := FirstOther(accounts[1..], wallet);
      assert forall i :: 1 <= i < |accounts| ==> accounts[i] == accounts[1..][i - 1];
      r
  }

  /**
   * `processTransaction`: no notice without a parsed transaction with meta,
   * when the wallet is not among the keys, or when its balance did not
   * change; otherwise the size and direction of the change at the wallet's
   * first key.
   */
  function NoticeOf(info: SigInfo, tx: Option<ParsedTx>, wallet: string): (r: Option<Notice>)
    ensures tx.None? || !tx.value.hasMeta || AccountIndex(tx.value.accounts, wallet) == -1 ==> r.None?
    ensures tx.Some? && tx.value.hasMeta && AccountIndex(tx.value.accounts, wallet) >= 0 ==>
      var a := tx.value.accounts[AccountIndex(tx.value.accounts, wallet)];
      (r.None? <==> a.post == a.pre)
      && (r.Some? ==> r.value.incoming == (a.post > a.pre)
                      && r.value.lamports as int == if a.post > a.pre then a.post - a.pre else a.pre - a.post)
    ensures r.Some? ==> (r.value.signature == info.signature && r.value.failed == info.failed
                         && r.value.otherParty == OtherParty(tx.value.accounts, wallet))
  {
    if tx.None? || !tx.value.hasMeta then None
    else
      var k := AccountIndex(tx.value.accounts, wallet);
      if k == -1 then None
      else
        var change := tx.value.accounts[k].post - tx.value.accounts[k].pre;
        if change == 0 then None
        else
          Some(Notice(info.signature, if change > 0 then change else -change, change > 0,
                      OtherParty(tx.value.accounts, wallet), info.failed))
  }

  const Grey: int := 0x95a5a6
  const Green: int := 0x2ecc71
  const Red: int := 0xe74c3c

  /** The embed colour: grey for a failed transaction, else green in and red out. */
  function Colour(n: Notice): (c: int)
    ensures n.failed <==> c == Grey
    ensures !n.failed ==> (c == Green <==> n.incoming) && (c == Red <==> !n.incoming)
  {
    if n.failed then Grey else if n.incoming then Green else Red
  }

  /** The signature a listing entry names. */
  function SigOf(x: SigInfo): string {
    x.signature
  }

  /** The signature a notice reports. */
  function NoticeSig(n: Notice): string {
    n.signature
  }

  /** The signatures of a listing or of the notices, in order. */
  function Ids<T>(xs: seq<T>, sig: T -> string): (r: seq<string>)
    ensures |r| == |xs| && forall i :: 0 <= i < |xs| ==> r[i] == sig(xs[i])
  {
    if xs == [] then [] else Ids(xs[..|xs| - 1], sig) + [sig(xs[|xs| - 1])]
  }

  /** The seen set and the notices of a check. */
  datatype Scanned = Scanned(seen: seq<string>, notices: seq<Notice>)

  /** The seen set and the notices after the later-check loop has run over `sigs`. */
  function Scan(seen: seq<string>, sigs: seq<SigInfo>, parsed: string -> Option<ParsedTx>, wallet: string): Scanned
    decreases |sigs|
  {
    if sigs == [] then Scanned(seen, [])
    else Visit(Scan(seen, sigs[..|sigs| - 1], parsed, wallet), sigs[|sigs| - 1], parsed, wallet)
  }

  /** One pass of the loop body: skip a seen signature, else mark it and process it. */
  function Visit(r: Scanned, x: SigInfo, parsed: string -> Option<ParsedTx>, wallet: string): Scanned {
    if x.signature in r.seen then r
    else
      var n := NoticeOf(x, parsed(x.signature), wallet);
      Scanned(r.seen + [x.signature], r.notices + if n.Some? then [n.value] else [])
  }

  /** The loop body at `i`, stated as `Scan` of one more signature. */
  lemma ScanStep(seen: seq<string>, sigs: seq<SigInfo>, parsed: string -> Option<ParsedTx>, wallet: string, i: nat)
    requires i < |sigs|
    ensures Scan(seen, sigs[..i + 1], parsed, wallet) == Visit(Scan(seen, sigs[..i], parsed, wallet), sigs[i], parsed, wallet)
  {
    assert sigs[..i + 1][..i] == sigs[..i];
  }

  /**
   * The loop only adds: the seen set keeps its old entries in front, gains
   * exactly the listed signatures and stays free of duplicates.
   */
  lemma {:induction false} ScanSeen(seen: seq<string>, sigs: seq<SigInfo>, parsed: string -> Option<ParsedTx>, wallet: string)
    requires NoDup(seen)
    ensures var s := Scan(seen, sigs, parsed, wallet).seen;
      NoDup(s) && |seen| <= |s| && s[..|seen|] == seen
      && forall y :: y in s <==> y in seen || y in Ids(sigs, SigOf)
    decreases |sigs|
  {
    if sigs != [] {
      var init := sigs[..|sigs| - 1];
      ScanSeen(seen, init, parsed, wallet);
      var s := Scan(seen, init, parsed, wallet).seen;
      assert Ids(sigs, SigOf) == Ids(init, SigOf) + [sigs[|sigs| - 1].signature];
      assert (s + [sigs[|sigs| - 1].signature])[..|seen|] == seen;
    }
  }

  /** Every notice is for a signature the loop has just marked, and none is reported twice. */
  lemma {:induction false} ScanNotices(seen: seq<string>, sigs: seq<SigInfo>, parsed: string -> Option<ParsedTx>, wallet: string)
    requires NoDup(seen)
    ensures var r := Scan(seen, sigs, parsed, wallet);
      (forall n :: n in r.notices ==> n.signature in r.seen && n.signature !in seen) && NoDup(Ids(r.notices, NoticeSig))
    decreases |sigs|
  {
    if sigs != [] {
      var init := sigs[..|sigs| - 1];
      ScanNotices(seen, init, parsed, wallet);
      ScanSeen(seen, init, parsed, wallet);
      var r := Scan(seen, init, parsed, wallet);
      VisitKeepsNotices(seen, r, sigs[|sigs| - 1], parsed, wallet);
    }
  }

  /** One more pass of the loop body keeps every notice fresh and each reported once. */
  lemma VisitKeepsNotices(seen: seq<string>, r: Scanned, x: SigInfo, parsed: string -> Option<ParsedTx>, wallet: string)
    requires forall y :: y in seen ==> y in r.seen
    requires forall n :: n in r.notices ==> n.signature in r.seen && n.signature !in seen
    requires NoDup(Ids(r.notices, NoticeSig))
    ensures var r' := Visit(r, x, parsed, wallet);
      (forall n :: n in r'.notices ==> n.signature in r'.seen && n.signature !in seen) && NoDup(Ids(r'.notices, NoticeSig))
  {
    if x.signature !in r.seen {
      var n := NoticeOf(x, parsed(x.signature), wallet);
      if n.Some? {
        AppendNotice(r.notices, r.seen, n.value);
      }
    }
  }

  /** A notice for a signature none of the earlier notices has keeps the notice signatures distinct. */
  lemma AppendNotice(notices: seq<Notice>, seen: seq<string>, n: Notice)
    requires forall m :: m in notices ==> m.signature in seen
    requires NoDup(Ids(notices, NoticeSig)) && n.signature !in seen
    ensures NoDup(Ids(notices + [n], NoticeSig))
  {
    var ids := Ids(notices, NoticeSig);
    assert n.signature !in ids by {
      forall i | 0 <= i < |ids| ensures ids[i] != n.signature {
        assert notices[i] in notices;
      }
    }
    assert Ids(notices + [n], NoticeSig) == ids + [n.signature] by {
      assert (notices + [n])[..|notices|] == notices;
    }
    assert NoDup(ids + [n.signature]) by {
      forall i, j | 0 <= i < j < |ids| + 1 ensures (ids + [n.signature])[i] != (ids + [n.signature])[j] {
        if j == |ids| {
          assert ids[i] in ids;
        }
      }
    }
  }

  /**
   * One `checkRecentTransactions`: a failed listing changes nothing; the
   * first check (empty set) marks every listed signature and reports none;
   * a later check reports the unseen ones and trims the set to its newest
   * `Cap` entries.
   */
  function Checked(processed: seq<string>, listing: Option<seq<SigInfo>>, parsed: string -> Option<ParsedTx>, wallet: string): Scanned {
    if listing.None? then Scanned(processed, [])
    else if |processed| == 0 then Scanned(AddAll([], Ids(listing.value, SigOf)), [])
    else
      var r := Scan(processed, listing.value, parsed, wallet);
      Scanned(Newest(r.seen, Cap), r.notices)
  }

  /**
   * A check reports only signatures that were not in the set before it, each
   * at most once, reports nothing on the first check, and leaves at most
   * `Cap` entries after a later one.
   */
  lemma CheckReportsOnlyUnseen(processed: seq<string>, listing: Option<seq<SigInfo>>, parsed: string -> Option<ParsedTx>, wallet: string)
    requires NoDup(processed)
    ensures var r := Checked(processed, listing, parsed, wallet);
      NoDup(r.seen) && NoDup(Ids(r.notices, NoticeSig))
      && (forall n :: n in r.notices ==> n.signature !in processed)
      && (|processed| == 0 ==> r.notices == [])
      && (listing.Some? && |processed| > 0 ==> |r.seen| <= Cap)
  {
    if listing.Some? && |processed| > 0 {
      ScanSeen(processed, listing.value, parsed, wallet);
      ScanNotices(processed, listing.value, parsed, wallet);
    }
  }

  /**
   * The converse of `CheckReportsOnlyUnseen`: a later check loses no
   * transaction. A listed signature that was not in the set and whose
   * transaction yields a notice is reported.
   */
  lemma CheckReportsEveryUnseen(processed: seq<string>, listing: Option<seq<SigInfo>>, parsed: string -> Option<ParsedTx>,
                                wallet: string, x: SigInfo)
    requires NoDup(processed) && |processed| > 0 && listing.Some? && x in listing.value
    requires x.signature !in processed && NoticeOf(x, parsed(x.signature), wallet).Some?
    ensures exists n :: n in Checked(processed, listing, parsed, wallet).notices && n.signature == x.signature
  {
    ScanReportsUnseen(processed, listing.value, parsed, wallet, x);
  }

  /** The loop reports every listed signature that was not seen before and has a notice. */
  lemma {:induction false} ScanReportsUnseen(seen: seq<string>, sigs: seq<SigInfo>, parsed: string -> Option<ParsedTx>,
                                             wallet: string, x: SigInfo)
    requires NoDup(seen) && x in sigs && x.signature !in seen && NoticeOf(x, parsed(x.signature), wallet).Some?
    ensures exists n :: n in Scan(seen, sigs, parsed, wallet).notices && n.signature == x.signature
    decreases |sigs|
  {
    var init := sigs[..|sigs| - 1];
    var last := sigs[|sigs| - 1];
    var r := Scan(seen, init, parsed, wallet);
    assert sigs == init + [last];
    if x in init {
      ScanReportsUnseen(seen, init, parsed, wallet, x);
      var n :| n in r.notices && n.signature == x.signature;
      assert n in Scan(seen, sigs, parsed, wallet).notices;
    } else if x.signature in r.seen {
      ScanSeen(seen, init, parsed, wallet);
      var ids := Ids(init, SigOf);
      var j :| 0 <= j < |ids| && ids[j] == x.signature;
      var u := init[j];
      assert u.signature == x.signature;
      ScanReportsUnseen(seen, init, parsed, wallet, u);
      var n :| n in r.notices && n.signature == x.signature;
      assert n in Scan(seen, sigs, parsed, wallet).notices;
    } else {
      assert x == last;
      var n := NoticeOf(x, parsed(x.signature), wallet);
      assert n.value in Scan(seen, sigs, parsed, wallet).notices;
    }
  }

  /** The monitor object. */
  class SolanaMonitor {
    const wallet: string
    var processed: seq<string>
    var subscriptionId: Option<nat>

    ghost predicate Valid()
      reads this
    {
      NoDup(processed)
    }

    constructor (wallet: string)
      ensures Valid() && this.wallet == wallet && processed == [] && subscriptionId == None
    {
      this.wallet := wallet;
      processed := [];
      subscriptionId := None;
    }

    /** `start`: register the listener, then run the initial (seeding) check. */
    method Start(listener: nat, listing: Option<seq<SigInfo>>, parsed: string -> Option<ParsedTx>) returns (notices: seq<Notice>)
      requires Valid()
      modifies this
      ensures Valid() && subscriptionId == Some(listener)
      ensures Scanned(processed, notices) == Checked(old(processed), listing, parsed, wallet)
    {
      subscriptionId := Some(listener);
      notices := CheckRecentTransactions(listing, parsed);
    }

    /** `checkRecentTransactions`. */
    method CheckRecentTransactions(listing: Option<seq<SigInfo>>, parsed: string -> Option<ParsedTx>) returns (notices: seq<Notice>)
      requires Valid()
      modifies this
      ensures Valid() && subscriptionId == old(subscriptionId)
      ensures Scanned(processed, notices) == Checked(old(processed), listing, parsed, wallet)
    {
      CheckReportsOnlyUnseen(processed, listing, parsed, wallet);
      notices := [];
      if listing.None? {
        return;
      }
      if |processed| == 0 {
        processed := Seed(listing.value);
        return;
      }
      var seen;
      seen, notices := ScanListing(processed, listing.value, parsed);
      if |seen| > Cap {
        seen := seen[|seen| - Cap..];
      }
      processed := seen;
    }

    /** The first check's loop: mark every listed signature. */
    method Seed(sigs: seq<SigInfo>) returns (seen: seq<string>)
      ensures seen == AddAll([], Ids(sigs, SigOf))
    {
      seen := [];
      for i := 0 to |sigs|
        invariant seen == AddAll([], Ids(sigs[..i], SigOf))
      {
        assert Ids(sigs[..i + 1], SigOf) == Ids(sigs[..i], SigOf) + [sigs[i].signature];
        seen := Add(seen, sigs[i].signature);
      }
      assert sigs[..|sigs|] == sigs;
    }

    /** A later check's loop: skip the seen, mark and process the rest. */
    method ScanListing(before: seq<string>, sigs: seq<SigInfo>, parsed: string -> Option<ParsedTx>) returns (seen: seq<string>, notices: seq<Notice>)
      ensures Scanned(seen, notices) == Scan(before, sigs, parsed, wallet)
    {
      seen, notices := before, [];
      for i := 0 to |sigs|
        invariant Scanned(seen, notices) == Scan(before, sigs[..i], parsed, wallet)
      {
        ScanStep(before, sigs, parsed, wallet, i);
        var x := sigs[i];
        if x.signature !in seen {
          seen := seen + [x.signature];
          var n := NoticeOf(x, parsed(x.signature), wallet);
          if n.Some? {
            notices := notices + [n.value];
          }
        }
      }
      assert sigs[..|sigs|] == sigs;
    }

    /** `stop`: the listener to remove, when one was registered. */
    method Stop() returns (removed: Option<nat>)
      ensures removed == subscriptionId
    {
      removed := subscriptionId;
    }
  }
}
