/**
 * The ingestion service of backend/services/walletService.js: deduplicating
 * persistence of normalised records, the alert hand-off, address
 * normalisation, the Tron checkpoint, and the per-chain refresh.
 *
 * The transaction collection is a map from its unique key
 * (hash, wallet, token) to the stored row; the wallet collection a map from
 * address to wallet document. Writers running concurrently with a save are
 * represented by the rows they commit between the existence probe and the
 * batch insert (`racing`).
 */
module WalletService {
  import opened Base
  import opened Text
  import opened Canonical
  import RunningBots

  // ---------------------------------------------------------------- keys

  /** `walletTypeToTxType`: the default `txType` of a wallet type, compared case-insensitively. */
  function TxTypeOf(walletType: string): (r: string)
    ensures r in {"bnb", "tron", "btc", "ltc", "sol", "eth"}
  {
    var w := ToLower(Trim(walletType));
    if w == "bnb" then "bnb"
    else if w == "tron" then "tron"
    else if w == "bitcoin" then "btc"
    else if w == "litecoin" then "ltc"
    else if w == "solana" then "sol"
    else "eth"
  }

  /** The native token symbol of a wallet type, compared exactly; `ETH` for anything else. */
  function NativeToken(walletType: string): (r: string)
    ensures |r| == 3
  {
    if walletType == "BNB" then "BNB"
    else if walletType == "Tron" then "TRX"
    else if walletType == "Bitcoin" then "BTC"
    else if walletType == "Litecoin" then "LTC"
    else if walletType == "Solana" then "SOL"
    else "ETH"
  }

  /**
   * The token part of a record's key: the trimmed token of a token transfer
   * (possibly empty), otherwise the record's token or the chain's native symbol.
   */
  function TokenValue(tx: Tx, walletType: string): (r: string)
    ensures tx.txType == "token" ==> r == Trim(tx.token)
    ensures tx.txType != "token" ==> r != "" && (tx.token != "" ==> r == tx.token)
  {
    if tx.txType == "token" then Trim(tx.token)
    else if tx.token != "" then tx.token
    else NativeToken(walletType)
  }

  /** The unique key of the transaction collection. */
  datatype Key = Key(hash: string, wallet: string, token: string)

  /** An entry of `withKey`: a record together with its key. */
  datatype Candidate = Candidate(tx: Tx, key: Key)

  /** The key a record gets when saved for `wallet`. */
  function KeyFor(tx: Tx, wallet: string, walletType: string): Key {
    Key(Trim(tx.hash), wallet, TokenValue(tx, walletType))
  }

  /** `withKey`: the records whose trimmed hash is non-empty, keyed, in input order. */
  function Candidates(txs: seq<Tx>, wallet: string, walletType: string): (cs: seq<Candidate>)
    ensures |cs| <= |txs|
    ensures forall i :: 0 <= i < |cs| ==>
      cs[i].tx in txs && cs[i].key == KeyFor(cs[i].tx, wallet, walletType) && cs[i].key.hash != ""
    decreases |txs|
  {
    if txs == [] then []
    else
      var cs := Candidates(txs[..|txs| - 1], wallet, walletType);
      var tx := txs[|txs| - 1];
      var hash := Trim(tx.hash);
      if hash == "" then cs else cs + [Candidate(tx, Key(hash, wallet, TokenValue(tx, walletType)))]
  }

  /** A record with a non-blank hash becomes a candidate. */
  lemma {:induction false} CandidatesKeepNonBlank(txs: seq<Tx>, wallet: string, walletType: string, i: nat)
    requires i < |txs| && Trim(txs[i].hash) != ""
    ensures Candidate(txs[i], KeyFor(txs[i], wallet, walletType)) in Candidates(txs, wallet, walletType)
    decreases |txs|
  {
    if i < |txs| - 1 {
      CandidatesKeepNonBlank(txs[..|txs| - 1], wallet, walletType, i);
    }
  }

  function KeysOf(cs: seq<Candidate>): set<Key> {
    set c | c in cs :: c.key
  }

  /** `toInsert`: the candidates whose key the probe did not find, in order. */
  function Fresh(cs: seq<Candidate>, stored: set<Key>): (r: seq<Candidate>)
    ensures |r| <= |cs|
    ensures forall c :: c in r <==> c in cs && c.key !in stored
    decreases |cs|
  {
    if cs == [] then []
    else
      var r := Fresh(cs[..|cs| - 1], stored);
      var c := cs[|cs| - 1];
      if c.key in stored then r else r + [c]
  }

  /**
   * The candidates whose write succeeds in an unordered batch insert: a write
   * fails when its key is already present, whether from before the batch or
   * from an earlier document of the same batch.
   */
  function Landing(cs: seq<Candidate>, present: set<Key>): (r: seq<Candidate>)
    ensures |r| <= |cs|
    ensures forall c :: c in r ==> c in cs && c.key !in present
    decreases |cs|
  {
    if cs == [] then []
    else
      var r := Landing(cs[..|cs| - 1], present);
      if Lands(cs, present, |cs| - 1) then r + [cs[|cs| - 1]] else r
  }

  /** The writes landed by a prefix of the batch are a prefix of those landed by the batch. */
  lemma {:induction false} LandingPrefix(cs: seq<Candidate>, present: set<Key>, n: nat)
    requires n <= |cs|
    ensures |Landing(cs[..n], present)| <= |Landing(cs, present)|
    decreases |cs| - n
  {
    if n < |cs| {
      LandingPrefix(cs, present, n + 1);
      assert cs[..n + 1][..n] == cs[..n];
    } else {
      assert cs[..n] == cs;
    }
  }

  /** The indices of the batch whose write fails (`failedIndices`). */
  function FailedIndices(cs: seq<Candidate>, present: set<Key>): set<nat>
    decreases |cs|
  {
    if cs == [] then {}
    else FailedIndices(cs[..|cs| - 1], present) + (if Lands(cs, present, |cs| - 1) then {} else {|cs| - 1})
  }

  lemma {:induction false} FailedMembers(cs: seq<Candidate>, present: set<Key>, x: nat)
    ensures x in FailedIndices(cs, present) <==> x < |cs| && !Lands(cs, present, x)
    decreases |cs|
  {
    if cs != [] {
      var n := |cs| - 1;
      FailedMembers(cs[..n], present, x);
      if x < n {
        assert cs[..n][x] == cs[x] && cs[..n][..x] == cs[..x];
      }
    }
  }

  /** Whether the write of the `i`-th document succeeds. */
  predicate Lands(cs: seq<Candidate>, present: set<Key>, i: nat)
    requires i < |cs|
  {
    cs[i].key !in present && cs[i].key !in KeysOf(cs[..i])
  }

  /** The batch writes land on pairwise distinct keys. */
  lemma {:induction false} LandingDistinct(cs: seq<Candidate>, present: set<Key>)
    ensures forall i, j :: 0 <= i < j < |Landing(cs, present)| ==>
      Landing(cs, present)[i].key != Landing(cs, present)[j].key
    decreases |cs|
  {
    if cs != [] {
      var n := |cs| - 1;
      LandingDistinct(cs[..n], present);
      var r := Landing(cs[..n], present);
      forall c | c in r ensures c.key in KeysOf(cs[..n]) {
      }
    }
  }

  /** Every key of the batch is present afterwards: the landed ones were written, the others already were. */
  lemma {:induction false} LandingCovers(cs: seq<Candidate>, present: set<Key>)
    ensures KeysOf(cs) <= present + KeysOf(Landing(cs, present))
    decreases |cs|
  {
    if cs != [] {
      var n := |cs| - 1;
      LandingCovers(cs[..n], present);
      assert cs == cs[..n] + [cs[n]];
      assert KeysOf(cs) == KeysOf(cs[..n]) + {cs[n].key};
      var r := Landing(cs[..n], present);
      assert KeysOf(r) <= KeysOf(Landing(cs, present));
    }
  }

  // ---------------------------------------------------------------- rows

  /** `String(tx.walletType || walletType).trim() || 'Ethereum'`. */
  function StoredWalletType(txWalletType: string, walletType: string): (r: string)
    ensures r != ""
  {
    var w := Trim(if txWalletType != "" then txWalletType else walletType);
    if w != "" then w else "Ethereum"
  }

  /** The stored `txType`: token transfers stay `token`; a missing or `eth` type becomes the wallet's default. */
  function StoredTxType(txType: string, walletType: string): (r: string)
    ensures r != ""
    ensures txType != "" && txType != "eth" ==> r == txType
  {
    if txType == "token" then "token"
    else if txType != "" && txType != "eth" then txType
    else TxTypeOf(walletType)
  }

  /** The document written for a candidate. */
  function Doc(c: Candidate, walletType: string): (d: Tx)
    ensures d.hash == c.key.hash && d.token == c.key.token
  {
    var tx := c.tx;
    Tx(c.key.hash, StoredWalletType(tx.walletType, walletType), StoredTxType(tx.txType, walletType),
      c.key.token, Trim(tx.methodName), Trim(tx.block), Trim(tx.age), Trim(tx.from), Trim(tx.to),
      Trim(tx.inOut), tx.amount, tx.status)
  }

  /** A new record as reported to the caller: the input record with its wallet type filled in. */
  function Announce(c: Candidate, walletType: string): (t: Tx)
    ensures t == c.tx.(walletType := t.walletType) && t.walletType != ""
  {
    c.tx.(walletType := StoredWalletType(c.tx.walletType, walletType))
  }

  function Announced(cs: seq<Candidate>, walletType: string): (r: seq<Tx>)
    ensures |r| == |cs|
    ensures forall i :: 0 <= i < |cs| ==> r[i] == Announce(cs[i], walletType)
  {
    seq(|cs|, i requires 0 <= i < |cs| => Announce(cs[i], walletType))
  }

  /** One more document of the batch: the write lands exactly when its key is not yet in the collection. */
  lemma InsertStep(rows: map<Key, Tx>, docs: seq<Candidate>, walletType: string, k: nat)
    requires k < |docs|
    ensures var m := InsertAll(rows, docs[..k], walletType);
      (docs[k].key in m <==> !Lands(docs, rows.Keys, k))
      && InsertAll(rows, docs[..k + 1], walletType) == (if docs[k].key in m then m else m[docs[k].key := Doc(docs[k], walletType)])
    ensures FailedIndices(docs[..k + 1], rows.Keys)
      == FailedIndices(docs[..k], rows.Keys) + (if Lands(docs, rows.Keys, k) then {} else {k})
    ensures Landing(docs[..k + 1], rows.Keys)
      == Landing(docs[..k], rows.Keys) + (if Lands(docs, rows.Keys, k) then [docs[k]] else [])
  {
    InsertAllStep(rows, docs, walletType, k);
    PrefixLands(docs, rows.Keys, k);
    assert FailedIndices(docs[..k + 1], rows.Keys)
      == FailedIndices(docs[..k + 1][..k], rows.Keys) + (if Lands(docs[..k + 1], rows.Keys, k) then {} else {k});
    assert Landing(docs[..k + 1], rows.Keys)
      == Landing(docs[..k + 1][..k], rows.Keys) + (if Lands(docs[..k + 1], rows.Keys, k) then [docs[..k + 1][k]] else []);
  }

  /** The prefix through `k` decides the write of document `k` as the whole batch does. */
  lemma PrefixLands(docs: seq<Candidate>, present: set<Key>, k: nat)
    requires k < |docs|
    ensures docs[..k + 1][..k] == docs[..k] && docs[..k + 1][k] == docs[k]
    ensures Lands(docs[..k + 1], present, k) == Lands(docs, present, k)
  {
    assert docs[..k + 1][..k] == docs[..k];
  }

  /** `InsertAll` at one more document. */
  lemma InsertAllStep(rows: map<Key, Tx>, docs: seq<Candidate>, walletType: string, k: nat)
    requires k < |docs|
    ensures var m := InsertAll(rows, docs[..k], walletType);
      (docs[k].key in m <==> !Lands(docs, rows.Keys, k))
      && InsertAll(rows, docs[..k + 1], walletType) == (if docs[k].key in m then m else m[docs[k].key := Doc(docs[k], walletType)])
  {
    PrefixLands(docs, rows.Keys, k);
  }

  /** The unordered batch insert applied to the collection. */
  function InsertAll(rows: map<Key, Tx>, cs: seq<Candidate>, walletType: string): (r: map<Key, Tx>)
    ensures r.Keys == rows.Keys + KeysOf(cs)
    ensures forall k :: k in rows ==> r[k] == rows[k]
    decreases |cs|
  {
    if cs == [] then rows
    else
      var m := InsertAll(rows, cs[..|cs| - 1], walletType);
      var c := cs[|cs| - 1];
      assert cs == cs[..|cs| - 1] + [c];
      if c.key in m then m else m[c.key := Doc(c, walletType)]
  }

  // ---------------------------------------------------------------- save

  datatype SaveResult = SaveResult(newCount: nat, newTransactions: seq<Tx>)

  /** The duplicate-key error rethrown when every write of the batch failed. */
  datatype SaveError = AllWritesDuplicate

  /**
   * The result of `saveTransactions` given the keys stored before the call and
   * the keys concurrent writers commit between the probe and the insert.
   */
  function SaveOutcome(txs: seq<Tx>, wallet: string, walletType: string, stored: set<Key>, raced: set<Key>)
    : (r: Result<SaveResult, SaveError>)
    ensures r.Ok? ==> r.value.newCount == |r.value.newTransactions| <= |txs|
    ensures r.Err? ==> raced != {}
  {
    var cs := Candidates(txs, wallet, walletType);
    var pending := Fresh(cs, stored);
    if cs == [] || pending == [] then Ok(SaveResult(0, []))
    else
      var landed := Landing(pending, stored + raced);
      if landed == [] then
        LandingCovers(pending, stored + raced);
        assert pending[0].key in KeysOf(pending);
        Err(AllWritesDuplicate)
      else Ok(SaveResult(|landed|, Announced(landed, walletType)))
  }

  /** The collection after `saveTransactions`. */
  function RowsAfterSave(rows: map<Key, Tx>, racing: map<Key, Tx>, txs: seq<Tx>, wallet: string, walletType: string)
    : map<Key, Tx>
  {
    var cs := Candidates(txs, wallet, walletType);
    var pending := Fresh(cs, rows.Keys);
    if cs == [] || pending == [] then rows else InsertAll(racing + rows, pending, walletType)
  }

  /**
   * Every reported record is new: its key was absent before the call, no two
   * reported records share a key, and its hash is not blank.
   */
  lemma ReportedAreNew(txs: seq<Tx>, wallet: string, walletType: string, stored: set<Key>, raced: set<Key>)
    ensures var r := SaveOutcome(txs, wallet, walletType, stored, raced);
      r.Ok? ==> forall i :: 0 <= i < |r.value.newTransactions| ==>
        var t := r.value.newTransactions[i];
        Trim(t.hash) != "" && KeyFor(t, wallet, walletType) !in stored + raced
        && forall j :: 0 <= j < |r.value.newTransactions| && j != i ==>
             KeyFor(r.value.newTransactions[j], wallet, walletType) != KeyFor(t, wallet, walletType)
  {
    var cs := Candidates(txs, wallet, walletType);
    var pending := Fresh(cs, stored);
    if cs != [] && pending != [] {
      var landed := Landing(pending, stored + raced);
      LandingDistinct(pending, stored + raced);
      forall i | 0 <= i < |landed|
        ensures KeyFor(Announce(landed[i], walletType), wallet, walletType) == landed[i].key
      {
        assert landed[i] in pending;
      }
    }
  }

  /** After a save, every key of the batch is stored. */
  lemma SavedAreStored(rows: map<Key, Tx>, racing: map<Key, Tx>, txs: seq<Tx>, wallet: string, walletType: string)
    ensures KeysOf(Candidates(txs, wallet, walletType)) <= RowsAfterSave(rows, racing, txs, wallet, walletType).Keys
    ensures rows.Keys <= RowsAfterSave(rows, racing, txs, wallet, walletType).Keys
    ensures forall k :: k in rows ==> RowsAfterSave(rows, racing, txs, wallet, walletType)[k] == rows[k]
  {
    var cs := Candidates(txs, wallet, walletType);
    var after := RowsAfterSave(rows, racing, txs, wallet, walletType);
    forall c | c in cs ensures c.key in after.Keys {
    }
  }

  /** A batch whose every key is already stored inserts and reports nothing, whatever concurrent writers do. */
  lemma AllStoredNoOp(rows: map<Key, Tx>, racing: map<Key, Tx>, txs: seq<Tx>, wallet: string, walletType: string)
    requires KeysOf(Candidates(txs, wallet, walletType)) <= rows.Keys
    ensures SaveOutcome(txs, wallet, walletType, rows.Keys, racing.Keys) == Ok(SaveResult(0, []))
    ensures RowsAfterSave(rows, racing, txs, wallet, walletType) == rows
  {
    var cs := Candidates(txs, wallet, walletType);
    var pending := Fresh(cs, rows.Keys);
  }

  /** Saving the same batch again, once the first save's writes are in, inserts and reports nothing. */
  lemma ReplayIsNoOp(rows: map<Key, Tx>, racing: map<Key, Tx>, later: map<Key, Tx>,
                     txs: seq<Tx>, wallet: string, walletType: string)
    ensures var after := RowsAfterSave(rows, racing, txs, wallet, walletType);
      SaveOutcome(txs, wallet, walletType, after.Keys, later.Keys) == Ok(SaveResult(0, []))
      && RowsAfterSave(after, later, txs, wallet, walletType) == after
  {
    SavedAreStored(rows, racing, txs, wallet, walletType);
    AllStoredNoOp(RowsAfterSave(rows, racing, txs, wallet, walletType), later, txs, wallet, walletType);
  }

  /**
   * The same transaction hash with two different tokens gives two keys, so a
   * first save of both stores and reports both.
   */
  lemma SameHashDistinctTokens(a: Tx, b: Tx, wallet: string, walletType: string, stored: set<Key>, raced: set<Key>)
    requires Trim(a.hash) != "" && Trim(a.hash) == Trim(b.hash)
    requires TokenValue(a, walletType) != TokenValue(b, walletType)
    requires KeyFor(a, wallet, walletType) !in stored + raced && KeyFor(b, wallet, walletType) !in stored + raced
    ensures SaveOutcome([a, b], wallet, walletType, stored, raced).Ok?
    ensures SaveOutcome([a, b], wallet, walletType, stored, raced).value.newCount == 2
  {
    var ka := KeyFor(a, wallet, walletType);
    var kb := KeyFor(b, wallet, walletType);
    assert [a, b][..1] == [a];
    assert [a][..0] == [];
    assert Candidates([a], wallet, walletType) == [Candidate(a, ka)];
    var cs := Candidates([a, b], wallet, walletType);
    assert cs == [Candidate(a, ka), Candidate(b, kb)];
    assert Fresh(cs, stored) == cs by {
      assert cs[..1] == [Candidate(a, ka)];
      assert cs[..1][..0] == [];
    }
    assert ka != kb;
    assert cs[..1] == [Candidate(a, ka)];
    assert cs[..1][..0] == [];
    assert KeysOf(cs[..1]) == {ka};
    assert Landing(cs[..1], stored + raced) == [Candidate(a, ka)];
    assert Landing(cs, stored + raced) == cs;
  }

  /** A record repeated within one batch is written and reported once. */
  lemma RepeatedInBatchReportedOnce(a: Tx, wallet: string, walletType: string, stored: set<Key>, raced: set<Key>)
    requires Trim(a.hash) != "" && KeyFor(a, wallet, walletType) !in stored + raced
    ensures var r := SaveOutcome([a, a], wallet, walletType, stored, raced);
      r.Ok? && r.value.newCount == 1 && r.value.newTransactions == [Announce(Candidate(a, KeyFor(a, wallet, walletType)), walletType)]
  {
    var ca := Candidate(a, KeyFor(a, wallet, walletType));
    CandidatesOfPair(a, a, wallet, walletType);
    var cs := [ca, ca];
    assert cs[..1] == [ca] && cs[..1][..0] == [];
    assert Fresh(cs, stored) == cs;
    assert KeysOf(cs[..1]) == {ca.key};
    assert Landing(cs, stored + raced) == [ca];
  }

  lemma CandidatesOfPair(a: Tx, b: Tx, wallet: string, walletType: string)
    requires Trim(a.hash) != "" && Trim(b.hash) != ""
    ensures Candidates([a, b], wallet, walletType)
      == [Candidate(a, KeyFor(a, wallet, walletType)), Candidate(b, KeyFor(b, wallet, walletType))]
  {
    assert [a, b][..1] == [a];
    assert [a][..0] == [];
  }

  /** Without concurrent writers a save never fails, and it reports every pending record whose key is unique in the batch. */
  lemma NoRaceNoError(txs: seq<Tx>, wallet: string, walletType: string, stored: set<Key>)
    ensures SaveOutcome(txs, wallet, walletType, stored, {}).Ok?
    ensures var pending := Fresh(Candidates(txs, wallet, walletType), stored);
      forall c :: c in pending && (forall d :: d in pending && d.key == c.key ==> d == c) ==>
        Announce(c, walletType) in SaveOutcome(txs, wallet, walletType, stored, {}).value.newTransactions
  {
    var pending := Fresh(Candidates(txs, wallet, walletType), stored);
    var landed := Landing(pending, stored + {});
    LandingCovers(pending, stored + {});
    forall c | c in pending && (forall d :: d in pending && d.key == c.key ==> d == c)
      ensures Announce(c, walletType) in SaveOutcome(txs, wallet, walletType, stored, {}).value.newTransactions
    {
      assert c.key in KeysOf(pending);
      var d :| d in landed && d.key == c.key;
      var i :| 0 <= i < |landed| && landed[i] == d;
      assert Announced(landed, walletType)[i] == Announce(c, walletType);
    }
  }

  /** When concurrent writers took every pending key, the whole batch fails with the duplicate-key error. */
  lemma AllRacedIsError(txs: seq<Tx>, wallet: string, walletType: string, stored: set<Key>, raced: set<Key>)
    requires Fresh(Candidates(txs, wallet, walletType), stored) != []
    requires forall c :: c in Fresh(Candidates(txs, wallet, walletType), stored) ==> c.key in raced
    ensures SaveOutcome(txs, wallet, walletType, stored, raced) == Err(AllWritesDuplicate)
  {
    var pending := Fresh(Candidates(txs, wallet, walletType), stored);
    var landed := Landing(pending, stored + raced);
  }

  // ---------------------------------------------------------------- storage

  /** The collections the service writes: wallet documents by address and transaction rows by key. */
  class Storage {
    var wallets: map<string, WalletDoc>
    var rows: map<Key, Tx>

    constructor ()
      ensures wallets == map[] && rows == map[]
    {
      wallets := map[];
      rows := map[];
    }

    /**
     * `saveTransactions`: keys the batch, probes the collection, inserts the
     * records not found with an unordered batch insert, and reports the
     * records whose write succeeded.
     */
    method SaveTransactions(txs: seq<Tx>, wallet: string, walletType: string, racing: map<Key, Tx>)
      returns (r: Result<SaveResult, SaveError>)
      modifies this
      ensures r == SaveOutcome(txs, wallet, walletType, old(rows).Keys, racing.Keys)
      ensures rows == RowsAfterSave(old(rows), racing, txs, wallet, walletType)
      ensures wallets == old(wallets)
    {
      var withKey := KeyBatch(txs, wallet, walletType);
      if withKey == [] {
        return Ok(SaveResult(0, []));
      }
      var toInsert := NotStored(withKey);
      if toInsert == [] {
        return Ok(SaveResult(0, []));
      }
      // Concurrent writers commit between the probe and the batch insert.
      rows := racing + rows;
      ghost var present := rows.Keys;
      assert present == old(rows).Keys + racing.Keys;
      var failed, inserted := InsertMany(toInsert, walletType);
      assert rows == RowsAfterSave(old(rows), racing, txs, wallet, walletType);
      ghost var landed := Landing(toInsert, present);
      if failed != {} && inserted == 0 {
        assert landed == [];
        return Err(AllWritesDuplicate);
      }
      if failed == {} {
        NoFailureLands(toInsert, present);
      }
      var newTransactions := Reported(toInsert, failed, present, walletType);
      return Ok(SaveResult(inserted, newTransactions));
    }

    /** A non-empty batch in which no write fails lands at least its first document. */
    static lemma NoFailureLands(docs: seq<Candidate>, present: set<Key>)
      requires docs != [] && FailedIndices(docs, present) == {}
      ensures Landing(docs, present) != []
    {
      FailedMembers(docs, present, 0);
      assert Lands(docs, present, 0);
      assert docs[..1][..0] == [] && docs[..1] == [docs[0]];
      assert Landing(docs[..1], present) == [docs[0]];
      LandingPrefix(docs, present, 1);
    }

    /** The probe and `toInsert` filter: the candidates whose key is not stored yet. */
    method NotStored(withKey: seq<Candidate>) returns (toInsert: seq<Candidate>)
      ensures toInsert == Fresh(withKey, rows.Keys)
    {
      var existing := set c | c in withKey && c.key in rows :: c.key;
      toInsert := [];
      var j := 0;
      while j < |withKey|
        invariant 0 <= j <= |withKey|
        invariant toInsert == Fresh(withKey[..j], rows.Keys)
      {
        var c := withKey[j];
        if c.key !in existing {
          toInsert := toInsert + [c];
        }
        assert withKey[..j + 1][..j] == withKey[..j];
        j := j + 1;
      }
      assert withKey[..j] == withKey;
    }

    /**
     * `insertMany(docs, { ordered: false })`: every document is attempted; a
     * write fails on a key already present. Returns the failed indices and the
     * number of documents inserted.
     */
    method InsertMany(docs: seq<Candidate>, walletType: string) returns (failed: set<nat>, inserted: nat)
      modifies this
      ensures rows == InsertAll(old(rows), docs, walletType)
      ensures failed == FailedIndices(docs, old(rows).Keys)
      ensures inserted == |Landing(docs, old(rows).Keys)|
      ensures wallets == old(wallets)
    {
      ghost var present := rows.Keys;
      failed := {};
      inserted := 0;
      var k := 0;
      while k < |docs|
        invariant 0 <= k <= |docs|
        invariant rows == InsertAll(old(rows), docs[..k], walletType)
        invariant failed == FailedIndices(docs[..k], present)
        invariant inserted == |Landing(docs[..k], present)|
        invariant wallets == old(wallets)
      {
        var c := docs[k];
        InsertStep(old(rows), docs, walletType, k);
        if c.key in rows {
          failed := failed + {k};
        } else {
          rows := rows[c.key := Doc(c, walletType)];
          inserted := inserted + 1;
        }
        k := k + 1;
      }
      assert docs[..k] == docs;
    }

    /** The two saves of a refresh: the records, then (if that succeeded) the token records. */
    method SaveBatches(txs: seq<Tx>, tokenTxs: seq<Tx>, wallet: string, walletType: string,
                       racing1: map<Key, Tx>, racing2: map<Key, Tx>)
      returns (r: Result<seq<Tx>, SaveError>)
      modifies this
      ensures BothSaved(r, rows) == SaveBoth(old(rows), racing1, racing2, txs, tokenTxs, wallet, walletType)
      ensures wallets == old(wallets)
    {
      var r1 := SaveTransactions(txs, wallet, walletType, racing1);
      if r1.Err? {
        return Err(r1.error);
      }
      var r2 := SaveTransactions(tokenTxs, wallet, walletType, racing2);
      if r2.Err? {
        return Err(r2.error);
      }
      return Ok(r1.value.newTransactions + r2.value.newTransactions);
    }

    /**
     * `addOrUpdateWallet*` for one chain (see `RefreshSpec` for the parameters):
     * validates the address, returns a stored wallet as is unless forced,
     * fetches, saves the wallet, saves the records and the token records, and
     * hands the new ones to Discord, touching `lastFetched` again.
     */
    method Refresh(chain: Chain, address: string, forceRefresh: bool, silent: bool,
                   fetch: (string, Option<int>) -> Result<ChainFetch, string>,
                   racing1: map<Key, Tx>, racing2: map<Key, Tx>,
                   webhooks: map<RunningBots.WalletKey, string>, now: int, later: int)
      returns (r: Result<Refreshed, RefreshError>, alert: Option<Alert>)
      modifies this
      ensures RefreshRun(r, alert, Store(wallets, rows))
        == RefreshSpec(chain, address, forceRefresh, silent, fetch, racing1, racing2, webhooks, now, later, Store(old(wallets), old(rows)))
    {
      var n := NormalizeAddress(chain, address);
      if n.Err? {
        return Err(n.error), None;
      }
      var a := n.value;
      var existing := if a in wallets then Some(wallets[a]) else None;
      if existing.Some? && !forceRefresh {
        return Ok(Refreshed(a, false, [])), None;
      }
      var fetched := fetch(a, MinBlockTs(chain, existing));
      if fetched.Err? {
        return Err(FetchFailed(fetched.error)), None;
      }
      var f := fetched.value;
      RefreshFetches(chain, address, forceRefresh, silent, fetch, racing1, racing2, webhooks, now, later, Store(wallets, rows), f);
      r, alert := RefreshFetched(chain, silent, a, existing, f, racing1, racing2, webhooks, now, later);
    }

    /** The part of a refresh after a successful fetch. */
    method RefreshFetched(chain: Chain, silent: bool, a: string, existing: Option<WalletDoc>, f: ChainFetch,
                          racing1: map<Key, Tx>, racing2: map<Key, Tx>,
                          webhooks: map<RunningBots.WalletKey, string>, now: int, later: int)
      returns (r: Result<Refreshed, RefreshError>, alert: Option<Alert>)
      modifies this
      ensures RefreshRun(r, alert, Store(wallets, rows))
        == AfterFetch(chain, silent, a, existing, f, racing1, racing2, webhooks, now, later, Store(old(wallets), old(rows)))
    {
      var wt := WalletTypeName(chain);
      ghost var b := SaveBoth(rows, racing1, racing2, f.transactions, f.tokenTransactions, a, wt);
      ghost var before := wallets;
      wallets := wallets[a := Fetched(chain, a, existing, f, now)];
      var saved := SaveBatches(f.transactions, f.tokenTransactions, a, wt, racing1, racing2);
      assert b == BothSaved(saved, rows);
      r, alert := Conclude(chain, silent, a, existing, f, saved, webhooks, now, later, before);
    }

    /**
     * The end of a refresh once both batches are saved: a failed save is the
     * result; new records raise the alert and stamp `lastFetched` again.
     */
    method Conclude(chain: Chain, silent: bool, a: string, existing: Option<WalletDoc>, f: ChainFetch,
                    saved: Result<seq<Tx>, SaveError>, webhooks: map<RunningBots.WalletKey, string>,
                    now: int, later: int, ghost before: map<string, WalletDoc>)
      returns (r: Result<Refreshed, RefreshError>, alert: Option<Alert>)
      requires wallets == before[a := Fetched(chain, a, existing, f, now)]
      modifies this
      ensures RefreshRun(r, alert, Store(wallets, rows))
        == AfterSaves(chain, silent, a, existing, f, BothSaved(saved, rows), webhooks, now, later, before)
      ensures rows == old(rows)
    {
      if saved.Err? {
        return Err(SaveFailed(saved.error)), None;
      }
      var allNew := saved.value;
      alert := None;
      if allNew != [] && Notifies(chain, silent) {
        alert := NotifyRequest(webhooks, WalletTypeName(chain), a, allNew);
        FetchedLater(chain, a, existing, f, now, later);
        wallets := wallets[a := wallets[a].(lastFetched := Some(later))];
        assert wallets == before[a := Fetched(chain, a, existing, f, later)];
      }
      r := Ok(Refreshed(a, true, allNew));
    }

    /** One iteration of `refreshAllWallets`: a forced Ethereum refresh, its failure caught into the report. */
    method RefreshOne(address: string, fetch: (string, Option<int>) -> Result<ChainFetch, string>,
                      webhooks: map<RunningBots.WalletKey, string>, now: int, later: int)
      returns (report: RefreshReport, alert: Option<Alert>)
      modifies this
      ensures var one := ForcedRefresh(fetch, webhooks, now, later)(address, Store(old(wallets), old(rows)));
        report == ReportOf(address, one.result) && alert == one.alert && Store(wallets, rows) == one.store
    {
      var r;
      r, alert := Refresh(Ethereum, address, true, false, fetch, map[], map[], webhooks, now, later);
      report := if r.Ok? then RefreshReport(address, true, None) else RefreshReport(address, false, Some(r.error));
    }

    /**
     * `refreshAllWallets`: refreshes every stored wallet, in the order the query
     * lists them, always as an Ethereum wallet; a failure is recorded and the
     * loop goes on.
     */
    method RefreshAll(addresses: seq<string>, fetch: (string, Option<int>) -> Result<ChainFetch, string>,
                      webhooks: map<RunningBots.WalletKey, string>, now: int, later: int)
      returns (reports: seq<RefreshReport>, alerts: seq<Alert>)
      modifies this
      ensures RefreshAllRun(reports, alerts, Store(wallets, rows))
        == RefreshAllSpec(addresses, fetch, webhooks, now, later, Store(old(wallets), old(rows)))
    {
      ghost var st := Store(wallets, rows);
      reports := [];
      alerts := [];
      var i := 0;
      while i < |addresses|
        invariant 0 <= i <= |addresses|
        invariant RefreshAllRun(reports, alerts, Store(wallets, rows))
          == RefreshEach(addresses[..i], ForcedRefresh(fetch, webhooks, now, later), st)
      {
        reports, alerts := RefreshNext(addresses, i, fetch, webhooks, now, later, st, reports, alerts);
        i := i + 1;
      }
      assert addresses[..i] == addresses;
    }

    /** The body of `refreshAllWallets`' loop at address `i`. */
    method RefreshNext(addresses: seq<string>, i: nat, fetch: (string, Option<int>) -> Result<ChainFetch, string>,
                       webhooks: map<RunningBots.WalletKey, string>, now: int, later: int, ghost st: Store,
                       reports: seq<RefreshReport>, alerts: seq<Alert>)
      returns (reports': seq<RefreshReport>, alerts': seq<Alert>)
      requires i < |addresses|
      requires RefreshAllRun(reports, alerts, Store(wallets, rows))
        == RefreshEach(addresses[..i], ForcedRefresh(fetch, webhooks, now, later), st)
      modifies this
      ensures RefreshAllRun(reports', alerts', Store(wallets, rows))
        == RefreshEach(addresses[..i + 1], ForcedRefresh(fetch, webhooks, now, later), st)
    {
      RefreshEachUnfold(addresses, ForcedRefresh(fetch, webhooks, now, later), st, i);
      var report, alert := RefreshOne(addresses[i], fetch, webhooks, now, later);
      reports' := reports + [report];
      alerts' := alerts + AlertList(alert);
    }
  }

  /** `withKey`, built by the keying loop. */
  method KeyBatch(txs: seq<Tx>, wallet: string, walletType: string) returns (withKey: seq<Candidate>)
    ensures withKey == Candidates(txs, wallet, walletType)
  {
    withKey := [];
    var i := 0;
    while i < |txs|
      invariant 0 <= i <= |txs|
      invariant withKey == Candidates(txs[..i], wallet, walletType)
    {
      var tx := txs[i];
      var hash := Trim(tx.hash);
      if hash != "" {
        var token := TokenValue(tx, walletType);
        withKey := withKey + [Candidate(tx, Key(hash, wallet, token))];
      }
      assert txs[..i + 1][..i] == txs[..i];
      i := i + 1;
    }
    assert txs[..i] == txs;
  }

  /** `newTransactions`: the inserted documents' records, skipping the failed indices, in order. */
  method Reported(docs: seq<Candidate>, failed: set<nat>, ghost present: set<Key>, walletType: string)
    returns (newTransactions: seq<Tx>)
    requires failed == FailedIndices(docs, present)
    ensures newTransactions == Announced(Landing(docs, present), walletType)
  {
    newTransactions := [];
    ghost var landed: seq<Candidate> := [];
    var m := 0;
    while m < |docs|
      invariant 0 <= m <= |docs|
      invariant landed == Landing(docs[..m], present)
      invariant newTransactions == Announced(landed, walletType)
    {
      assert docs[..m + 1][..m] == docs[..m];
      assert docs[..m + 1][m] == docs[m];
      FailedMembers(docs, present, m);
      if m !in failed {
        assert Announced(landed + [docs[m]], walletType) == Announced(landed, walletType) + [Announce(docs[m], walletType)];
        landed := landed + [docs[m]];
        newTransactions := newTransactions + [Announce(docs[m], walletType)];
      }
      m := m + 1;
    }
    assert docs[..m] == docs;
  }

  /** A wallet's balance and its quote-currency value for one chain, as fetched. */
  datatype Holding = Holding(balance: string, value: string)

  /** A wallet document: per-chain holdings, the time of the last refresh and the Tron checkpoint. */
  datatype WalletDoc = WalletDoc(
    address: string,
    holdings: map<Chain, Holding>,
    lastFetched: Option<int>,
    tronLastBlockTs: Option<int>)

  // ---------------------------------------------------------------- refresh

  datatype RefreshError =
    | InvalidAddress          // EVM address not `0x...` of length 40 or more
    | AddressRequired         // blank Tron, Bitcoin, Litecoin or Solana address
    | FetchFailed(message: string)
    | SaveFailed(error: SaveError)

  /** What a chain's fetch-and-parse step returns. */
  datatype ChainFetch = ChainFetch(
    balance: string,
    value: string,
    transactions: seq<Tx>,
    tokenTransactions: seq<Tx>,
    maxBlockTimestamp: Option<int>)

  predicate IsEvm(chain: Chain) {
    chain == Ethereum || chain == Bnb
  }

  /**
   * The address check at the head of `addOrUpdateWallet*`: EVM addresses are
   * trimmed, lower-cased and must start with `0x` and be at least 40 long;
   * the other chains' addresses are trimmed and must be non-empty.
   */
  function NormalizeAddress(chain: Chain, address: string): (r: Result<string, RefreshError>)
    ensures IsEvm(chain) ==>
      (r.Ok? <==> StartsWith(ToLower(Trim(address)), "0x") && |Trim(address)| >= 40)
    ensures !IsEvm(chain) ==> (r.Ok? <==> Trim(address) != "")
    ensures r.Ok? ==> r.value != "" && r.value == (if IsEvm(chain) then ToLower(Trim(address)) else Trim(address))
    ensures r.Err? ==> r.error == (if IsEvm(chain) then InvalidAddress else AddressRequired)
  {
    if IsEvm(chain) then
      var n := ToLower(Trim(address));
      if !StartsWith(n, "0x") || |n| < 40 then Err(InvalidAddress) else Ok(n)
    else
      var n := Trim(address);
      if n == "" then Err(AddressRequired) else Ok(n)
  }

  /** A normalised address normalises to itself, so a refresh by stored address finds the same wallet. */
  lemma NormalizeIdempotent(chain: Chain, address: string)
    requires NormalizeAddress(chain, address).Ok?
    ensures NormalizeAddress(chain, NormalizeAddress(chain, address).value) == NormalizeAddress(chain, address)
  {
    var t := Trim(address);
    TrimIdempotent(address);
    if IsEvm(chain) {
      var n := ToLower(t);
      TrimEnds(address);
      assert !IsSpace(n[0]) && !IsSpace(n[|n| - 1]);
      TrimFixed(n);
      ToLowerIdempotent(t);
    }
  }

  /**
   * `tronLastBlockTs` after a fetch: the larger of the old checkpoint (0 when
   * absent) and the batch maximum, when that maximum is positive; otherwise unchanged.
   */
  function NextTronCheckpoint(checkpoint: Option<int>, maxBlockTimestamp: Option<int>): (r: Option<int>)
    ensures maxBlockTimestamp.Some? && maxBlockTimestamp.value > 0 ==>
      r.Some? && r.value >= maxBlockTimestamp.value && (r.value == maxBlockTimestamp.value || r == checkpoint)
    ensures !(maxBlockTimestamp.Some? && maxBlockTimestamp.value > 0) ==> r == checkpoint
  {
    if maxBlockTimestamp.Some? && maxBlockTimestamp.value > 0 then
      Some(Max(checkpoint.GetOr(0), maxBlockTimestamp.value))
    else checkpoint
  }

  /** The checkpoint never moves backwards. */
  lemma CheckpointMonotone(checkpoint: Option<int>, maxBlockTimestamp: Option<int>)
    requires checkpoint.Some?
    ensures NextTronCheckpoint(checkpoint, maxBlockTimestamp).Some?
    ensures NextTronCheckpoint(checkpoint, maxBlockTimestamp).value >= checkpoint.value
  {
  }

  /** Refreshing again with a batch no newer than the checkpoint leaves it where it is. */
  lemma CheckpointStable(checkpoint: Option<int>, m1: Option<int>, m2: Option<int>)
    requires m2.Some? && m1.Some? && m2.value <= m1.value
    ensures var c := NextTronCheckpoint(checkpoint, m1);
      NextTronCheckpoint(c, m2) == c
  {
  }

  /** The Discord hand-off: the webhook and the records sent to it. */
  datatype Alert = Alert(webhookUrl: string, transactions: seq<Tx>)

  /**
   * `notifyDiscordNewTransactions`: nothing for an empty list or when no
   * running bot registered a webhook for (walletType, address); otherwise one
   * batch to that webhook. Send failures are swallowed, so they change nothing here.
   */
  function NotifyRequest(webhooks: map<RunningBots.WalletKey, string>, walletType: string, address: string, txs: seq<Tx>)
    : (r: Option<Alert>)
    ensures r.Some? <==> txs != [] && RunningBots.Lookup(webhooks, walletType, address).Some?
    ensures r.Some? ==> r.value == Alert(RunningBots.Lookup(webhooks, walletType, address).value, txs)
  {
    if txs == [] then None
    else
      match RunningBots.Lookup(webhooks, walletType, address)
      case None => None
      case Some(url) => Some(Alert(url, txs))
  }

  /** Once a bot is removed from the running set, its wallets raise no alert. */
  lemma StoppedBotNoAlert(webhooks: map<RunningBots.WalletKey, string>, bot: RunningBots.Bot,
                          walletType: string, address: string, txs: seq<Tx>)
    requires address != "" && (walletType, address) in RunningBots.AddTargets(RunningBots.ConfigOf(bot))
    ensures NotifyRequest(webhooks - RunningBots.ClearKeys(RunningBots.ConfigOf(bot)), walletType, address, txs).None?
  {
    RunningBots.LookupAfterClear(webhooks, bot, walletType, address);
  }

  /** The wallet document after a fetch, before the transactions are saved. */
  function Fetched(chain: Chain, address: string, existing: Option<WalletDoc>, f: ChainFetch, now: int): (d: WalletDoc)
    ensures d.address == (if existing.Some? then existing.value.address else address)
    ensures d.lastFetched == Some(now)
    ensures chain in d.holdings && d.holdings[chain] == Holding(f.balance, f.value)
    ensures existing.Some? ==> forall c :: c in existing.value.holdings && c != chain ==>
      c in d.holdings && d.holdings[c] == existing.value.holdings[c]
    ensures chain == Tron ==> d.tronLastBlockTs == NextTronCheckpoint(if existing.Some? then existing.value.tronLastBlockTs else None, f.maxBlockTimestamp)
    ensures chain != Tron ==> d.tronLastBlockTs == (if existing.Some? then existing.value.tronLastBlockTs else None)
  {
    var w := if existing.Some? then existing.value else WalletDoc(address, map[], None, None);
    var w1 := w.(holdings := w.holdings[chain := Holding(f.balance, f.value)], lastFetched := Some(now));
    if chain == Tron then w1.(tronLastBlockTs := NextTronCheckpoint(w.tronLastBlockTs, f.maxBlockTimestamp))
    else w1
  }

  /** Touching `lastFetched` again gives the document fetched at the later time. */
  lemma FetchedLater(chain: Chain, address: string, existing: Option<WalletDoc>, f: ChainFetch, now: int, later: int)
    ensures Fetched(chain, address, existing, f, now).(lastFetched := Some(later)) == Fetched(chain, address, existing, f, later)
  {
  }

  /** The checkpoint handed to the fetch: only Tron passes the stored one. */
  function MinBlockTs(chain: Chain, existing: Option<WalletDoc>): (r: Option<int>)
    ensures chain != Tron ==> r.None?
  {
    if chain == Tron && existing.Some? then existing.value.tronLastBlockTs else None
  }

  /** Whether new records of a refresh raise an alert: always, except for a silent Solana refresh. */
  predicate Notifies(chain: Chain, silent: bool) {
    !(chain == Solana && silent)
  }

  /**
   * The result of a refresh: the normalised address, whether the chain was
   * fetched (not when a stored wallet is returned as is), and the records reported as new.
   */
  datatype Refreshed = Refreshed(address: string, fetched: bool, newTransactions: seq<Tx>)

  /** The chain `refreshWallet` dispatches to, from its case-insensitive chain code (default `ETH`). */
  function RefreshChain(code: string): (c: Chain)
    ensures ToUpper(code) == "BNB" <==> c == Bnb
    ensures ToUpper(code) == "TRON" <==> c == Tron
    ensures ToUpper(code) == "BTC" <==> c == Bitcoin
    ensures ToUpper(code) == "LTC" <==> c == Litecoin
    ensures ToUpper(code) == "SOL" <==> c == Solana
  {
    var u := if code == "" then "ETH" else ToUpper(code);
    if u == "BNB" then Bnb
    else if u == "TRON" then Tron
    else if u == "BTC" then Bitcoin
    else if u == "LTC" then Litecoin
    else if u == "SOL" then Solana
    else Ethereum
  }

  /** One entry of `refreshAllWallets`' result. */
  datatype RefreshReport = RefreshReport(address: string, ok: bool, error: Option<RefreshError>)

  /** The two collections as values, for stating what a refresh does to them. */
  datatype Store = Store(wallets: map<string, WalletDoc>, rows: map<Key, Tx>)

  /** The outcome of one `addOrUpdateWallet*` call: its result, the alert it hands off, and the collections after it. */
  datatype RefreshRun = RefreshRun(result: Result<Refreshed, RefreshError>, alert: Option<Alert>, store: Store)

  /**
   * `addOrUpdateWallet*` for one chain. `fetch` is the chain's fetch-and-parse
   * step (given the address and the checkpoint), `racing1`/`racing2` the rows
   * concurrent writers commit during the two saves, `webhooks` the running-bot
   * registry's webhook map, `now` and `later` the clock at the two wallet saves.
   */
  function RefreshSpec(chain: Chain, address: string, forceRefresh: bool, silent: bool,
                       fetch: (string, Option<int>) -> Result<ChainFetch, string>,
                       racing1: map<Key, Tx>, racing2: map<Key, Tx>,
                       webhooks: map<RunningBots.WalletKey, string>, now: int, later: int, st: Store)
    : (run: RefreshRun)
    ensures NormalizeAddress(chain, address).Err? ==>
      run == RefreshRun(Err(NormalizeAddress(chain, address).error), None, st)
    ensures NormalizeAddress(chain, address).Ok? && NormalizeAddress(chain, address).value in st.wallets && !forceRefresh ==>
      run == RefreshRun(Ok(Refreshed(NormalizeAddress(chain, address).value, false, [])), None, st)
    ensures NormalizeAddress(chain, address).Ok? ==>
      var a := NormalizeAddress(chain, address).value;
      var fetched := fetch(a, MinBlockTs(chain, if a in st.wallets then Some(st.wallets[a]) else None));
      (a !in st.wallets || forceRefresh) && fetched.Err? ==> run == RefreshRun(Err(FetchFailed(fetched.error)), None, st)
    ensures run.result.Ok? ==> run.result.value.address == NormalizeAddress(chain, address).value
    ensures run.result.Ok? ==> run.result.value.address in run.store.wallets
    ensures run.alert.Some? ==>
      run.result.Ok? && Notifies(chain, silent) && run.alert.value.transactions == run.result.value.newTransactions != []
  {
    match NormalizeAddress(chain, address)
    case Err(e) => RefreshRun(Err(e), None, st)
    case Ok(a) =>
      var existing := if a in st.wallets then Some(st.wallets[a]) else None;
      if existing.Some? && !forceRefresh then RefreshRun(Ok(Refreshed(a, false, [])), None, st)
      else
        match fetch(a, MinBlockTs(chain, existing))
        case Err(m) => RefreshRun(Err(FetchFailed(m)), None, st)
        case Ok(f) => AfterFetch(chain, silent, a, existing, f, racing1, racing2, webhooks, now, later, st)
  }

  /** The entry `refreshAllWallets` records for one address, given how its refresh ended. */
  function ReportOf(address: string, result: Result<Refreshed, RefreshError>): (report: RefreshReport)
    ensures report.address == address
    ensures report.ok <==> result.Ok?
    ensures report.ok <==> report.error.None?
    ensures result.Err? ==> report.error == Some(result.error)
  {
    if result.Ok? then RefreshReport(address, true, None) else RefreshReport(address, false, Some(result.error))
  }

  /** The outcome of `refreshAllWallets`: the reports, the alerts handed off in order, and the collections after it. */
  datatype RefreshAllRun = RefreshAllRun(reports: seq<RefreshReport>, alerts: seq<Alert>, store: Store)

  /** The alerts one refresh hands off, as a list. */
  function AlertList(alert: Option<Alert>): (r: seq<Alert>)
    ensures |r| <= 1 && (r == [] <==> alert.None?)
  {
    if alert.Some? then [alert.value] else []
  }

  /** One pass of `refreshAllWallets`' loop: a forced Ethereum refresh with Discord on. */
  function ForcedRefresh(fetch: (string, Option<int>) -> Result<ChainFetch, string>,
                         webhooks: map<RunningBots.WalletKey, string>, now: int, later: int)
    : (string, Store) -> RefreshRun
  {
    (a: string, s: Store) => RefreshSpec(Ethereum, a, true, false, fetch, map[], map[], webhooks, now, later, s)
  }

  /**
   * The loop of `refreshAllWallets` with `refresh` as its body: each address
   * refreshed in turn against the collections the earlier ones left, its
   * outcome caught into its report.
   */
  function RefreshEach(addresses: seq<string>, refresh: (string, Store) -> RefreshRun, st: Store): (run: RefreshAllRun)
    ensures |run.reports| == |addresses|
    decreases |addresses|
  {
    if addresses == [] then RefreshAllRun([], [], st)
    else
      var n := |addresses| - 1;
      var prev := RefreshEach(addresses[..n], refresh, st);
      var one := refresh(addresses[n], prev.store);
      RefreshAllRun(prev.reports + [ReportOf(addresses[n], one.result)], prev.alerts + AlertList(one.alert), one.store)
  }

  /** `refreshAllWallets` over the listed addresses. */
  function RefreshAllSpec(addresses: seq<string>, fetch: (string, Option<int>) -> Result<ChainFetch, string>,
                          webhooks: map<RunningBots.WalletKey, string>, now: int, later: int, st: Store)
    : (run: RefreshAllRun)
    ensures |run.reports| == |addresses|
  {
    RefreshEach(addresses, ForcedRefresh(fetch, webhooks, now, later), st)
  }

  /** The run over the first `i + 1` addresses is one more pass after the run over the first `i`. */
  lemma RefreshEachUnfold(addresses: seq<string>, refresh: (string, Store) -> RefreshRun, st: Store, i: nat)
    requires i < |addresses|
    ensures var prev := RefreshEach(addresses[..i], refresh, st);
      var one := refresh(addresses[i], prev.store);
      RefreshEach(addresses[..i + 1], refresh, st)
      == RefreshAllRun(prev.reports + [ReportOf(addresses[i], one.result)], prev.alerts + AlertList(one.alert), one.store)
  {
    assert addresses[..i + 1][..i] == addresses[..i];
  }

  /** The run over a prefix of the addresses is the start of the run over all of them. */
  lemma {:induction false} RefreshEachPrefix(addresses: seq<string>, refresh: (string, Store) -> RefreshRun, st: Store, i: nat)
    requires i <= |addresses|
    ensures RefreshEach(addresses[..i], refresh, st).reports == RefreshEach(addresses, refresh, st).reports[..i]
    decreases |addresses|
  {
    if i < |addresses| {
      var n := |addresses| - 1;
      RefreshEachPrefix(addresses[..n], refresh, st, i);
      assert addresses[..n][..i] == addresses[..i];
    } else {
      assert addresses[..i] == addresses;
    }
  }

  /**
   * Report `i` is that of the refresh of address `i` against the collections
   * the earlier addresses left.
   */
  lemma RefreshEachReport(addresses: seq<string>, refresh: (string, Store) -> RefreshRun, st: Store, i: nat)
    requires i < |addresses|
    ensures RefreshEach(addresses, refresh, st).reports[i]
      == ReportOf(addresses[i], refresh(addresses[i], RefreshEach(addresses[..i], refresh, st).store).result)
  {
    RefreshEachPrefix(addresses, refresh, st, i + 1);
    RefreshEachUnfold(addresses, refresh, st, i);
  }

  /**
   * Report `i` of `refreshAllWallets` is ok exactly when the forced Ethereum
   * refresh of address `i`, run against the collections the earlier
   * addresses left, succeeds, and otherwise carries that refresh's error.
   */
  lemma RefreshAllReport(addresses: seq<string>, fetch: (string, Option<int>) -> Result<ChainFetch, string>,
                         webhooks: map<RunningBots.WalletKey, string>, now: int, later: int, st: Store, i: nat)
    requires i < |addresses|
    ensures var before := RefreshAllSpec(addresses[..i], fetch, webhooks, now, later, st).store;
      var one := RefreshSpec(Ethereum, addresses[i], true, false, fetch, map[], map[], webhooks, now, later, before);
      RefreshAllSpec(addresses, fetch, webhooks, now, later, st).reports[i] == ReportOf(addresses[i], one.result)
  {
    RefreshEachReport(addresses, ForcedRefresh(fetch, webhooks, now, later), st, i);
  }

  /**
   * Every report of `refreshAllWallets` names its address, in order, and is
   * ok exactly when it carries no error; an address that is not a valid
   * Ethereum address is reported as such.
   */
  lemma RefreshAllShape(addresses: seq<string>, fetch: (string, Option<int>) -> Result<ChainFetch, string>,
                        webhooks: map<RunningBots.WalletKey, string>, now: int, later: int, st: Store, i: nat)
    requires i < |addresses|
    ensures var report := RefreshAllSpec(addresses, fetch, webhooks, now, later, st).reports[i];
      report.address == addresses[i] && (report.ok <==> report.error.None?)
      && (NormalizeAddress(Ethereum, addresses[i]).Err? ==> report == RefreshReport(addresses[i], false, Some(InvalidAddress)))
  {
    RefreshAllReport(addresses, fetch, webhooks, now, later, st, i);
  }

  /** `refreshAllWallets` never drops or rewrites a stored transaction row. */
  lemma {:induction false} RefreshAllKeepsRows(addresses: seq<string>, fetch: (string, Option<int>) -> Result<ChainFetch, string>,
                                               webhooks: map<RunningBots.WalletKey, string>, now: int, later: int, st: Store, k: Key)
    requires k in st.rows
    ensures var run := RefreshAllSpec(addresses, fetch, webhooks, now, later, st);
      k in run.store.rows && run.store.rows[k] == st.rows[k]
    decreases |addresses|
  {
    if addresses != [] {
      var n := |addresses| - 1;
      RefreshAllKeepsRows(addresses[..n], fetch, webhooks, now, later, st, k);
      var prev := RefreshAllSpec(addresses[..n], fetch, webhooks, now, later, st);
      RefreshKeepsRows(Ethereum, addresses[n], true, false, fetch, map[], map[], webhooks, now, later, prev.store, k);
      RefreshEachUnfold(addresses, ForcedRefresh(fetch, webhooks, now, later), st, n);
      assert addresses[..n + 1] == addresses;
    }
  }


  /** The two saves of a refresh, records then token records; the second runs only when the first succeeds. */
  datatype BothSaved = BothSaved(result: Result<seq<Tx>, SaveError>, rows: map<Key, Tx>)

  function SaveBoth(rows: map<Key, Tx>, racing1: map<Key, Tx>, racing2: map<Key, Tx>,
                    txs: seq<Tx>, tokenTxs: seq<Tx>, wallet: string, walletType: string): (b: BothSaved)
    ensures forall k :: k in rows ==> k in b.rows && b.rows[k] == rows[k]
  {
    var s1 := SaveOutcome(txs, wallet, walletType, rows.Keys, racing1.Keys);
    var rows1 := RowsAfterSave(rows, racing1, txs, wallet, walletType);
    SavedAreStored(rows, racing1, txs, wallet, walletType);
    if s1.Err? then BothSaved(Err(s1.error), rows1)
    else
      var s2 := SaveOutcome(tokenTxs, wallet, walletType, rows1.Keys, racing2.Keys);
      var rows2 := RowsAfterSave(rows1, racing2, tokenTxs, wallet, walletType);
      SavedAreStored(rows1, racing2, tokenTxs, wallet, walletType);
      if s2.Err? then BothSaved(Err(s2.error), rows2)
      else BothSaved(Ok(s1.value.newTransactions + s2.value.newTransactions), rows2)
  }

  /** After both saves succeed, every key of both batches is stored. */
  lemma SaveBothCovers(rows: map<Key, Tx>, racing1: map<Key, Tx>, racing2: map<Key, Tx>,
                       txs: seq<Tx>, tokenTxs: seq<Tx>, wallet: string, walletType: string)
    ensures var b := SaveBoth(rows, racing1, racing2, txs, tokenTxs, wallet, walletType);
      b.result.Ok? ==>
        KeysOf(Candidates(txs, wallet, walletType)) <= b.rows.Keys && KeysOf(Candidates(tokenTxs, wallet, walletType)) <= b.rows.Keys
  {
    var rows1 := RowsAfterSave(rows, racing1, txs, wallet, walletType);
    SavedAreStored(rows, racing1, txs, wallet, walletType);
    SavedAreStored(rows1, racing2, tokenTxs, wallet, walletType);
  }

  /** Saving again what is already stored reports nothing and writes nothing. */
  lemma SaveBothStored(rows: map<Key, Tx>, racing1: map<Key, Tx>, racing2: map<Key, Tx>,
                       txs: seq<Tx>, tokenTxs: seq<Tx>, wallet: string, walletType: string)
    requires KeysOf(Candidates(txs, wallet, walletType)) <= rows.Keys
    requires KeysOf(Candidates(tokenTxs, wallet, walletType)) <= rows.Keys
    ensures SaveBoth(rows, racing1, racing2, txs, tokenTxs, wallet, walletType) == BothSaved(Ok([]), rows)
  {
    AllStoredNoOp(rows, racing1, txs, wallet, walletType);
    AllStoredNoOp(rows, racing2, tokenTxs, wallet, walletType);
    var none: seq<Tx> := [];
    assert none + none == none;
  }

  /** The part of `addOrUpdateWallet*` after a successful fetch: wallet save, the two record saves, the alert. */
  function AfterFetch(chain: Chain, silent: bool, a: string, existing: Option<WalletDoc>, f: ChainFetch,
                      racing1: map<Key, Tx>, racing2: map<Key, Tx>,
                      webhooks: map<RunningBots.WalletKey, string>, now: int, later: int, st: Store)
    : (run: RefreshRun)
    ensures forall k :: k in st.rows ==> k in run.store.rows && run.store.rows[k] == st.rows[k]
    ensures run.store.wallets == st.wallets[a := Fetched(chain, a, existing, f,
      if run.result.Ok? && run.result.value.newTransactions != [] && Notifies(chain, silent) then later else now)]
  {
    var b := SaveBoth(st.rows, racing1, racing2, f.transactions, f.tokenTransactions, a, WalletTypeName(chain));
    AfterSaves(chain, silent, a, existing, f, b, webhooks, now, later, st.wallets)
  }

  /** What follows the two saves, given their outcome `b`. */
  function AfterSaves(chain: Chain, silent: bool, a: string, existing: Option<WalletDoc>, f: ChainFetch, b: BothSaved,
                      webhooks: map<RunningBots.WalletKey, string>, now: int, later: int, wallets: map<string, WalletDoc>)
    : (run: RefreshRun)
    ensures run.result.Ok? ==> run.result.value.address == a && run.result.value.fetched
    ensures run.store.rows == b.rows
    ensures run.alert.Some? ==>
      run.result.Ok? && Notifies(chain, silent) && run.alert.value.transactions == run.result.value.newTransactions != []
      && RunningBots.Lookup(webhooks, WalletTypeName(chain), a) == Some(run.alert.value.webhookUrl)
    ensures run.store.wallets == wallets[a := Fetched(chain, a, existing, f,
      if run.result.Ok? && run.result.value.newTransactions != [] && Notifies(chain, silent) then later else now)]
    ensures b.result.Err? ==> run.result == Err(SaveFailed(b.result.error)) && run.alert.None?
    ensures b.result.Ok? ==>
      run.result == Ok(Refreshed(a, true, b.result.value))
      && run.alert == (if b.result.value != [] && Notifies(chain, silent)
                       then NotifyRequest(webhooks, WalletTypeName(chain), a, b.result.value) else None)
  {
    var w := Fetched(chain, a, existing, f, now);
    if b.result.Err? then RefreshRun(Err(SaveFailed(b.result.error)), None, Store(wallets[a := w], b.rows))
    else
      var allNew := b.result.value;
      if allNew != [] && Notifies(chain, silent) then
        RefreshRun(Ok(Refreshed(a, true, allNew)), NotifyRequest(webhooks, WalletTypeName(chain), a, allNew),
          Store(wallets[a := Fetched(chain, a, existing, f, later)], b.rows))
      else RefreshRun(Ok(Refreshed(a, true, allNew)), None, Store(wallets[a := w], b.rows))
  }

  /** `after` still holds every wallet of `before`, and no Tron checkpoint of theirs moved backwards. */
  predicate WalletsKept(before: map<string, WalletDoc>, after: map<string, WalletDoc>) {
    after.Keys >= before.Keys
    && forall x :: x in before && before[x].tronLastBlockTs.Some? ==>
         after[x].tronLastBlockTs.Some? && after[x].tronLastBlockTs.value >= before[x].tronLastBlockTs.value
  }

  /** Storing a fetched document keeps every wallet and its checkpoint. */
  lemma StoreFetchedKeepsWallets(chain: Chain, a: string, f: ChainFetch, t: int, wallets: map<string, WalletDoc>)
    ensures WalletsKept(wallets, wallets[a := Fetched(chain, a, if a in wallets then Some(wallets[a]) else None, f, t)])
  {
    var existing := if a in wallets then Some(wallets[a]) else None;
    var after := wallets[a := Fetched(chain, a, existing, f, t)];
    forall x | x in wallets && wallets[x].tronLastBlockTs.Some?
      ensures after[x].tronLastBlockTs.Some? && after[x].tronLastBlockTs.value >= wallets[x].tronLastBlockTs.value
    {
      if x == a {
        FetchedKeepsCheckpoint(chain, a, existing, f, t);
      }
    }
  }

  /** The fetched document never moves an existing Tron checkpoint backwards. */
  lemma FetchedKeepsCheckpoint(chain: Chain, a: string, existing: Option<WalletDoc>, f: ChainFetch, t: int)
    requires existing.Some? && existing.value.tronLastBlockTs.Some?
    ensures Fetched(chain, a, existing, f, t).tronLastBlockTs.Some?
    ensures Fetched(chain, a, existing, f, t).tronLastBlockTs.value >= existing.value.tronLastBlockTs.value
  {
    if chain == Tron {
      CheckpointMonotone(existing.value.tronLastBlockTs, f.maxBlockTimestamp);
    }
  }

  /** A refresh loses no wallet, and no Tron checkpoint moves backwards. */
  lemma RefreshKeepsHistory(chain: Chain, address: string, forceRefresh: bool, silent: bool,
                            fetch: (string, Option<int>) -> Result<ChainFetch, string>,
                            racing1: map<Key, Tx>, racing2: map<Key, Tx>,
                            webhooks: map<RunningBots.WalletKey, string>, now: int, later: int, st: Store)
    ensures WalletsKept(st.wallets, RefreshSpec(chain, address, forceRefresh, silent, fetch, racing1, racing2, webhooks, now, later, st).store.wallets)
  {
    var run := RefreshSpec(chain, address, forceRefresh, silent, fetch, racing1, racing2, webhooks, now, later, st);
    var n := NormalizeAddress(chain, address);
    if n.Err? {
      assert run.store == st;
    } else {
      var a := n.value;
      var existing := if a in st.wallets then Some(st.wallets[a]) else None;
      if existing.Some? && !forceRefresh {
        assert run.store == st;
      } else if fetch(a, MinBlockTs(chain, existing)).Err? {
        assert run.store == st;
      } else {
        var f := fetch(a, MinBlockTs(chain, existing)).value;
        RefreshFetches(chain, address, forceRefresh, silent, fetch, racing1, racing2, webhooks, now, later, st, f);
        AfterFetchKeepsWallets(chain, silent, a, f, racing1, racing2, webhooks, now, later, st);
      }
    }
  }

  /** What follows a fetch keeps every wallet and its checkpoint. */
  lemma AfterFetchKeepsWallets(chain: Chain, silent: bool, a: string, f: ChainFetch,
                               racing1: map<Key, Tx>, racing2: map<Key, Tx>,
                               webhooks: map<RunningBots.WalletKey, string>, now: int, later: int, st: Store)
    ensures WalletsKept(st.wallets, AfterFetch(chain, silent, a, if a in st.wallets then Some(st.wallets[a]) else None, f,
                                               racing1, racing2, webhooks, now, later, st).store.wallets)
  {
    var run := AfterFetch(chain, silent, a, if a in st.wallets then Some(st.wallets[a]) else None, f,
                          racing1, racing2, webhooks, now, later, st);
    StoreFetchedKeepsWallets(chain, a, f,
      if run.result.Ok? && run.result.value.newTransactions != [] && Notifies(chain, silent) then later else now, st.wallets);
  }

  /** A refresh never drops or rewrites a stored transaction row. */
  lemma RefreshKeepsRows(chain: Chain, address: string, forceRefresh: bool, silent: bool,
                         fetch: (string, Option<int>) -> Result<ChainFetch, string>,
                         racing1: map<Key, Tx>, racing2: map<Key, Tx>,
                         webhooks: map<RunningBots.WalletKey, string>, now: int, later: int, st: Store, k: Key)
    requires k in st.rows
    ensures var run := RefreshSpec(chain, address, forceRefresh, silent, fetch, racing1, racing2, webhooks, now, later, st);
      k in run.store.rows && run.store.rows[k] == st.rows[k]
  {
    var run := RefreshSpec(chain, address, forceRefresh, silent, fetch, racing1, racing2, webhooks, now, later, st);
    var n := NormalizeAddress(chain, address);
    if n.Err? {
      assert run.store == st;
    } else {
      var a := n.value;
      var existing := if a in st.wallets then Some(st.wallets[a]) else None;
      if existing.Some? && !forceRefresh {
        assert run.store == st;
      } else if fetch(a, MinBlockTs(chain, existing)).Err? {
        assert run.store == st;
      } else {
        FetchedKeepsRows(chain, address, forceRefresh, silent, fetch, racing1, racing2, webhooks, now, later, st, k);
      }
    }
  }

  /** The fetched case of `RefreshKeepsRows`. */
  lemma FetchedKeepsRows(chain: Chain, address: string, forceRefresh: bool, silent: bool,
                         fetch: (string, Option<int>) -> Result<ChainFetch, string>,
                         racing1: map<Key, Tx>, racing2: map<Key, Tx>,
                         webhooks: map<RunningBots.WalletKey, string>, now: int, later: int, st: Store, k: Key)
    requires k in st.rows
    requires NormalizeAddress(chain, address).Ok?
    requires var a := NormalizeAddress(chain, address).value; a !in st.wallets || forceRefresh
    requires var a := NormalizeAddress(chain, address).value;
      fetch(a, MinBlockTs(chain, if a in st.wallets then Some(st.wallets[a]) else None)).Ok?
    ensures var run := RefreshSpec(chain, address, forceRefresh, silent, fetch, racing1, racing2, webhooks, now, later, st);
      k in run.store.rows && run.store.rows[k] == st.rows[k]
  {
    var a := NormalizeAddress(chain, address).value;
    var existing := if a in st.wallets then Some(st.wallets[a]) else None;
    var f := fetch(a, MinBlockTs(chain, existing)).value;
    RefreshFetches(chain, address, forceRefresh, silent, fetch, racing1, racing2, webhooks, now, later, st, f);
    var after := AfterFetch(chain, silent, a, existing, f, racing1, racing2, webhooks, now, later, st);
    assert k in after.store.rows && after.store.rows[k] == st.rows[k];
  }



  /**
   * The fetched state is written before the records are saved: after a fetch
   * the wallet carries the new holdings and checkpoint even when a save fails.
   */
  lemma WalletSavedFirst(chain: Chain, address: string, forceRefresh: bool, silent: bool,
                         fetch: (string, Option<int>) -> Result<ChainFetch, string>,
                         racing1: map<Key, Tx>, racing2: map<Key, Tx>,
                         webhooks: map<RunningBots.WalletKey, string>, now: int, later: int, st: Store)
    requires NormalizeAddress(chain, address).Ok?
    requires var a := NormalizeAddress(chain, address).value; a !in st.wallets || forceRefresh
    requires var a := NormalizeAddress(chain, address).value;
      fetch(a, MinBlockTs(chain, if a in st.wallets then Some(st.wallets[a]) else None)).Ok?
    ensures var a := NormalizeAddress(chain, address).value;
      var existing := if a in st.wallets then Some(st.wallets[a]) else None;
      var f := fetch(a, MinBlockTs(chain, existing)).value;
      var run := RefreshSpec(chain, address, forceRefresh, silent, fetch, racing1, racing2, webhooks, now, later, st);
      a in run.store.wallets && run.store.wallets[a].lastFetched.Some?
      && run.store.wallets[a] == Fetched(chain, a, existing, f, run.store.wallets[a].lastFetched.value)
      && (run.result.Err? ==> run.store.wallets[a].lastFetched == Some(now))
  {
    var a := NormalizeAddress(chain, address).value;
    var existing := if a in st.wallets then Some(st.wallets[a]) else None;
    var f := fetch(a, MinBlockTs(chain, existing)).value;
    assert RefreshSpec(chain, address, forceRefresh, silent, fetch, racing1, racing2, webhooks, now, later, st)
      == AfterFetch(chain, silent, a, existing, f, racing1, racing2, webhooks, now, later, st);
  }

  /** An alert goes only to the webhook the running-bot registry holds for this wallet. */
  lemma AlertOnlyToRegistered(chain: Chain, address: string, forceRefresh: bool, silent: bool,
                              fetch: (string, Option<int>) -> Result<ChainFetch, string>,
                              racing1: map<Key, Tx>, racing2: map<Key, Tx>,
                              webhooks: map<RunningBots.WalletKey, string>, now: int, later: int, st: Store)
    ensures var run := RefreshSpec(chain, address, forceRefresh, silent, fetch, racing1, racing2, webhooks, now, later, st);
      run.alert.Some? ==>
        RunningBots.Lookup(webhooks, WalletTypeName(chain), run.result.value.address) == Some(run.alert.value.webhookUrl)
  {
  }

  lemma AfterFetchReplayQuiet(chain: Chain, silent: bool, a: string, existing: Option<WalletDoc>, existing2: Option<WalletDoc>,
                              f: ChainFetch,
                              racing1: map<Key, Tx>, racing2: map<Key, Tx>, racing3: map<Key, Tx>, racing4: map<Key, Tx>,
                              webhooks: map<RunningBots.WalletKey, string>, now: int, later: int, st: Store)
    requires AfterFetch(chain, silent, a, existing, f, racing1, racing2, webhooks, now, later, st).result.Ok?
    ensures var first := AfterFetch(chain, silent, a, existing, f, racing1, racing2, webhooks, now, later, st);
      var second := AfterFetch(chain, silent, a, existing2, f, racing3, racing4, webhooks, now, later, first.store);
      second.result == Ok(Refreshed(a, true, [])) && second.alert.None? && second.store.rows == first.store.rows
  {
    var wt := WalletTypeName(chain);
    var first := AfterFetch(chain, silent, a, existing, f, racing1, racing2, webhooks, now, later, st);
    var b := SaveBoth(st.rows, racing1, racing2, f.transactions, f.tokenTransactions, a, wt);
    assert b.result.Ok? && first.store.rows == b.rows;
    SaveBothCovers(st.rows, racing1, racing2, f.transactions, f.tokenTransactions, a, wt);
    SaveBothStored(b.rows, racing3, racing4, f.transactions, f.tokenTransactions, a, wt);
  }

  /** After a valid address, no cached short-cut and a successful fetch, a refresh is `AfterFetch`. */
  lemma RefreshFetches(chain: Chain, address: string, forceRefresh: bool, silent: bool,
                       fetch: (string, Option<int>) -> Result<ChainFetch, string>,
                       racing1: map<Key, Tx>, racing2: map<Key, Tx>,
                       webhooks: map<RunningBots.WalletKey, string>, now: int, later: int, st: Store, f: ChainFetch)
    requires NormalizeAddress(chain, address).Ok?
    requires var a := NormalizeAddress(chain, address).value; a !in st.wallets || forceRefresh
    requires var a := NormalizeAddress(chain, address).value;
      fetch(a, MinBlockTs(chain, if a in st.wallets then Some(st.wallets[a]) else None)) == Ok(f)
    ensures var a := NormalizeAddress(chain, address).value;
      RefreshSpec(chain, address, forceRefresh, silent, fetch, racing1, racing2, webhooks, now, later, st)
      == AfterFetch(chain, silent, a, if a in st.wallets then Some(st.wallets[a]) else None, f,
                    racing1, racing2, webhooks, now, later, st)
  {
  }

  /**
   * A refresh that fetches reports exactly the records its two saves
   * reported, and when there are any, the refresh is not a silent Solana
   * one and a running bot registered a webhook for the wallet, it hands
   * them to that webhook; a failed save reports the error and alerts nobody.
   */
  lemma RefreshAlertsNewRecords(chain: Chain, address: string, forceRefresh: bool, silent: bool,
                                fetch: (string, Option<int>) -> Result<ChainFetch, string>,
                                racing1: map<Key, Tx>, racing2: map<Key, Tx>,
                                webhooks: map<RunningBots.WalletKey, string>, now: int, later: int, st: Store, f: ChainFetch)
    requires NormalizeAddress(chain, address).Ok?
    requires var a := NormalizeAddress(chain, address).value; a !in st.wallets || forceRefresh
    requires var a := NormalizeAddress(chain, address).value;
      fetch(a, MinBlockTs(chain, if a in st.wallets then Some(st.wallets[a]) else None)) == Ok(f)
    ensures var a := NormalizeAddress(chain, address).value;
      var wt := WalletTypeName(chain);
      var b := SaveBoth(st.rows, racing1, racing2, f.transactions, f.tokenTransactions, a, wt);
      var run := RefreshSpec(chain, address, forceRefresh, silent, fetch, racing1, racing2, webhooks, now, later, st);
      (b.result.Err? ==> run.result == Err(SaveFailed(b.result.error)) && run.alert.None?)
      && (b.result.Ok? ==> run.result == Ok(Refreshed(a, true, b.result.value)))
      && (b.result.Ok? && b.result.value != [] && Notifies(chain, silent) && RunningBots.Lookup(webhooks, wt, a).Some? ==>
            run.alert == Some(Alert(RunningBots.Lookup(webhooks, wt, a).value, b.result.value)))
  {
    RefreshFetches(chain, address, forceRefresh, silent, fetch, racing1, racing2, webhooks, now, later, st, f);
  }

  /**
   * Refreshing twice with the same fetched data: the second refresh finds
   * every record stored, so it reports nothing, raises no alert and writes no row.
   */
  lemma RefreshReplayQuiet(chain: Chain, address: string, silent: bool, f: ChainFetch,
                           fetch: (string, Option<int>) -> Result<ChainFetch, string>,
                           racing1: map<Key, Tx>, racing2: map<Key, Tx>, racing3: map<Key, Tx>, racing4: map<Key, Tx>,
                           webhooks: map<RunningBots.WalletKey, string>, now: int, later: int, st: Store)
    requires forall x, m :: fetch(x, m) == Ok(f)
    requires RefreshSpec(chain, address, true, silent, fetch, racing1, racing2, webhooks, now, later, st).result.Ok?
    ensures var first := RefreshSpec(chain, address, true, silent, fetch, racing1, racing2, webhooks, now, later, st);
      var second := RefreshSpec(chain, address, true, silent, fetch, racing3, racing4, webhooks, now, later, first.store);
      second.result == Ok(Refreshed(first.result.value.address, true, []))
      && second.alert.None? && second.store.rows == first.store.rows
  {
    var a := NormalizeAddress(chain, address).value;
    var existing := if a in st.wallets then Some(st.wallets[a]) else None;
    RefreshFetches(chain, address, true, silent, fetch, racing1, racing2, webhooks, now, later, st, f);
    var first := AfterFetch(chain, silent, a, existing, f, racing1, racing2, webhooks, now, later, st);
    var existing2 := Some(first.store.wallets[a]);
    RefreshFetches(chain, address, true, silent, fetch, racing3, racing4, webhooks, now, later, first.store, f);
    AfterFetchReplayQuiet(chain, silent, a, existing, existing2, f, racing1, racing2, racing3, racing4, webhooks, now, later, st);
  }
}
