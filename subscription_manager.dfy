/**
 * The Solana account subscriptions of backend/services/solanaSubscriptionManager.js:
 * one account-change listener per address, shared by every bot that watches
 * it through a reference count; a burst of account changes is coalesced by a
 * 500 ms debounce timer into one reconciliation against the address's
 * seen-set, whose new records are saved and announced.
 *
 * The RPC connection is outside the model: `Start` is told the listener id
 * that `onAccountChange` returned (or that setting it up threw), the timers
 * are ids the manager hands out, and reconciliation takes the RPC answers
 * that `SolService.CheckRecent` takes.
 */
module SubscriptionManager {
  import opened Base
  import opened Text
  import opened Canonical
  import opened SeenSet
  import SolService
  import WalletService
  import RunningBots

  /** Addresses shorter than this are not subscribed. */
  const MinAddressLength: nat := 32

  /** The debounce delay of `onActivity`, in milliseconds. */
  const DebounceMs: nat := 500

  /** Whether `startSubscription` goes past its first guard. */
  predicate Eligible(address: string) {
    Trim(address) != "" && |Trim(address)| >= MinAddressLength
  }

  // ---------------------------------------------------------------- reference counts

  /** The count `startSubscription` leaves: one more, rolled back when the first set-up throws. */
  function AfterStart(counts: map<string, nat>, address: string, setupOk: bool): (r: map<string, nat>)
    ensures !Eligible(address) ==> r == counts
    ensures Eligible(address) && Trim(address) in counts && counts[Trim(address)] >= 1
            ==> r == counts[Trim(address) := counts[Trim(address)] + 1]
    ensures Eligible(address) && Trim(address) !in counts ==>
              r == if setupOk then counts[Trim(address) := 1] else counts
  {
    var a := Trim(address);
    if !Eligible(address) then counts
    else
      var c := (if a in counts then counts[a] else 0) + 1;
      if c > 1 || setupOk then counts[a := c]
      else counts - {a}
  }

  /** `refcountByAddress.get(a) || 1`. */
  function CountOr1(counts: map<string, nat>, a: string): nat {
    if a in counts && counts[a] != 0 then counts[a] else 1
  }

  /** The count `stopSubscription` leaves: one less, the entry dropped at zero. */
  function AfterStop(counts: map<string, nat>, address: string): (r: map<string, nat>)
    ensures Trim(address) == "" ==> r == counts
    ensures Trim(address) != "" && Trim(address) in counts && counts[Trim(address)] >= 2
            ==> r == counts[Trim(address) := counts[Trim(address)] - 1]
    ensures Trim(address) != "" && (Trim(address) !in counts || counts[Trim(address)] <= 1)
            ==> r == counts - {Trim(address)}
  {
    var a := Trim(address);
    if a == "" then counts
    else
      var c := Max(0, CountOr1(counts, a) - 1);
      if c == 0 then counts - {a} else counts[a := c]
  }

  /** `n` successful starts in a row. */
  function StartN(counts: map<string, nat>, address: string, n: nat): map<string, nat>
    decreases n
  {
    if n == 0 then counts else AfterStart(StartN(counts, address, n - 1), address, true)
  }

  /** `n` stops in a row. */
  function StopN(counts: map<string, nat>, address: string, n: nat): map<string, nat>
    decreases n
  {
    if n == 0 then counts else AfterStop(StopN(counts, address, n - 1), address)
  }

  /** `n` starts of an unwatched address leave its count at `n` and every other count alone. */
  lemma {:induction false} StartsCount(counts: map<string, nat>, address: string, n: nat)
    requires Eligible(address) && Trim(address) !in counts && n >= 1
    ensures StartN(counts, address, n) == counts[Trim(address) := n]
    decreases n
  {
    if n > 1 {
      StartsCount(counts, address, n - 1);
    }
  }

  /** `j` stops after `k > j` starts leave the count at `k - j`. */
  lemma {:induction false} StopsCount(counts: map<string, nat>, address: string, k: nat, j: nat)
    requires Trim(address) != "" && j < k
    ensures StopN(counts[Trim(address) := k], address, j) == counts[Trim(address) := k - j]
    decreases j
  {
    if j > 0 {
      StopsCount(counts, address, k, j - 1);
    }
  }

  /**
   * Reference counting balances: after `n` starts of an unwatched address the
   * first `n - 1` stops keep it watched and the `n`-th removes it, leaving the
   * other counts as they were.
   */
  lemma Balanced(counts: map<string, nat>, address: string, n: nat)
    requires Eligible(address) && Trim(address) !in counts && n >= 1
    ensures Trim(address) in StopN(StartN(counts, address, n), address, n - 1)
    ensures StopN(StartN(counts, address, n), address, n) == counts
  {
    var a := Trim(address);
    StartsCount(counts, address, n);
    StopsCount(counts, address, n, n - 1);
    assert StopN(counts[a := n], address, n) == AfterStop(counts[a := 1], address);
    assert counts[a := 1] - {a} == counts;
  }

  /** A stop of an address nobody watches changes no count. */
  lemma StopUnwatched(counts: map<string, nat>, address: string)
    requires Trim(address) !in counts
    ensures AfterStop(counts, address) == counts
  {
  }

  // ---------------------------------------------------------------- the manager

  /** The per-address state: its seen-set and the id of its account-change listener. */
  datatype SubState = SubState(processed: seq<string>, subscriptionId: nat)

  class Subscriptions {
    /** `refcountByAddress`. */
    var refcount: map<string, nat>
    /** `stateByAddress`, with its keys in insertion order in `addresses`. */
    var state: map<string, SubState>
    var addresses: seq<string>
    /** `debounceByAddress`: the armed timer of each address. */
    var debounce: map<string, nat>
    /** The next timer id `setTimeout` hands out (ids are truthy). */
    var nextTimer: nat

    /** The first watcher of `a` enters it in the list, the listeners and the counts together. */
    static lemma NewAddressKept(addresses: seq<string>, state: map<string, SubState>, refcount: map<string, nat>,
                                a: string, sub: SubState)
      requires NoDup(addresses) && (forall x :: x in addresses <==> x in state)
      requires a !in state && state.Keys + {a} == refcount.Keys
      ensures NoDup(addresses + [a]) && (forall x :: x in addresses + [a] <==> x in state[a := sub])
      ensures state[a := sub].Keys == refcount.Keys
    {
      RunningBots.AppendKeepsNoDup(addresses, a);
    }

    /**
     * An address is listened to exactly when it is counted, each count is
     * positive, and a timer is armed only for a listened address.
     */
    ghost predicate Valid()
      reads this
    {
      NoDup(addresses) && (forall a :: a in addresses <==> a in state)
      && state.Keys == refcount.Keys
      && (forall a :: a in refcount ==> refcount[a] >= 1)
      && debounce.Keys <= state.Keys
      && (forall a :: a in debounce ==> 1 <= debounce[a] < nextTimer)
      && nextTimer >= 1
    }

    constructor ()
      ensures Valid()
      ensures refcount == map[] && state == map[] && addresses == [] && debounce == map[]
    {
      refcount := map[];
      state := map[];
      addresses := [];
      debounce := map[];
      nextTimer := 1;
    }

    /** `getSubscribedSolAddresses`: the listened addresses, oldest first. */
    function Subscribed(): (r: seq<string>)
      requires Valid()
      reads this
      ensures NoDup(r) && forall a :: a in r <==> a in state
      ensures |r| == |state|
    {
      UniqueCard(addresses, state.Keys);
      addresses
    }

    /**
     * `startSubscription`: counts one more watcher of an eligible address;
     * the first one sets up the listener with an empty seen-set, and a set-up
     * that throws (`listener == None`) rolls the count back.
     */
    method Start(address: string, listener: Option<nat>)
      requires Valid()
      modifies this
      ensures Valid()
      ensures refcount == AfterStart(old(refcount), address, listener.Some?)
      ensures Eligible(address) && Trim(address) !in old(state) && listener.Some?
              ==> state == old(state)[Trim(address) := SubState([], listener.value)]
                  && addresses == old(addresses) + [Trim(address)]
      ensures !(Eligible(address) && Trim(address) !in old(state) && listener.Some?)
              ==> state == old(state) && addresses == old(addresses)
      ensures debounce == old(debounce) && nextTimer == old(nextTimer)
    {
      var a := Trim(address);
      if a == "" || |a| < MinAddressLength {
        assert !Eligible(address);
        return;
      }
      assert Eligible(address);
      var count := (if a in refcount then refcount[a] else 0) + 1;
      refcount := refcount[a := count];
      if count > 1 {
        assert a in old(refcount) && refcount.Keys == old(refcount).Keys;
        return;
      }
      assert a !in old(refcount) && a !in old(state);
      if listener.None? {
        RollBack(a, old(refcount));
        return;
      }
      NewAddressKept(addresses, state, refcount, a, SubState([], listener.value));
      state := state[a := SubState([], listener.value)];
      addresses := addresses + [a];
    }

    /** The `catch` of `startSubscription`: the first count of `a` is taken back and the count deleted at zero. */
    method RollBack(a: string, ghost prior: map<string, nat>)
      requires a !in prior && refcount == prior[a := 1]
      modifies this
      ensures refcount == prior
      ensures state == old(state) && addresses == old(addresses)
      ensures debounce == old(debounce) && nextTimer == old(nextTimer)
    {
      var c: nat := Max(0, CountOr1(refcount, a) - 1);
      assert c == 0;
      refcount := refcount[a := c];
      if c == 0 {
        refcount := refcount - {a};
      }
    }

    /**
     * `stopSubscription`: counts one watcher less; at zero the count, the
     * armed timer and the listener go. Returns the timer cancelled and the
     * listener removed.
     */
    method Stop(address: string) returns (cancelledTimer: Option<nat>, removedListener: Option<nat>)
      requires Valid()
      modifies this
      ensures Valid()
      ensures refcount == AfterStop(old(refcount), address)
      ensures Trim(address) != "" && Trim(address) !in refcount ==>
        && state == old(state) - {Trim(address)} && debounce == old(debounce) - {Trim(address)}
        && addresses == RunningBots.Without(old(addresses), Trim(address))
        && cancelledTimer == (if Trim(address) in old(debounce) then Some(old(debounce)[Trim(address)]) else None)
        && removedListener == (if Trim(address) in old(state) then Some(old(state)[Trim(address)].subscriptionId) else None)
      ensures Trim(address) == "" || Trim(address) in refcount ==>
        && state == old(state) && debounce == old(debounce) && addresses == old(addresses)
        && cancelledTimer.None? && removedListener.None?
      ensures nextTimer == old(nextTimer)
    {
      cancelledTimer, removedListener := None, None;
      var a := Trim(address);
      if a == "" {
        return;
      }
      var count := Max(0, CountOr1(refcount, a) - 1);
      if count == 0 {
        cancelledTimer, removedListener := TearDown(a);
      } else {
        refcount := refcount[a := count];
      }
    }

    /** The zero-count branch of `stopSubscription`: the count, the armed timer and the listener of `a` go. */
    method TearDown(a: string) returns (cancelledTimer: Option<nat>, removedListener: Option<nat>)
      requires Valid()
      modifies this
      ensures Valid()
      ensures refcount == old(refcount) - {a} && state == old(state) - {a} && debounce == old(debounce) - {a}
      ensures addresses == RunningBots.Without(old(addresses), a)
      ensures cancelledTimer == (if a in old(debounce) then Some(old(debounce)[a]) else None)
      ensures removedListener == (if a in old(state) then Some(old(state)[a].subscriptionId) else None)
      ensures nextTimer == old(nextTimer)
    {
      refcount := refcount - {a};
      cancelledTimer := if a in debounce then Some(debounce[a]) else None;
      debounce := debounce - {a};
      // every listened address has a listener id, so its state always goes
      removedListener := if a in state then Some(state[a].subscriptionId) else None;
      state := state - {a};
      addresses := RunningBots.Without(addresses, a);
    }

    /**
     * `onActivity`: for a listened address, cancels its armed timer and arms
     * a new one; otherwise nothing. Returns the timer cancelled and the one armed.
     */
    method OnActivity(address: string) returns (cancelledTimer: Option<nat>, armed: Option<nat>)
      requires Valid()
      modifies this
      ensures Valid()
      ensures var a := Trim(address);
        if a != "" && a in state then
          armed == Some(old(nextTimer)) && debounce == old(debounce)[a := old(nextTimer)]
          && nextTimer == old(nextTimer) + 1
          && cancelledTimer == (if a in old(debounce) then Some(old(debounce)[a]) else None)
        else
          armed.None? && cancelledTimer.None? && debounce == old(debounce) && nextTimer == old(nextTimer)
      ensures refcount == old(refcount) && state == old(state) && addresses == old(addresses)
    {
      cancelledTimer, armed := None, None;
      var a := Trim(address);
      if a == "" || a !in state {
        return;
      }
      if a in debounce {
        cancelledTimer := Some(debounce[a]);
      }
      armed := Some(nextTimer);
      debounce := debounce[a := nextTimer];
      nextTimer := nextTimer + 1;
    }

    /**
     * The reconciliation run by the initial check of `startSubscription` and by
     * a debounce timer: `SolService.CheckRecent` against the address's
     * seen-set, which is written back; new records, if any, are saved as
     * Solana records and then announced; a save that throws stops before the
     * announcement.
     */
    method Reconcile(a: string, listing: Result<seq<SolService.SigInfo>, string>,
                     attempt: (string, nat) -> Result<Option<SolService.ParsedTx>, string>, ageOf: int -> string,
                     storage: WalletService.Storage, racing: map<WalletService.Key, Tx>,
                     webhooks: map<RunningBots.WalletKey, string>)
      returns (alert: Option<WalletService.Alert>)
      requires Valid() && a in state
      modifies this, storage
      ensures Valid()
      ensures var spec := SolService.CheckRecentSpec(a, old(state[a].processed), listing, attempt, ageOf);
        && state == old(state)[a := old(state[a]).(processed := spec.0)]
        && storage.rows == (if spec.1 == [] then old(storage.rows)
                            else WalletService.RowsAfterSave(old(storage.rows), racing, spec.1, a, "Solana"))
        && alert == (if spec.1 != [] && WalletService.SaveOutcome(spec.1, a, "Solana", old(storage.rows).Keys, racing.Keys).Ok?
                     then WalletService.NotifyRequest(webhooks, "Solana", a, spec.1) else None)
      ensures storage.wallets == old(storage.wallets)
      ensures refcount == old(refcount) && addresses == old(addresses)
      ensures debounce == old(debounce) && nextTimer == old(nextTimer)
    {
      var s := state[a];
      var seenAfter, newTransactions := SolService.CheckRecent(a, s.processed, listing, attempt, ageOf);
      state := state[a := s.(processed := seenAfter)];
      alert := SaveAndAnnounce(a, newTransactions, storage, racing, webhooks);
    }

    /** The tail of a reconciliation: new records, if any, are saved as Solana records and then announced. */
    static method SaveAndAnnounce(a: string, newTransactions: seq<Tx>, storage: WalletService.Storage,
                                  racing: map<WalletService.Key, Tx>, webhooks: map<RunningBots.WalletKey, string>)
      returns (alert: Option<WalletService.Alert>)
      modifies storage
      ensures storage.rows == (if newTransactions == [] then old(storage.rows)
                               else WalletService.RowsAfterSave(old(storage.rows), racing, newTransactions, a, "Solana"))
      ensures alert == (if newTransactions != [] && WalletService.SaveOutcome(newTransactions, a, "Solana", old(storage.rows).Keys, racing.Keys).Ok?
                        then WalletService.NotifyRequest(webhooks, "Solana", a, newTransactions) else None)
      ensures storage.wallets == old(storage.wallets)
    {
      alert := None;
      if newTransactions != [] {
        var saved := storage.SaveTransactions(newTransactions, a, "Solana", racing);
        if saved.Ok? {
          alert := WalletService.NotifyRequest(webhooks, "Solana", a, newTransactions);
        }
      }
    }

    /**
     * A debounce timer firing: only the timer still armed for the address
     * runs; it is disarmed, then the address is reconciled.
     */
    method Fire(address: string, timer: nat, listing: Result<seq<SolService.SigInfo>, string>,
                attempt: (string, nat) -> Result<Option<SolService.ParsedTx>, string>, ageOf: int -> string,
                storage: WalletService.Storage, racing: map<WalletService.Key, Tx>,
                webhooks: map<RunningBots.WalletKey, string>)
      returns (alert: Option<WalletService.Alert>)
      requires Valid()
      modifies this, storage
      ensures Valid()
      ensures address in old(debounce) && old(debounce)[address] == timer ==>
        var spec := SolService.CheckRecentSpec(address, old(state[address].processed), listing, attempt, ageOf);
        && debounce == old(debounce) - {address}
        && state == old(state)[address := old(state[address]).(processed := spec.0)]
        && storage.rows == (if spec.1 == [] then old(storage.rows)
                            else WalletService.RowsAfterSave(old(storage.rows), racing, spec.1, address, "Solana"))
        && alert == (if spec.1 != [] && WalletService.SaveOutcome(spec.1, address, "Solana", old(storage.rows).Keys, racing.Keys).Ok?
                     then WalletService.NotifyRequest(webhooks, "Solana", address, spec.1) else None)
      ensures !(address in old(debounce) && old(debounce)[address] == timer) ==>
        alert.None? && debounce == old(debounce) && state == old(state) && storage.rows == old(storage.rows)
      ensures storage.wallets == old(storage.wallets)
      ensures refcount == old(refcount) && addresses == old(addresses) && nextTimer == old(nextTimer)
    {
      alert := None;
      if address !in debounce || debounce[address] != timer {
        return;
      }
      debounce := debounce - {address};
      alert := Reconcile(address, listing, attempt, ageOf, storage, racing, webhooks);
    }
  }

  /** The first reconciliation after a listener is set up sees an empty seen-set, so it only seeds it and reports nothing. */
  lemma FirstCheckSeedsOnly(a: string, listing: Result<seq<SolService.SigInfo>, string>,
                            attempt: (string, nat) -> Result<Option<SolService.ParsedTx>, string>, ageOf: int -> string)
    ensures SolService.CheckRecentSpec(a, [], listing, attempt, ageOf).1 == []
    ensures Trim(a) != "" && listing.Ok? ==>
      forall s :: s in SolService.Signatures(listing.value) ==> s in SolService.CheckRecentSpec(a, [], listing, attempt, ageOf).0
  {
  }

  /** A duplicate-free sequence has as many elements as the set of them. */
  lemma {:induction false} UniqueCard(s: seq<string>, keys: set<string>)
    requires NoDup(s) && forall a :: a in s <==> a in keys
    ensures |s| == |keys|
    decreases |s|
  {
    if s != [] {
      var rest := s[1..];
      assert forall a :: a in rest <==> a in keys - {s[0]} by {
        forall a ensures a in rest <==> a in keys - {s[0]} {
          if a in rest {
            var j :| 0 <= j < |rest| && rest[j] == a;
            assert s[j + 1] == a;
          }
          if a in s && a != s[0] {
            var j :| 0 <= j < |s| && s[j] == a;
            assert rest[j - 1] == a;
          }
        }
      }
      UniqueCard(rest, keys - {s[0]});
    }
  }
}
