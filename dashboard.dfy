/**
 * The helpers of frontend/src/components/Dashboard.jsx that decide what the
 * dashboard shows: which of a bot's wallets appear and are fetched, the
 * summary card's rotation, and the transactions table (sort, date filter,
 * pages of ten, relative ages).
 *
 * Dates are the numbers of milliseconds `parseAgeDate(...).getTime()`
 * yields, `None` when the age does not parse; the clock and the start of the
 * current day, month and year in IST are parameters.
 */
module Dashboard {
  import opened Base
  import opened Text
  import opened Canonical
  import RunningBots

  // ---------------------------------------------------------------- wallets of the selected bot

  /** `CHAINS`, in display order. */
  const Chains: seq<Chain> := [Ethereum, Solana, Bnb, Bitcoin, Litecoin, Tron]

  /** A chain's place in `CHAINS`. */
  function Position(c: Chain): (k: nat)
    ensures k < |Chains| && Chains[k] == c
  {
    match c
    case Ethereum => 0
    case Solana => 1
    case Bnb => 2
    case Bitcoin => 3
    case Litecoin => 4
    case Tron => 5
  }

  /** `getBotAddress(bot, key)`: the Ethereum slot falls back to `walletAddress`. */
  function BotAddress(bot: RunningBots.Bot, c: Chain): string {
    match c
    case Ethereum => RunningBots.Or(bot.walletEthereum, bot.walletAddress)
    case Solana => bot.walletSolana
    case Bnb => bot.walletBnb
    case Bitcoin => bot.walletBitcoin
    case Litecoin => bot.walletLitecoin
    case Tron => bot.walletTron
  }

  predicate HasWallet(bot: RunningBots.Bot, c: Chain) {
    Trim(BotAddress(bot, c)) != ""
  }

  /** The chains of `cs` whose address is set, in the order of `cs`. */
  function ChainsWithWallet(bot: RunningBots.Bot, cs: seq<Chain>): (r: seq<Chain>)
    ensures forall c :: c in r <==> c in cs && HasWallet(bot, c)
    ensures |r| <= |cs|
  {
    if cs == [] then []
    else (if HasWallet(bot, cs[0]) then [cs[0]] else []) + ChainsWithWallet(bot, cs[1..])
  }

  predicate InDisplayOrder(cs: seq<Chain>) {
    forall i, j :: 0 <= i < j < |cs| ==> Position(cs[i]) < Position(cs[j])
  }

  /** Filtering keeps the display order. */
  lemma {:induction false} ChainsWithWalletOrdered(bot: RunningBots.Bot, cs: seq<Chain>)
    requires InDisplayOrder(cs)
    ensures InDisplayOrder(ChainsWithWallet(bot, cs))
  {
    if cs != [] {
      DisplayOrderTail(cs);
      ChainsWithWalletOrdered(bot, cs[1..]);
      var rest := ChainsWithWallet(bot, cs[1..]);
      if HasWallet(bot, cs[0]) {
        forall c | c in rest ensures Position(cs[0]) < Position(c) {
          var k :| 1 <= k < |cs| && cs[k] == c;
        }
        ConsInDisplayOrder(cs[0], rest);
      }
    }
  }

  lemma DisplayOrderTail(cs: seq<Chain>)
    requires InDisplayOrder(cs) && cs != []
    ensures InDisplayOrder(cs[1..])
  {
    forall i, j | 0 <= i < j < |cs[1..]| ensures Position(cs[1..][i]) < Position(cs[1..][j]) {
      assert cs[1..][i] == cs[i + 1] && cs[1..][j] == cs[j + 1];
    }
  }

  /** A chain placed before every chain of an ordered list keeps it ordered. */
  lemma ConsInDisplayOrder(h: Chain, t: seq<Chain>)
    requires InDisplayOrder(t) && forall c :: c in t ==> Position(h) < Position(c)
    ensures InDisplayOrder([h] + t)
  {
    var l := [h] + t;
    forall i, j | 0 <= i < j < |l| ensures Position(l[i]) < Position(l[j]) {
      assert l[j] == t[j - 1];
      if i > 0 {
        assert l[i] == t[i - 1];
      } else {
        assert l[j] in t;
      }
    }
  }

  /** `walletsInBot`: the `CHAINS` entries with a non-empty trimmed address, in `CHAINS` order. */
  function WalletsInBot(bot: RunningBots.Bot): (r: seq<Chain>)
    ensures forall c :: c in r <==> HasWallet(bot, c)
  {
    assert forall c :: c in Chains by {
      forall c ensures c in Chains { assert Chains[Position(c)] == c; }
    }
    ChainsWithWallet(bot, Chains)
  }

  /** The wallets are listed in `CHAINS` order, each once. */
  lemma WalletsInDisplayOrder(bot: RunningBots.Bot)
    ensures InDisplayOrder(WalletsInBot(bot))
  {
    ChainsInDisplayOrder();
    ChainsWithWalletOrdered(bot, Chains);
  }

  /** `CHAINS` itself is in display order. */
  lemma ChainsInDisplayOrder()
    ensures InDisplayOrder(Chains)
  {
    forall i, j | 0 <= i < j < |Chains| ensures Position(Chains[i]) < Position(Chains[j]) {
      assert Position(Chains[i]) == i && Position(Chains[j]) == j;
    }
  }

  /**
   * The address the dashboard loads for a chain, or `None` when it is not
   * valid enough to ask for: Ethereum any non-empty address, BNB `0x` and at
   * least 40 characters, Tron at least 34, Bitcoin and Litecoin at least 25,
   * Solana at least 32.
   */
  function FetchAddress(bot: RunningBots.Bot, c: Chain): (r: Option<string>)
    ensures r.Some? ==> r.value == Trim(BotAddress(bot, c)) && c in WalletsInBot(bot)
    ensures r.None? <==> (!HasWallet(bot, c) || |Trim(BotAddress(bot, c))| < MinLength(c)
                          || (c == Bnb && !StartsWith(Trim(BotAddress(bot, c)), "0x")))
  {
    var a := Trim(BotAddress(bot, c));
    var ok := match c
      case Ethereum => a != ""
      case Bnb => a != "" && StartsWith(a, "0x") && |a| >= 40
      case Tron => a != "" && |a| >= 34
      case Bitcoin => a != "" && |a| >= 25
      case Litecoin => a != "" && |a| >= 25
      case Solana => a != "" && |a| >= 32;
    if ok then Some(a) else None
  }

  /** The least length `FetchAddress` accepts. */
  function MinLength(c: Chain): nat {
    match c
    case Ethereum => 0
    case Bnb => 40
    case Tron => 34
    case Bitcoin => 25
    case Litecoin => 25
    case Solana => 32
  }

  // ---------------------------------------------------------------- the summary card's rotation

  /** `findIndex(c => c.key === key)`, -1 when absent. */
  function FindIndex(cs: seq<Chain>, key: Chain): (k: int)
    ensures -1 <= k < |cs|
    ensures k == -1 <==> key !in cs
    ensures k >= 0 ==> cs[k] == key && key !in cs[..k]
  {
    if cs == [] then -1
    else if cs[0] == key then 0
    else
      var k := FindIndex(cs[1..], key);
      assert k >= 0 ==> cs[..k + 1] == [cs[0]] + cs[1..][..k];
      if k == -1 then -1 else k + 1
  }

  /**
   * One tick of the auto-loop: the entry after the current key, wrapping to
   * the first at the end or when the key is not listed. With at most one
   * wallet the loop is not running and the key stays.
   */
  function LoopStep(cs: seq<Chain>, key: Chain): (r: Chain)
    ensures |cs| > 1 ==> r in cs
    ensures |cs| <= 1 ==> r == key
    ensures |cs| > 1 && key !in cs ==> r == cs[0]
  {
    if |cs| <= 1 then key
    else
      var idx := FindIndex(cs, key);
      var next := if idx < 0 || idx >= |cs| - 1 then 0 else idx + 1;
      cs[next]
  }

  /** The key after `n` ticks of the loop. */
  function Loop(cs: seq<Chain>, key: Chain, n: nat): Chain {
    if n == 0 then key else LoopStep(cs, Loop(cs, key, n - 1))
  }

  predicate Distinct(cs: seq<Chain>) {
    forall i, j :: 0 <= i < j < |cs| ==> cs[i] != cs[j]
  }

  /** With distinct keys, the loop moves from entry `i` to entry `i + 1`, wrapping. */
  lemma LoopStepNext(cs: seq<Chain>, i: nat)
    requires |cs| > 1 && Distinct(cs) && i < |cs|
    ensures LoopStep(cs, cs[i]) == cs[if i == |cs| - 1 then 0 else i + 1]
  {
    assert FindIndex(cs, cs[i]) == i;
  }

  /** Started on the first wallet, the loop shows the wallets in list order... */
  lemma {:induction false} LoopVisitsInOrder(cs: seq<Chain>, n: nat)
    requires |cs| > 1 && Distinct(cs) && n < |cs|
    ensures Loop(cs, cs[0], n) == cs[n]
  {
    if n > 0 {
      LoopVisitsInOrder(cs, n - 1);
      LoopStepNext(cs, n - 1);
    }
  }

  /** ...and is back on the first one after a full round. */
  lemma LoopReturns(cs: seq<Chain>)
    requires |cs| > 1 && Distinct(cs)
    ensures Loop(cs, cs[0], |cs|) == cs[0]
  {
    LoopVisitsInOrder(cs, |cs| - 1);
    LoopStepNext(cs, |cs| - 1);
  }

  /** `walletsInBot.find(c => c.key === key) || walletsInBot[0]`. */
  function SummaryChain(cs: seq<Chain>, key: Chain): (r: Option<Chain>)
    ensures cs == [] <==> r.None?
    ensures r.Some? ==> r.value in cs && (key in cs ==> r.value == key)
  {
    if key in cs then Some(key) else if cs == [] then None else Some(cs[0])
  }

  // ---------------------------------------------------------------- the transactions table

  /** A saved transaction as the table sees it: its identity and its parsed age. */
  datatype Row = Row(hash: string, token: string, time: Option<int>)

  /** The sort key: `parseAgeDate(age)?.getTime() ?? 0`. */
  function SortTime(r: Row): int {
    r.time.GetOr(0)
  }

  predicate NewestFirst(rows: seq<Row>) {
    forall i, j :: 0 <= i < j < |rows| ==> SortTime(rows[i]) >= SortTime(rows[j])
  }

  /** Places `x` before the first row that is not newer than it. */
  function Insert(x: Row, rows: seq<Row>): (r: seq<Row>)
    requires NewestFirst(rows)
    ensures NewestFirst(r)
    ensures multiset(r) == multiset(rows) + multiset{x}
  {
    if rows == [] || SortTime(rows[0]) <= SortTime(x) then
      NewestFirstHead(rows);
      ConsNewestFirst(x, rows);
      [x] + rows
    else
      NewestFirstTail(rows);
      var rest := Insert(x, rows[1..]);
      assert multiset(rows) == multiset{rows[0]} + multiset(rows[1..]) by {
        assert rows == [rows[0]] + rows[1..];
      }
      NewestFirstHead(rows);
      forall y | y in rest ensures SortTime(rows[0]) >= SortTime(y) {
        assert y in multiset(rest);
      }
      ConsNewestFirst(rows[0], rest);
      [rows[0]] + rest
  }

  /** The head of a newest-first list is at least as new as every row. */
  lemma NewestFirstHead(rows: seq<Row>)
    requires NewestFirst(rows)
    ensures forall y :: y in rows ==> SortTime(rows[0]) >= SortTime(y)
  {
    forall y | y in rows ensures SortTime(rows[0]) >= SortTime(y) {
      var k :| 0 <= k < |rows| && rows[k] == y;
    }
  }

  lemma NewestFirstTail(rows: seq<Row>)
    requires NewestFirst(rows) && rows != []
    ensures NewestFirst(rows[1..])
  {
    forall i, j | 0 <= i < j < |rows[1..]| ensures SortTime(rows[1..][i]) >= SortTime(rows[1..][j]) {
      assert rows[1..][i] == rows[i + 1] && rows[1..][j] == rows[j + 1];
    }
  }

  /** A row at least as new as every row of a newest-first list may go in front of it. */
  lemma ConsNewestFirst(h: Row, t: seq<Row>)
    requires NewestFirst(t) && forall y :: y in t ==> SortTime(h) >= SortTime(y)
    ensures NewestFirst([h] + t)
  {
    var l := [h] + t;
    forall i, j | 0 <= i < j < |l| ensures SortTime(l[i]) >= SortTime(l[j]) {
      assert l[j] == t[j - 1];
      if i > 0 {
        assert l[i] == t[i - 1];
      } else {
        assert l[j] in t;
      }
    }
  }

  /** The copy sorted newest first (comparator `db - da`). */
  function SortByAge(rows: seq<Row>): (r: seq<Row>)
    ensures NewestFirst(r)
    ensures multiset(r) == multiset(rows)
  {
    if rows == [] then []
    else
      assert rows == [rows[0]] + rows[1..];
      Insert(rows[0], SortByAge(rows[1..]))
  }

  /** Sorting neither adds nor drops a row. */
  lemma SortKeepsMembers(rows: seq<Row>)
    ensures forall x :: x in SortByAge(rows) <==> x in rows
  {
    var sorted := SortByAge(rows);
    forall x ensures x in sorted <==> x in rows {
      assert x in sorted <==> x in multiset(sorted);
    }
  }

  /** The start of the current day, month and year in IST, in milliseconds. */
  datatype Starts = Starts(day: int, month: int, year: int)

  const DayMs: int := 24 * 60 * 60 * 1000

  /** The start of a filter's range, `None` for `all` and for an unknown filter. */
  function FilterStart(filterId: string, starts: Starts): (r: Option<int>)
    ensures filterId == "today" ==> r == Some(starts.day)
    ensures filterId == "week" ==> r == Some(starts.day - 7 * DayMs)
    ensures filterId == "month" ==> r == Some(starts.month)
    ensures filterId == "year" ==> r == Some(starts.year)
    ensures r.None? <==> filterId !in {"today", "week", "month", "year"}
  {
    if filterId == "all" then None
    else if filterId == "today" then Some(starts.day)
    else if filterId == "week" then Some(starts.day - 7 * DayMs)
    else if filterId == "month" then Some(starts.month)
    else if filterId == "year" then Some(starts.year)
    else None
  }

  predicate InRange(r: Row, start: int) {
    r.time.Some? && r.time.value >= start
  }

  /** `rows.filter(tx => parsed && parsed >= start)`. */
  function Since(rows: seq<Row>, start: int): (r: seq<Row>)
    ensures forall x :: x in r <==> x in rows && InRange(x, start)
    ensures |r| <= |rows|
  {
    if rows == [] then []
    else (if InRange(rows[0], start) then [rows[0]] else []) + Since(rows[1..], start)
  }

  /** Filtering keeps the newest-first order. */
  lemma {:induction false} SinceKeepsOrder(rows: seq<Row>, start: int)
    requires NewestFirst(rows)
    ensures NewestFirst(Since(rows, start))
  {
    if rows != [] {
      assert NewestFirst(rows[1..]) by {
        forall i, j | 0 <= i < j < |rows[1..]| ensures SortTime(rows[1..][i]) >= SortTime(rows[1..][j]) {
          assert rows[1..][i] == rows[i + 1] && rows[1..][j] == rows[j + 1];
        }
      }
      SinceKeepsOrder(rows[1..], start);
      forall x | x in Since(rows[1..], start) ensures SortTime(rows[0]) >= SortTime(x) {
        var k :| 1 <= k < |rows| && rows[k] == x;
      }
    }
  }

  /** `filterByDateRange`. */
  function FilterByDateRange(rows: seq<Row>, filterId: string, starts: Starts): (r: seq<Row>)
    ensures FilterStart(filterId, starts).None? ==> r == rows
    ensures FilterStart(filterId, starts).Some? ==>
      forall x :: x in r <==> x in rows && InRange(x, FilterStart(filterId, starts).value)
  {
    var start := FilterStart(filterId, starts);
    if start.None? then rows else Since(rows, start.value)
  }

  /** Filtering a newest-first list leaves it newest first. */
  lemma FilterKeepsOrder(rows: seq<Row>, filterId: string, starts: Starts)
    requires NewestFirst(rows)
    ensures NewestFirst(FilterByDateRange(rows, filterId, starts))
  {
    if FilterStart(filterId, starts).Some? {
      SinceKeepsOrder(rows, FilterStart(filterId, starts).value);
    }
  }

  const PageSize: nat := 10

  /** `max(1, ceil(n / 10))`. */
  function TotalPages(n: nat): (t: nat)
    ensures t >= 1
    ensures n <= t * PageSize
    ensures n == 0 || (t - 1) * PageSize < n
  {
    if n == 0 then 1 else (n + PageSize - 1) / PageSize
  }

  /** `min(page, totalPages - 1)`: the page shown when the page state is `page`. */
  function SafePage(page: nat, n: nat): (p: nat)
    ensures p < TotalPages(n)
    ensures page < TotalPages(n) ==> p == page
  {
    Min(page, TotalPages(n) - 1)
  }

  /** `Prev`: `max(0, p - 1)`. */
  function Prev(page: nat): (p: nat)
    ensures page > 0 ==> p == page - 1
    ensures page == 0 ==> p == 0
  {
    Max(0, page - 1)
  }

  /** `Next`: `min(totalPages - 1, p + 1)`. */
  function Next(page: nat, n: nat): (p: nat)
    ensures p < TotalPages(n)
    ensures page + 1 < TotalPages(n) ==> p == page + 1
  {
    Min(TotalPages(n) - 1, page + 1)
  }

  /** Prev and Next keep a page that is in range in range. */
  lemma PagingStaysInRange(page: nat, n: nat)
    requires page < TotalPages(n)
    ensures Prev(page) < TotalPages(n) && Next(page, n) < TotalPages(n)
    ensures SafePage(Prev(page), n) == Prev(page) && SafePage(Next(page, n), n) == Next(page, n)
  {
  }

  /** `rows.slice(safe * 10, (safe + 1) * 10)`. */
  function PageRows(rows: seq<Row>, page: nat): (r: seq<Row>)
    ensures |r| <= PageSize
    ensures rows != [] ==> r != []
    ensures var s := SafePage(page, |rows|) * PageSize;
      s <= |rows| && r == rows[s..Min(|rows|, s + PageSize)]
  {
    var safe := SafePage(page, |rows|);
    ShownPageStart(|rows|, safe);
    rows[safe * PageSize..Min(|rows|, (safe + 1) * PageSize)]
  }

  /** The first row of any page in range exists. */
  lemma ShownPageStart(n: nat, safe: nat)
    requires safe < TotalPages(n)
    ensures safe * PageSize <= n
    ensures n > 0 ==> safe * PageSize < n
  {
    assert safe <= TotalPages(n) - 1;
    assert safe * PageSize <= (TotalPages(n) - 1) * PageSize;
  }

  /** Every row is on exactly one page: row `i` is entry `i % 10` of page `i / 10`. */
  lemma RowOnPage(rows: seq<Row>, i: nat)
    requires i < |rows|
    ensures i / PageSize < TotalPages(|rows|)
    ensures var page := PageRows(rows, i / PageSize); i % PageSize < |page| && page[i % PageSize] == rows[i]
  {
    var p := i / PageSize;
    assert p * PageSize <= i < p * PageSize + PageSize;
    assert (TotalPages(|rows|) - 1) * PageSize < |rows| <= TotalPages(|rows|) * PageSize;
    assert p < TotalPages(|rows|);
    assert SafePage(p, |rows|) == p;
  }

  /** What the table shows for a page state. */
  datatype Table = Table(filtered: seq<Row>, page: nat, totalPages: nat, rows: seq<Row>)

  /** `TransactionsTable`: sort a copy, filter it, cut out the page. */
  function TableView(transactions: seq<Row>, filterId: string, starts: Starts, page: nat): (t: Table)
    ensures NewestFirst(t.filtered) && NewestFirst(t.rows)
    ensures forall x :: x in t.filtered ==> x in transactions
    ensures FilterStart(filterId, starts).None? ==> multiset(t.filtered) == multiset(transactions)
    ensures FilterStart(filterId, starts).Some? ==>
      forall x :: x in t.filtered <==> x in transactions && InRange(x, FilterStart(filterId, starts).value)
    ensures t.page < t.totalPages && |t.rows| <= PageSize
    ensures forall x :: x in t.rows ==> x in t.filtered
  {
    var sorted := SortByAge(transactions);
    SortKeepsMembers(transactions);
    var filtered := FilterByDateRange(sorted, filterId, starts);
    FilterKeepsOrder(sorted, filterId, starts);
    var safe := SafePage(page, |filtered|);
    var rows := PageRows(filtered, page);
    assert forall x :: x in rows ==> x in filtered;
    Table(filtered, safe, TotalPages(|filtered|), rows)
  }

  // ---------------------------------------------------------------- relative ages

  /** How long ago a date was, in its largest non-zero unit. */
  datatype Ago = JustNow | Years(years: nat) | Days(days: nat) | Hours(hours: nat) | Minutes(minutes: nat) | Seconds(seconds: nat)

  const SecondMs: nat := 1000
  const MinuteMs: nat := 60 * 1000
  const HourMs: nat := 60 * 60 * 1000
  const YearMs: nat := 365 * 24 * 60 * 60 * 1000

  /**
   * The unit `ageToAgo` reports for a difference of `diff` milliseconds:
   * nothing below a second, otherwise the largest unit of which at least one
   * whole one has passed (a year is 365 days), with that whole count.
   */
  function Elapsed(diff: int): (a: Ago)
    ensures diff < SecondMs ==> a == JustNow
    ensures diff >= YearMs ==> a == Years(diff / YearMs)
    ensures DayMs <= diff < YearMs ==> a == Days(diff / DayMs)
    ensures HourMs <= diff < DayMs ==> a == Hours(diff / HourMs)
    ensures MinuteMs <= diff < HourMs ==> a == Minutes(diff / MinuteMs)
    ensures SecondMs <= diff < MinuteMs ==> a == Seconds(diff / SecondMs)
  {
    if diff < 0 then JustNow
    else
      var sec := diff / 1000;
      var min := sec / 60;
      var hrs := min / 60;
      var days := hrs / 24;
      var years := days / 365;
      assert min == diff / MinuteMs;
      assert hrs == diff / HourMs;
      assert days == diff / DayMs;
      assert years == diff / YearMs;
      if years > 0 then Years(years)
      else if days > 0 then Days(days)
      else if hrs > 0 then Hours(hrs)
      else if min > 0 then Minutes(min)
      else if sec > 0 then Seconds(sec)
      else JustNow
  }

  /** `n unit` with an `s` when n > 1. */
  function Plural(n: nat, unit: string): string {
    NatToString(n) + " " + unit + (if n > 1 then "s" else "")
  }

  /** The text of an `Ago`. */
  function AgoText(a: Ago): (s: string)
    ensures a == JustNow <==> s == "just now"
  {
    if a == JustNow then "just now"
    else
      var phrase := match a
        case Years(n) => Plural(n, "year")
        case Days(n) => Plural(n, "day")
        case Hours(n) => Plural(n, "hr")
        case Minutes(n) => NatToString(n) + " min"
        case Seconds(n) => NatToString(n) + "s";
      var s := phrase + " ago";
      assert s[|s| - 1] == 'o';
      s
  }

  /** `ageToAgo(age)`: an unparseable age is shown raw, or as a dash when empty. */
  function AgeToAgo(age: string, parsed: Option<int>, now: int): (s: string)
    ensures parsed.None? ==> s == (if age == "" then "—" else age)
    ensures parsed.Some? && now - parsed.value < SecondMs ==> s == "just now"
  {
    if parsed.None? then (if age == "" then "—" else age)
    else AgoText(Elapsed(now - parsed.value))
  }
}
