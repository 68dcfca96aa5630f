/** The 2024 rankings of Run.py's comparative report: each selected bank
    with its rate in the first month of 2024, sorted by rate in place
    (deposit rates highest first, lending rates lowest first), and the first
    entry of each ranking recommended as the best. */
module Rankings {
  import opened RateHistory

  /** A bank and its rate. */
  type Entry = (string, real)

  /** The sort key: the rate, negated when the ranking is highest first. */
  function Key(x: Entry, descending: bool): real
  {
    if descending then -x.1 else x.1
  }

  /** x may come before y: a rate at least as high (descending) or at most
      as high (ascending). */
  predicate InOrder(x: Entry, y: Entry, descending: bool)
  {
    Key(x, descending) <= Key(y, descending)
  }

  /** The first n entries are in order. */
  predicate SortedPrefix(s: seq<Entry>, n: int, descending: bool)
    requires n <= |s|
  {
    forall p, q :: 0 <= p < q < n ==> InOrder(s[p], s[q], descending)
  }

  predicate SortedBy(s: seq<Entry>, descending: bool)
  {
    SortedPrefix(s, |s|, descending)
  }

  /** Exchanges two neighbouring entries. */
  method SwapDown(a: array<Entry>, j: int)
    requires 0 < j < a.Length
    modifies a
    ensures a[j - 1] == old(a[j]) && a[j] == old(a[j - 1])
    ensures forall m :: 0 <= m < a.Length && m != j - 1 && m != j ==> a[m] == old(a[m])
    ensures multiset(a[..]) == multiset(old(a[..]))
  {
    a[j - 1], a[j] := a[j], a[j - 1];
  }

  /** One insertion step: a[i] moves left past every entry with a strictly
      worse key, so the first i + 1 entries end up in order. */
  method InsertAt(a: array<Entry>, i: int, descending: bool)
    requires 0 <= i < a.Length && SortedPrefix(a[..], i, descending)
    modifies a
    ensures SortedPrefix(a[..], i + 1, descending)
    ensures multiset(a[..]) == multiset(old(a[..]))
  {
    var j := i;
    while j > 0 && Key(a[j], descending) < Key(a[j - 1], descending)
      invariant 0 <= j <= i
      invariant multiset(a[..]) == multiset(old(a[..]))
      invariant forall p, q :: 0 <= p < q <= i && q != j ==> InOrder(a[p], a[q], descending)
    {
      SwapDown(a, j);
      j := j - 1;
    }
  }

  /** Sorts the entries by rate, in place, by insertion. */
  method SortRanking(a: array<Entry>, descending: bool)
    modifies a
    ensures SortedBy(a[..], descending)
    ensures multiset(a[..]) == multiset(old(a[..]))
  {
    for i := 0 to a.Length
      invariant SortedPrefix(a[..], i, descending)
      invariant multiset(a[..]) == multiset(old(a[..]))
    {
      InsertAt(a, i, descending);
    }
  }

  /** A ranking: the same entries, sorted; its head is at least as good as
      every entry. */
  method Rank(entries: seq<Entry>, descending: bool) returns (ranking: seq<Entry>)
    ensures multiset(ranking) == multiset(entries)
    ensures SortedBy(ranking, descending)
    ensures |ranking| == |entries|
    ensures |entries| > 0 ==> forall e :: e in entries ==> InOrder(ranking[0], e, descending)
  {
    var a := new Entry[|entries|](k requires 0 <= k < |entries| => entries[k]);
    assert a[..] == entries;
    SortRanking(a, descending);
    ranking := a[..];
    assert |ranking| == |multiset(ranking)| == |multiset(entries)| == |entries|;
    forall e | e in entries && |entries| > 0
      ensures InOrder(ranking[0], e, descending)
    {
      assert e in multiset(ranking);
      var j :| 0 <= j < |ranking| && ranking[j] == e;
    }
  }

  /** The first month on or after January 1 of a year of the axis: month k
      ends inside year YearOfMonth(k), so this is the first month of that year. */
  function FirstMonthFrom(year: int): (k: nat)
    requires OnAxisYear(year)
    ensures k < MonthCount && YearOfMonth(k) >= year
    ensures forall j :: 0 <= j < k ==> YearOfMonth(j) < year
  {
    12 * (year - 2002)
  }

  /** January 2024 is month 264. */
  lemma First2024Month()
    ensures FirstMonthFrom(2024) == 264 && YearOfMonth(264) == 2024 && YearOfMonth(263) == 2023
  {
  }

  /** The entries of one ranking: each selected bank with its rate in the
      first month of 2024. */
  function EntriesFor(banks: seq<string>, series: seq<seq<real>>): (es: seq<Entry>)
    requires |series| == |banks| && forall b :: 0 <= b < |series| ==> |series[b]| == MonthCount
    ensures |es| == |banks|
    ensures forall b :: 0 <= b < |banks| ==> es[b] == (banks[b], series[b][FirstMonthFrom(2024)])
  {
    seq(|banks|, b requires 0 <= b < |banks| => (banks[b], series[b][FirstMonthFrom(2024)]))
  }

  /** The ranking part of the comparative report: the deposit ranking
      (highest rate first) and the lending ranking (lowest first), each a
      permutation of the banks' 2024 entries, and the recommended banks
      heading them, whose rates are the best of all selected banks. */
  method ComparativeRankings(banks: seq<string>, deposits: seq<seq<real>>, lendings: seq<seq<real>>)
    returns (depositRanking: seq<Entry>, lendingRanking: seq<Entry>, bestDeposit: string, bestLending: string)
    requires |banks| > 0
    requires |deposits| == |banks| && forall b :: 0 <= b < |deposits| ==> |deposits[b]| == MonthCount
    requires |lendings| == |banks| && forall b :: 0 <= b < |lendings| ==> |lendings[b]| == MonthCount
    ensures multiset(depositRanking) == multiset(EntriesFor(banks, deposits)) && SortedBy(depositRanking, true)
    ensures multiset(lendingRanking) == multiset(EntriesFor(banks, lendings)) && SortedBy(lendingRanking, false)
    ensures bestDeposit in banks && bestLending in banks
    ensures |depositRanking| > 0 && bestDeposit == depositRanking[0].0
    ensures |lendingRanking| > 0 && bestLending == lendingRanking[0].0
    ensures forall b :: 0 <= b < |banks| ==> depositRanking[0].1 >= deposits[b][264]
    ensures forall b :: 0 <= b < |banks| ==> lendingRanking[0].1 <= lendings[b][264]
  {
    var row := FirstMonthFrom(2024);
    var depositEntries: seq<Entry> := [];
    for b := 0 to |banks|
      invariant depositEntries == EntriesFor(banks[..b], deposits[..b])
    {
      depositEntries := depositEntries + [(banks[b], deposits[b][row])];
    }
    assert banks[..|banks|] == banks && deposits[..|deposits|] == deposits;
    depositRanking := Rank(depositEntries, true);
    var lendingEntries: seq<Entry> := [];
    for b := 0 to |banks|
      invariant lendingEntries == EntriesFor(banks[..b], lendings[..b])
    {
      lendingEntries := lendingEntries + [(banks[b], lendings[b][row])];
    }
    assert lendings[..|lendings|] == lendings;
    lendingRanking := Rank(lendingEntries, false);
    bestDeposit := depositRanking[0].0;
    bestLending := lendingRanking[0].0;
    RankingHeadFromBanks(banks, deposits, depositRanking, true);
    RankingHeadFromBanks(banks, lendings, lendingRanking, false);
  }

  /** The head of a ranking of the 2024 entries names a selected bank and is
      at least as good as every bank's 2024 rate. */
  lemma RankingHeadFromBanks(banks: seq<string>, series: seq<seq<real>>, ranking: seq<Entry>, descending: bool)
    requires |banks| > 0
    requires |series| == |banks| && forall b :: 0 <= b < |series| ==> |series[b]| == MonthCount
    requires multiset(ranking) == multiset(EntriesFor(banks, series)) && |ranking| > 0
    requires forall e :: e in EntriesFor(banks, series) ==> InOrder(ranking[0], e, descending)
    ensures ranking[0].0 in banks
    ensures forall b :: 0 <= b < |banks| ==> InOrder(ranking[0], (banks[b], series[b][264]), descending)
  {
    var es := EntriesFor(banks, series);
    assert ranking[0] in multiset(es);
    var i :| 0 <= i < |es| && es[i] == ranking[0];
    assert ranking[0].0 == banks[i];
    forall b | 0 <= b < |banks|
      ensures InOrder(ranking[0], (banks[b], series[b][264]), descending)
    {
      assert es[b] in es;
    }
  }
}
