/** One bank's monthly rate table (Run.py's get_all_bank_rates): the five
    generated rate series and the asset series side by side, one row per
    month, then three spread columns added in place as exact differences. */
module RateTable {
  import opened BankProfiles
  import opened RateLookup
  import opened RateHistory
  import opened BankAssets

  /** The three derived columns. */
  datatype Spreads = Spreads(retail: real, corporate: real, mortgageDiscount: real)

  /** One month of the table; `spreads` is None until the derived columns
      are added. */
  datatype RateRow = RateRow(
    month: nat,
    deposit: real,
    lending: real,
    mortgage: real,
    corporateDeposit: real,
    corporateLending: real,
    assets: real,
    spreads: Option<Spreads>)

  /** A row with its derived columns: lending minus deposit, corporate
      lending minus corporate deposit, lending minus mortgage. */
  function WithSpreads(r: RateRow): (s: RateRow)
    ensures s.(spreads := r.spreads) == r
    ensures s.spreads.Some?
    ensures s.deposit + s.spreads.value.retail == s.lending
    ensures s.corporateDeposit + s.spreads.value.corporate == s.corporateLending
    ensures s.mortgage + s.spreads.value.mortgageDiscount == s.lending
  {
    r.(spreads := Some(Spreads(r.lending - r.deposit, r.corporateLending - r.corporateDeposit, r.lending - r.mortgage)))
  }

  /** Adds the three derived columns to every row, in place. */
  method AddSpreadColumns(table: array<RateRow>)
    modifies table
    ensures forall k :: 0 <= k < table.Length ==> table[k] == WithSpreads(old(table[k]))
  {
    for i := 0 to table.Length
      invariant forall k :: 0 <= k < i ==> table[k] == WithSpreads(old(table[k]))
      invariant forall k :: i <= k < table.Length ==> table[k] == old(table[k])
    {
      var row := table[i];
      table[i] := row.(spreads := Some(Spreads(row.lending - row.deposit,
                                               row.corporateLending - row.corporateDeposit,
                                               row.lending - row.mortgage)));
    }
  }

  /** The normal draws of the five rate generators and the asset growth draws. */
  datatype RateDraws = RateDraws(
    deposit: seq<real>,
    lending: seq<real>,
    mortgage: seq<real>,
    corporateDeposit: seq<real>,
    corporateLending: seq<real>,
    assetGrowth: seq<real>)

  predicate ValidRateDraws(d: RateDraws)
  {
    && |d.deposit| == MonthCount && |d.lending| == MonthCount && |d.mortgage| == MonthCount
    && |d.corporateDeposit| == MonthCount && |d.corporateLending| == MonthCount && |d.assetGrowth| == MonthCount
  }

  /** Row k of the table before the derived columns: every series' k-th value. */
  function RowAt(bank: string, d: RateDraws, k: nat): (r: RateRow)
    requires ValidRateDraws(d) && k < MonthCount
    ensures r.month == k && r.spreads == None
    ensures r.deposit >= 0.1 && r.lending >= 1.5 && r.mortgage >= 0.8
    ensures r.corporateDeposit >= 0.0 && r.corporateLending >= 1.0
  {
    RateRow(k,
      HistoricalAt(DepositHistory, 0.1, bank, Deposit, d.deposit[k], k),
      HistoricalAt(LendingHistory, 1.5, bank, Lending, d.lending[k], k),
      HistoricalAt(MortgageHistory, 0.8, bank, Mortgage, d.mortgage[k], k),
      HistoricalAt(CorporateDepositHistory, 0.0, bank, CorporateDeposit, d.corporateDeposit[k], k),
      HistoricalAt(CorporateLendingHistory, 1.0, bank, CorporateLending, d.corporateLending[k], k),
      Compounded(BaseAssets(bank), d.assetGrowth, k),
      None)
  }

  /** A fresh table holding the given rows. */
  method NewRateTable(rows: seq<RateRow>) returns (table: array<RateRow>)
    ensures fresh(table) && table[..] == rows
  {
    table := new RateRow[|rows|](k requires 0 <= k < |rows| => rows[k]);
  }

  /** All of a bank's series joined month by month, then the derived columns.
      Every series has the same 288 month-ends, so the outer join on the date
      lines rows up by index and the interpolation finds nothing to fill. */
  method GetAllBankRates(bank: string, d: RateDraws) returns (table: array<RateRow>)
    requires ValidRateDraws(d)
    ensures fresh(table) && table.Length == MonthCount
    ensures forall k :: 0 <= k < MonthCount ==> table[k] == WithSpreads(RowAt(bank, d, k))
  {
    var deposit := GetHistoricalDepositRates(bank, d.deposit);
    var lending := GetHistoricalLendingRates(bank, d.lending);
    var mortgage := GetMortgageRates(bank, d.mortgage);
    var corporateDeposit, corporateLending := GetCorporateRates(bank, d.corporateDeposit, d.corporateLending);
    var assets := GetBankAssets(bank, d.assetGrowth);
    var rows := seq(MonthCount, k requires 0 <= k < MonthCount =>
      RateRow(k, deposit[k], lending[k], mortgage[k], corporateDeposit[k], corporateLending[k], assets[k], None));
    assert forall k :: 0 <= k < MonthCount ==> rows[k] == RowAt(bank, d, k);
    table := NewRateTable(rows);
    AddSpreadColumns(table);
  }

  /** In the lending and mortgage tables every year is exactly one point
      apart. */
  lemma LendingMortgageGapIsOnePoint(y: int)
    requires OnAxisYear(y)
    ensures LendingHistory[y] - MortgageHistory[y] == 1.0
  {
    var i := y - 2002;
    assert LendingHistory[y] == LendingByYear[i] && MortgageHistory[y] == MortgageByYear[i];
    assert i == 0 || i == 1 || i == 2 || i == 3 || i == 4 || i == 5 || i == 6 || i == 7 || i == 8 || i == 9
      || i == 10 || i == 11 || i == 12 || i == 13 || i == 14 || i == 15 || i == 16 || i == 17 || i == 18
      || i == 19 || i == 20 || i == 21 || i == 22 || i == 23;
  }

  /** With zero draws and no clamping, the mortgage discount of month k is
      one point plus the difference of the bank's lending and mortgage
      adjustments; for Crédit Agricole both are -0.1, so it is exactly 1. */
  lemma MortgageDiscountWithoutNoise(bank: string, d: RateDraws, k: nat)
    requires ValidRateDraws(d) && k < MonthCount
    requires d.lending[k] == 0.0 && d.mortgage[k] == 0.0
    requires LendingHistory[YearOfMonth(k)] + BankAdjustmentValue(bank, Lending) >= 1.5
    requires MortgageHistory[YearOfMonth(k)] + BankAdjustmentValue(bank, Mortgage) >= 0.8
    ensures WithSpreads(RowAt(bank, d, k)).spreads.value.mortgageDiscount
      == 1.0 + BankAdjustmentValue(bank, Lending) - BankAdjustmentValue(bank, Mortgage)
    ensures Contains(bank, "Crédit Agricole") ==> WithSpreads(RowAt(bank, d, k)).spreads.value.mortgageDiscount == 1.0
  {
    LendingMortgageGapIsOnePoint(YearOfMonth(k));
    if Contains(bank, "Crédit Agricole") {
      CreditAgricoleAdjustments(bank);
    }
  }

  /** In the historical tables the retail spread lies between 1.8 points
      (2020-2021) and 3 points (2002-2004). */
  lemma RetailHistorySpreadBounds(y: int)
    requires OnAxisYear(y)
    ensures 1.8 <= LendingHistory[y] - DepositHistory[y] <= 3.0
  {
    var i := y - 2002;
    assert LendingHistory[y] == LendingByYear[i] && DepositHistory[y] == DepositByYear[i];
    assert i == 0 || i == 1 || i == 2 || i == 3 || i == 4 || i == 5 || i == 6 || i == 7 || i == 8 || i == 9
      || i == 10 || i == 11 || i == 12 || i == 13 || i == 14 || i == 15 || i == 16 || i == 17 || i == 18
      || i == 19 || i == 20 || i == 21 || i == 22 || i == 23;
  }
}
