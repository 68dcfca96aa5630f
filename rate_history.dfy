/** The monthly historical rate generators of Run.py: for each month from
    January 2002 to December 2025, the year's historical base plus the bank's
    adjustment plus a normal draw, clamped from below by a floor. */
module RateHistory {
  import opened RateLookup

  /** The monthly axis: 24 years of 12 month-ends, 2002-01 to 2025-12. */
  const MonthCount: nat := 288

  /** Calendar year of the k-th month of the axis. */
  function YearOfMonth(k: int): (y: int)
    ensures 0 <= k < MonthCount ==> 2002 <= y <= 2025
  {
    2002 + k / 12
  }

  /** Python's `dict.get(key, default)`. */
  function Lookup(m: map<int, real>, y: int, default: real): (v: real)
    ensures y in m ==> v == m[y]
    ensures y !in m ==> v == default
  {
    if y in m then m[y] else default
  }

  function Max(a: real, b: real): (m: real)
    ensures m >= a && m >= b && (m == a || m == b)
  {
    if a >= b then a else b
  }

  predicate OnAxisYear(y: int)
  {
    2002 <= y <= 2025
  }

  /** A table keyed by the years 2002..2025, holding values[y - 2002] for year y. */
  function YearTable(values: seq<real>): (m: map<int, real>)
    requires |values| == 24
    ensures forall y :: y in m ==> OnAxisYear(y)
    ensures forall y :: OnAxisYear(y) ==> y in m && m[y] == values[y - 2002]
  {
    map y | 2002 <= y <= 2025 && OnAxisYear(y) :: values[y - 2002]
  }

  /** Retail deposit rates per year (percent). */
  const DepositByYear: seq<real> := [
    3.5, 3.0, 2.5, 2.5, 3.0, 3.5, 4.0, 2.0, 1.5, 1.8, 1.5, 1.2,
    1.0, 0.8, 0.5, 0.4, 0.4, 0.3, 0.2, 0.2, 0.8, 1.5, 1.8, 1.6]
  const DepositHistory: map<int, real> := YearTable(DepositByYear)

  /** Retail lending rates per year (percent). */
  const LendingByYear: seq<real> := [
    6.5, 6.0, 5.5, 5.0, 5.5, 6.0, 6.5, 4.5, 4.0, 4.3, 4.0, 3.7,
    3.5, 3.2, 2.8, 2.5, 2.5, 2.3, 2.0, 2.0, 2.8, 3.5, 3.8, 3.6]
  const LendingHistory: map<int, real> := YearTable(LendingByYear)

  /** Mortgage rates per year (percent); the corporate lending table is the same. */
  const MortgageByYear: seq<real> := [
    5.5, 5.0, 4.5, 4.0, 4.5, 5.0, 5.5, 3.5, 3.0, 3.3, 3.0, 2.7,
    2.5, 2.2, 1.8, 1.5, 1.5, 1.3, 1.0, 1.0, 1.8, 2.5, 2.8, 2.6]
  const MortgageHistory: map<int, real> := YearTable(MortgageByYear)

  /** Corporate deposit rates per year (percent). */
  const CorporateDepositByYear: seq<real> := [
    2.5, 2.0, 1.5, 1.5, 2.0, 2.5, 3.0, 1.0, 0.5, 0.8, 0.5, 0.2,
    0.1, 0.0, 0.0, 0.0, 0.0, 0.0, 0.0, 0.0, 0.3, 1.0, 1.3, 1.1]
  const CorporateDepositHistory: map<int, real> := YearTable(CorporateDepositByYear)

  const CorporateLendingHistory: map<int, real> := MortgageHistory

  /** Every year of the axis has an entry in every table. */
  ghost predicate CoversAxis(m: map<int, real>)
  {
    forall y :: OnAxisYear(y) ==> y in m
  }

  lemma HistoriesCoverAxis()
    ensures CoversAxis(DepositHistory) && CoversAxis(LendingHistory) && CoversAxis(MortgageHistory)
    ensures CoversAxis(CorporateDepositHistory) && CoversAxis(CorporateLendingHistory)
  {
  }

  /** One generated value: the floor, or base plus adjustment plus draw if larger. */
  function Clamped(floor: real, base: real, adjustment: real, z: real): (v: real)
    ensures v >= floor
    ensures base + adjustment + z >= floor ==> v == base + adjustment + z
    ensures base + adjustment + z < floor ==> v == floor
  {
    Max(floor, base + adjustment + z)
  }

  /** The append loop shared by the generators: month by month, the year's
      base (or the default for a missing year), the year's adjustment (or 0),
      and that month's draw, clamped by the floor. */
  method ClampedMonthly(history: map<int, real>, default: real, adjustments: map<int, real>,
                        floor: real, noise: seq<real>) returns (rates: seq<real>)
    requires |noise| == MonthCount
    ensures |rates| == MonthCount
    ensures forall k :: 0 <= k < MonthCount ==>
      rates[k] == Clamped(floor, Lookup(history, YearOfMonth(k), default), Lookup(adjustments, YearOfMonth(k), 0.0), noise[k])
  {
    rates := [];
    var k := 0;
    while k < MonthCount
      invariant 0 <= k <= MonthCount && |rates| == k
      invariant forall j :: 0 <= j < k ==>
        rates[j] == Clamped(floor, Lookup(history, YearOfMonth(j), default), Lookup(adjustments, YearOfMonth(j), 0.0), noise[j])
    {
      var year := YearOfMonth(k);
      var baseRate := Lookup(history, year, default);
      var adjustment := Lookup(adjustments, year, 0.0);
      rates := rates + [Max(floor, baseRate + adjustment + noise[k])];
      k := k + 1;
    }
  }

  /** On the axis, a bank's adjustment table reads as its single value. */
  lemma AdjustmentOnAxis(bank: string, kind: RateKind, k: int)
    requires 0 <= k < MonthCount
    ensures Lookup(BankAdjustments(bank, kind), YearOfMonth(k), 0.0) == BankAdjustmentValue(bank, kind)
  {
    var m := BankAdjustments(bank, kind);
    if m != map[] {
      assert InAdjustmentRange(YearOfMonth(k));
    }
  }

  /** The value of month k of a generator: the clamped sum of the year's
      history entry, the bank's constant adjustment and the draw. */
  function HistoricalAt(history: map<int, real>, floor: real, bank: string, kind: RateKind, z: real, k: int): real
    requires 0 <= k < MonthCount && CoversAxis(history)
  {
    Clamped(floor, history[YearOfMonth(k)], BankAdjustmentValue(bank, kind), z)
  }

  /** Connects the loop's per-month value to `HistoricalAt`: the default
      base and the default adjustment are never used on the axis. */
  lemma GeneratedOnAxis(history: map<int, real>, default: real, floor: real, bank: string, kind: RateKind,
                        noise: seq<real>, rates: seq<real>)
    requires |noise| == MonthCount && |rates| == MonthCount && CoversAxis(history)
    requires forall k :: 0 <= k < MonthCount ==>
      rates[k] == Clamped(floor, Lookup(history, YearOfMonth(k), default), Lookup(BankAdjustments(bank, kind), YearOfMonth(k), 0.0), noise[k])
    ensures forall k :: 0 <= k < MonthCount ==> rates[k] == HistoricalAt(history, floor, bank, kind, noise[k], k)
  {
    forall k | 0 <= k < MonthCount
      ensures rates[k] == HistoricalAt(history, floor, bank, kind, noise[k], k)
    {
      AdjustmentOnAxis(bank, kind, k);
    }
  }

  /** Retail deposit rates: floor 0.1, default base 1.5. */
  method GetHistoricalDepositRates(bank: string, noise: seq<real>) returns (rates: seq<real>)
    requires |noise| == MonthCount
    ensures |rates| == MonthCount
    ensures forall k :: 0 <= k < MonthCount ==>
      rates[k] >= 0.1 && rates[k] == HistoricalAt(DepositHistory, 0.1, bank, Deposit, noise[k], k)
  {
    rates := ClampedMonthly(DepositHistory, 1.5, BankAdjustments(bank, Deposit), 0.1, noise);
    GeneratedOnAxis(DepositHistory, 1.5, 0.1, bank, Deposit, noise, rates);
  }

  /** Retail lending rates: floor 1.5, default base 3.5. */
  method GetHistoricalLendingRates(bank: string, noise: seq<real>) returns (rates: seq<real>)
    requires |noise| == MonthCount
    ensures |rates| == MonthCount
    ensures forall k :: 0 <= k < MonthCount ==>
      rates[k] >= 1.5 && rates[k] == HistoricalAt(LendingHistory, 1.5, bank, Lending, noise[k], k)
  {
    rates := ClampedMonthly(LendingHistory, 3.5, BankAdjustments(bank, Lending), 1.5, noise);
    GeneratedOnAxis(LendingHistory, 3.5, 1.5, bank, Lending, noise, rates);
  }

  /** Mortgage rates: floor 0.8, default base 2.5. */
  method GetMortgageRates(bank: string, noise: seq<real>) returns (rates: seq<real>)
    requires |noise| == MonthCount
    ensures |rates| == MonthCount
    ensures forall k :: 0 <= k < MonthCount ==>
      rates[k] >= 0.8 && rates[k] == HistoricalAt(MortgageHistory, 0.8, bank, Mortgage, noise[k], k)
  {
    rates := ClampedMonthly(MortgageHistory, 2.5, BankAdjustments(bank, Mortgage), 0.8, noise);
    GeneratedOnAxis(MortgageHistory, 2.5, 0.8, bank, Mortgage, noise, rates);
  }

  /** The corporate append loop: each month a deposit value (floor 0.0,
      default base 0.5) and then a lending value (floor 1.0, default 2.5),
      each drawing its own noise. */
  method CorporateMonthly(depositHistory: map<int, real>, lendingHistory: map<int, real>,
                          depositAdj: map<int, real>, lendingAdj: map<int, real>,
                          depositNoise: seq<real>, lendingNoise: seq<real>)
    returns (deposits: seq<real>, lendings: seq<real>)
    requires |depositNoise| == MonthCount && |lendingNoise| == MonthCount
    ensures |deposits| == MonthCount && |lendings| == MonthCount
    ensures forall k :: 0 <= k < MonthCount ==>
      deposits[k] == Clamped(0.0, Lookup(depositHistory, YearOfMonth(k), 0.5), Lookup(depositAdj, YearOfMonth(k), 0.0), depositNoise[k])
    ensures forall k :: 0 <= k < MonthCount ==>
      lendings[k] == Clamped(1.0, Lookup(lendingHistory, YearOfMonth(k), 2.5), Lookup(lendingAdj, YearOfMonth(k), 0.0), lendingNoise[k])
  {
    deposits, lendings := [], [];
    for k := 0 to MonthCount
      invariant |deposits| == k && |lendings| == k
      invariant forall j :: 0 <= j < k ==>
        deposits[j] == Clamped(0.0, Lookup(depositHistory, YearOfMonth(j), 0.5), Lookup(depositAdj, YearOfMonth(j), 0.0), depositNoise[j])
      invariant forall j :: 0 <= j < k ==>
        lendings[j] == Clamped(1.0, Lookup(lendingHistory, YearOfMonth(j), 2.5), Lookup(lendingAdj, YearOfMonth(j), 0.0), lendingNoise[j])
    {
      var year := YearOfMonth(k);
      var baseDeposit := Lookup(depositHistory, year, 0.5);
      deposits := deposits + [Max(0.0, baseDeposit + Lookup(depositAdj, year, 0.0) + depositNoise[k])];
      var baseLending := Lookup(lendingHistory, year, 2.5);
      lendings := lendings + [Max(1.0, baseLending + Lookup(lendingAdj, year, 0.0) + lendingNoise[k])];
    }
  }

  /** Corporate rates: both series from one loop, deposit never below 0.0
      and lending never below 1.0. */
  method GetCorporateRates(bank: string, depositNoise: seq<real>, lendingNoise: seq<real>)
    returns (deposits: seq<real>, lendings: seq<real>)
    requires |depositNoise| == MonthCount && |lendingNoise| == MonthCount
    ensures |deposits| == MonthCount && |lendings| == MonthCount
    ensures forall k :: 0 <= k < MonthCount ==>
      && deposits[k] >= 0.0
      && deposits[k] == HistoricalAt(CorporateDepositHistory, 0.0, bank, CorporateDeposit, depositNoise[k], k)
    ensures forall k :: 0 <= k < MonthCount ==>
      && lendings[k] >= 1.0
      && lendings[k] == HistoricalAt(CorporateLendingHistory, 1.0, bank, CorporateLending, lendingNoise[k], k)
  {
    deposits, lendings := CorporateMonthly(CorporateDepositHistory, CorporateLendingHistory,
                                           BankAdjustments(bank, CorporateDeposit), BankAdjustments(bank, CorporateLending),
                                           depositNoise, lendingNoise);
    HistoriesCoverAxis();
    GeneratedOnAxis(CorporateDepositHistory, 0.5, 0.0, bank, CorporateDeposit, depositNoise, deposits);
    GeneratedOnAxis(CorporateLendingHistory, 2.5, 1.0, bank, CorporateLending, lendingNoise, lendings);
  }

  /** The axis has twelve months per year: month k falls in year y exactly
      when k lies in [12 (y - 2002), 12 (y - 2002) + 12). */
  lemma MonthsOfYear(k: int, y: int)
    requires 0 <= k < MonthCount
    ensures YearOfMonth(k) == y <==> 12 * (y - 2002) <= k < 12 * (y - 2002) + 12
  {
  }

  /** With a zero draw and a rate above the floor, a month's value is
      exactly the historical base plus the bank's adjustment: Crédit
      Agricole's December 2024 deposit rate is 1.8 + 0.1. */
  lemma CreditAgricoleDeposit2024(bank: string)
    requires Contains(bank, "Crédit Agricole")
    ensures HistoricalAt(DepositHistory, 0.1, bank, Deposit, 0.0, 275) == 1.9
  {
    CreditAgricoleAdjustments(bank);
  }
}
