/** The fallback rate simulators of Run.py: a deposit base that is piecewise
    linear in the year, and the lending, mortgage and corporate series
    derived from it by bounded uniform offsets; plus the dispatch on the
    rate-type label that picks one of them. */
module RateFallback {
  import opened RateLookup
  import opened RateHistory

  /** The fallback deposit base (percent) for a year, following the central
      bank's rate path; every year outside the listed periods, including
      years before 2002, takes the last branch, 1.6. */
  function FallbackDepositBase(year: int): (r: real)
    ensures 0.25 <= r <= 4.0
    ensures r == 4.0 <==> year == 2008
    ensures year < 2002 || year > 2025 ==> r == 1.6
  {
    if 2002 <= year <= 2004 then 3.5 - (year - 2002) as real * 0.25
    else if 2005 <= year <= 2007 then 2.5 + (year - 2005) as real * 0.25
    else if year == 2008 then 4.0
    else if 2009 <= year <= 2015 then 2.0 - (year - 2009) as real * 0.2
    else if 2016 <= year <= 2021 then 0.5 - (year - 2016) as real * 0.05
    else if year == 2022 then 0.8
    else if year == 2023 then 1.5
    else if year == 2024 then 1.8
    else 1.6
  }

  /** The fallback path agrees with the historical deposit table at fourteen
      of the twenty-four years and never strays from it by more than 0.5. */
  lemma FallbackTracksDepositHistory(y: int)
    requires OnAxisYear(y)
    ensures -0.5 <= FallbackDepositBase(y) - DepositHistory[y] <= 0.5
    ensures y in {2002, 2005, 2008, 2009, 2013, 2014, 2015, 2016, 2018, 2022, 2023, 2024, 2025} ==>
      FallbackDepositBase(y) == DepositHistory[y]
  {
    assert DepositHistory[y] == DepositByYear[y - 2002];
    if y <= 2007 {
      assert y == 2002 || y == 2003 || y == 2004 || y == 2005 || y == 2006 || y == 2007;
    } else if y <= 2015 {
      assert y == 2008 || y == 2009 || y == 2010 || y == 2011 || y == 2012 || y == 2013 || y == 2014 || y == 2015;
    } else {
      assert y == 2016 || y == 2017 || y == 2018 || y == 2019 || y == 2020 || y == 2021 || y == 2022 || y == 2023
        || y == 2024 || y == 2025;
    }
  }

  /** Month k of the fallback deposit series. */
  function FallbackDepositAt(bank: string, z: real, k: int): real
  {
    Clamped(0.1, FallbackDepositBase(YearOfMonth(k)), BankAdjustmentValue(bank, Deposit), z)
  }

  /** Month k of the fallback lending series: a fresh deposit value plus a
      spread drawn from [2, 3). */
  function FallbackLendingAt(bank: string, z: real, spread: real, k: int): real
  {
    FallbackDepositAt(bank, z, k) + spread
  }

  predicate InRange(s: seq<real>, lo: real, hi: real)
  {
    forall k :: 0 <= k < |s| ==> lo <= s[k] < hi
  }

  /** Fallback deposit rates: one clamped value per month, never below 0.1. */
  method SimulateDepositRates(bank: string, noise: seq<real>) returns (rates: seq<real>)
    requires |noise| == MonthCount
    ensures |rates| == MonthCount
    ensures forall k :: 0 <= k < MonthCount ==> rates[k] == FallbackDepositAt(bank, noise[k], k) && rates[k] >= 0.1
  {
    rates := [];
    for k := 0 to MonthCount
      invariant |rates| == k
      invariant forall j :: 0 <= j < k ==> rates[j] == FallbackDepositAt(bank, noise[j], j)
    {
      var year := YearOfMonth(k);
      var rate := FallbackDepositBase(year);
      var adjustment := BankAdjustmentValue(bank, Deposit);
      rates := rates + [Max(0.1, rate + adjustment + noise[k])];
    }
  }

  /** Fallback lending rates: each deposit value plus its spread, so the
      spread over the deposit series lies in [2, 3) and every value is at
      least 2.1. */
  method SimulateLendingRates(bank: string, noise: seq<real>, spread: seq<real>) returns (rates: seq<real>)
    requires |noise| == MonthCount && |spread| == MonthCount && InRange(spread, 2.0, 3.0)
    ensures |rates| == MonthCount
    ensures forall k :: 0 <= k < MonthCount ==>
      && rates[k] == FallbackLendingAt(bank, noise[k], spread[k], k)
      && 2.0 <= rates[k] - FallbackDepositAt(bank, noise[k], k) < 3.0
      && rates[k] >= 2.1
  {
    var deposits := SimulateDepositRates(bank, noise);
    rates := seq(|deposits|, k requires 0 <= k < |deposits| => deposits[k] + spread[k]);
  }

  /** Fallback mortgage rates: a fresh lending series minus a discount drawn
      from [0.5, 1), hence always above 1.1. */
  method SimulateMortgageRates(bank: string, noise: seq<real>, spread: seq<real>, discount: seq<real>)
    returns (rates: seq<real>)
    requires |noise| == MonthCount && |spread| == MonthCount && InRange(spread, 2.0, 3.0)
    requires |discount| == MonthCount && InRange(discount, 0.5, 1.0)
    ensures |rates| == MonthCount
    ensures forall k :: 0 <= k < MonthCount ==>
      && rates[k] == FallbackLendingAt(bank, noise[k], spread[k], k) - discount[k]
      && 0.5 <= FallbackLendingAt(bank, noise[k], spread[k], k) - rates[k] < 1.0
      && rates[k] > 1.1
  {
    var lendings := SimulateLendingRates(bank, noise, spread);
    rates := seq(|lendings|, k requires 0 <= k < |lendings| => lendings[k] - discount[k]);
  }

  /** Fallback corporate deposit rates: a fresh deposit series minus an
      offset drawn from [0.5, 1). There is no floor: see the lemma below. */
  method SimulateCorporateDeposit(bank: string, noise: seq<real>, offset: seq<real>) returns (rates: seq<real>)
    requires |noise| == MonthCount && |offset| == MonthCount && InRange(offset, 0.5, 1.0)
    ensures |rates| == MonthCount
    ensures forall k :: 0 <= k < MonthCount ==>
      && rates[k] == FallbackDepositAt(bank, noise[k], k) - offset[k]
      && rates[k] > -0.9
  {
    var deposits := SimulateDepositRates(bank, noise);
    rates := seq(|deposits|, k requires 0 <= k < |deposits| => deposits[k] - offset[k]);
  }

  /** Fallback corporate lending rates: a fresh lending series minus an
      offset drawn from [0, 0.5), hence always above 1.6. */
  method SimulateCorporateLending(bank: string, noise: seq<real>, spread: seq<real>, offset: seq<real>)
    returns (rates: seq<real>)
    requires |noise| == MonthCount && |spread| == MonthCount && InRange(spread, 2.0, 3.0)
    requires |offset| == MonthCount && InRange(offset, 0.0, 0.5)
    ensures |rates| == MonthCount
    ensures forall k :: 0 <= k < MonthCount ==>
      && rates[k] == FallbackLendingAt(bank, noise[k], spread[k], k) - offset[k]
      && rates[k] > 1.6
  {
    var lendings := SimulateLendingRates(bank, noise, spread);
    rates := seq(|lendings|, k requires 0 <= k < |lendings| => lendings[k] - offset[k]);
  }

  /** The fallback corporate deposit rate is not floored: a low enough draw
      clamps the deposit value to 0.1, and any offset then makes it negative. */
  lemma CorporateDepositFallbackCanBeNegative(bank: string, z: real, offset: real, k: int)
    requires z <= -5.0 && 0.5 <= offset < 1.0
    ensures FallbackDepositAt(bank, z, k) == 0.1
    ensures FallbackDepositAt(bank, z, k) - offset < 0.0
  {
    assert FallbackDepositBase(YearOfMonth(k)) + BankAdjustmentValue(bank, Deposit) + z < 0.1;
  }

  /** The series the fallback dispatch can produce. */
  datatype SimulatedKind = SimDeposit | SimLending | SimMortgage | SimCorporateDeposit | SimCorporateLending | SimUniform

  lemma CorporateLabelParts(rateType: string)
    ensures Contains(rateType, "Corporate Deposit") ==> Contains(rateType, "Deposit")
    ensures Contains(rateType, "Corporate Lending") ==> Contains(rateType, "Lending")
  {
    if Contains(rateType, "Corporate Deposit") {
      ContainsParts(rateType, "Corporate ", "Deposit");
    }
    if Contains(rateType, "Corporate Lending") {
      ContainsParts(rateType, "Corporate ", "Lending");
    }
  }

  /** The dispatch on the rate-type label, tried in this order: a deposit
      label without "Corporate", a lending label without "Corporate",
      "Mortgage", "Corporate Deposit", "Corporate Lending", else uniform draws. */
  function SimulatedKindOf(rateType: string): (k: SimulatedKind)
    ensures k == SimDeposit <==> Contains(rateType, "Deposit") && !Contains(rateType, "Corporate")
    ensures !Contains(rateType, "Deposit") && !Contains(rateType, "Lending") && !Contains(rateType, "Mortgage")
            ==> k == SimUniform
  {
    CorporateLabelParts(rateType);
    if Contains(rateType, "Deposit") && !Contains(rateType, "Corporate") then SimDeposit
    else if Contains(rateType, "Lending") && !Contains(rateType, "Corporate") then SimLending
    else if Contains(rateType, "Mortgage") then SimMortgage
    else if Contains(rateType, "Corporate Deposit") then SimCorporateDeposit
    else if Contains(rateType, "Corporate Lending") then SimCorporateLending
    else SimUniform
  }

  // The labels the generators pass when they fall back.

  lemma DepositLabel()
    ensures SimulatedKindOf("Deposit Rate") == SimDeposit
  {
    assert IsPrefix("Deposit", "Deposit Rate"[0..]);
    NotContainsByChar("Deposit Rate", "Corporate", 'C');
  }

  lemma LendingLabel()
    ensures SimulatedKindOf("Lending Rate") == SimLending
  {
    NotContainsByChar("Lending Rate", "Deposit", 'D');
    assert IsPrefix("Lending", "Lending Rate"[0..]);
    NotContainsByChar("Lending Rate", "Corporate", 'C');
  }

  lemma MortgageLabel()
    ensures SimulatedKindOf("Mortgage Rate") == SimMortgage
  {
    NotContainsByChar("Mortgage Rate", "Deposit", 'D');
    NotContainsByChar("Mortgage Rate", "Lending", 'L');
    assert IsPrefix("Mortgage", "Mortgage Rate"[0..]);
  }

  lemma AssetsLabel()
    ensures SimulatedKindOf("Assets (M€)") == SimUniform
  {
    NotContainsByChar("Assets (M€)", "Deposit", 'D');
    NotContainsByChar("Assets (M€)", "Lending", 'L');
    NotContainsByChar("Assets (M€)", "Mortgage", 'o');
  }

  /** The random streams a fallback series may consume: normal draws, the
      lending spread, the subtracted offset, and plain uniform values. */
  datatype FallbackDraws = FallbackDraws(normal: seq<real>, spread: seq<real>, offset: seq<real>, uniform: seq<real>)

  /** The draws have one value per month and lie in the intervals the
      chosen series draws from. */
  predicate ValidDraws(kind: SimulatedKind, d: FallbackDraws)
  {
    && |d.normal| == MonthCount && |d.spread| == MonthCount && |d.offset| == MonthCount && |d.uniform| == MonthCount
    && InRange(d.spread, 2.0, 3.0)
    && InRange(d.offset, if kind == SimCorporateLending then 0.0 else 0.5, if kind == SimCorporateLending then 0.5 else 1.0)
    && InRange(d.uniform, 0.5, 5.0)
  }

  /** Month k of the series the dispatch selects. */
  function SimulatedAt(bank: string, kind: SimulatedKind, d: FallbackDraws, k: int): real
    requires ValidDraws(kind, d) && 0 <= k < MonthCount
  {
    match kind
    case SimDeposit => FallbackDepositAt(bank, d.normal[k], k)
    case SimLending => FallbackLendingAt(bank, d.normal[k], d.spread[k], k)
    case SimMortgage => FallbackLendingAt(bank, d.normal[k], d.spread[k], k) - d.offset[k]
    case SimCorporateDeposit => FallbackDepositAt(bank, d.normal[k], k) - d.offset[k]
    case SimCorporateLending => FallbackLendingAt(bank, d.normal[k], d.spread[k], k) - d.offset[k]
    case SimUniform => d.uniform[k]
  }

  /** Simulated data for a rate-type label: the selected fallback series
      over the 288 months; every series but corporate deposits is positive. */
  method CreateSimulatedData(bank: string, rateType: string, d: FallbackDraws) returns (rates: seq<real>)
    requires ValidDraws(SimulatedKindOf(rateType), d)
    ensures |rates| == MonthCount
    ensures forall k :: 0 <= k < MonthCount ==> rates[k] == SimulatedAt(bank, SimulatedKindOf(rateType), d, k)
    ensures SimulatedKindOf(rateType) != SimCorporateDeposit ==> forall k :: 0 <= k < MonthCount ==> rates[k] > 0.0
  {
    var kind := SimulatedKindOf(rateType);
    match kind
    case SimDeposit =>
      rates := SimulateDepositRates(bank, d.normal);
    case SimLending =>
      rates := SimulateLendingRates(bank, d.normal, d.spread);
    case SimMortgage =>
      rates := SimulateMortgageRates(bank, d.normal, d.spread, d.offset);
    case SimCorporateDeposit =>
      rates := SimulateCorporateDeposit(bank, d.normal, d.offset);
    case SimCorporateLending =>
      rates := SimulateCorporateLending(bank, d.normal, d.spread, d.offset);
    case SimUniform =>
      rates := d.uniform;
  }
}
