/** The per-metric simulators of the yearly financial-table generator (Ru.py).
    Every simulator has the same skeleton,
      base x growth(i) x calendar shock(year) x specialisation multiplier x noise,
    where i is the zero-based offset of the year in the input axis and noise is
    the normal draw N(1, sigma) the source takes for that year. The draws are
    parameters here: `noise[i]` is the draw taken at offset i. */
module FinancialSeries {
  import opened BankProfiles

  /** Years in which the crisis multipliers of the simulators apply. */
  const CrisisYears: set<int> := {2008, 2009, 2020, 2021}

  /** Where a metric's base value comes from. */
  datatype Base = OfAssets(fraction: real) | OfRevenue(fraction: real) | Fixed(value: real)

  /** The growth factor: linear in the offset i, with a rate that may depend on
      the institution type; none; or the energy-climate accelerator, which is
      linear in the calendar year from 2015 on. */
  datatype Growth =
    | ByType(cooperative: real, mutualiste: real, commerciale: real)
    | Linear(rate: real)
    | Flat
    | GreenAccelerator

  /** A calendar shock: a factor on a fixed set of years, or from a year on. */
  datatype Shock = NoShock | InYears(years: set<int>, factor: real) | FromYear(start: int, factor: real)

  /** A specialisation multiplier keyed on one tag of the profile. */
  datatype Specialty = Generic | Tag(tag: string, present: real, absent: real)

  datatype MetricRule = MetricRule(base: Base, growth: Growth, shock: Shock, specialty: Specialty)

  function TypeRate(kind: InstitutionType, cooperative: real, mutualiste: real, commerciale: real): real
  {
    match kind
    case Cooperative => cooperative
    case Mutualiste => mutualiste
    case Commerciale => commerciale
  }

  function BaseValue(b: Base, c: BankConfig): real
  {
    match b
    case OfAssets(f) => c.assetsBase * f
    case OfRevenue(f) => c.revenueBase * f
    case Fixed(v) => v
  }

  function GrowthFactor(g: Growth, c: BankConfig, i: nat, year: int): real
  {
    match g
    case ByType(co, mu, cm) => 1.0 + TypeRate(c.kind, co, mu, cm) * i as real
    case Linear(r) => 1.0 + r * i as real
    case Flat => 1.0
    case GreenAccelerator => if year >= 2015 then 1.0 + 0.08 * (year - 2015) as real else 1.0
  }

  function ShockFactor(s: Shock, year: int): real
  {
    match s
    case NoShock => 1.0
    case InYears(ys, f) => if year in ys then f else 1.0
    case FromYear(y0, f) => if year >= y0 then f else 1.0
  }

  function SpecialtyFactor(s: Specialty, c: BankConfig): real
  {
    match s
    case Generic => 1.0
    case Tag(t, p, a) => if t in c.specialites then p else a
  }

  /** The value a simulator appends at offset i for the given year and draw. */
  function Point(rule: MetricRule, c: BankConfig, i: nat, year: int, z: real): real
  {
    BaseValue(rule.base, c) * GrowthFactor(rule.growth, c, i, year)
      * ShockFactor(rule.shock, year) * SpecialtyFactor(rule.specialty, c) * z
  }

  /** One value per year of the axis, in axis order. */
  function Series(rule: MetricRule, c: BankConfig, years: seq<int>, noise: seq<real>): (r: seq<real>)
    requires |noise| == |years|
    ensures |r| == |years|
  {
    seq(|years|, i requires 0 <= i < |years| => Point(rule, c, i, years[i], noise[i]))
  }

  // The rules of the twenty-four simulators, in the order the table is built.
  const TotalAssetsRule := MetricRule(OfAssets(1.0), ByType(0.065, 0.055, 0.048), NoShock, Generic)
  const EquityRule := MetricRule(OfAssets(0.085), Linear(0.052), NoShock, Generic)
  const CustomerDepositsRule := MetricRule(OfAssets(0.65), Linear(0.045), NoShock, Generic)
  const CustomerLoansRule := MetricRule(OfAssets(0.58), Linear(0.055), NoShock, Generic)
  const NetBankingIncomeRule := MetricRule(OfRevenue(1.0), ByType(0.058, 0.052, 0.048), NoShock, Generic)
  const NetIncomeRule := MetricRule(OfRevenue(0.22), Linear(0.045), InYears(CrisisYears, 0.75), Generic)
  const OperatingCostsRule := MetricRule(OfRevenue(0.62), Linear(0.042), NoShock, Generic)
  const ProvisionsRule := MetricRule(OfRevenue(0.08), Linear(0.035), InYears(CrisisYears, 1.8), Generic)
  const TaxesRule := MetricRule(OfRevenue(0.05), Linear(0.04), FromYear(2018, 1.15), Generic)
  const RoeRule := MetricRule(Fixed(0.125), Linear(0.002), InYears(CrisisYears, 0.65), Generic)
  const RoaRule := MetricRule(Fixed(0.0085), Linear(0.0015), InYears(CrisisYears, 0.60), Generic)
  const InterestMarginRule := MetricRule(Fixed(0.018), Flat, FromYear(2015, 0.92), Generic)
  const CostOfRiskRule := MetricRule(Fixed(0.0040), Flat, InYears(CrisisYears, 2.5), Generic)
  const Cet1Rule := MetricRule(Fixed(0.125), Linear(0.008), FromYear(2014, 1.12), Generic)
  const LiquidityRule := MetricRule(Fixed(1.15), Flat, FromYear(2015, 1.08), Generic)
  const SolvencyRule := MetricRule(Fixed(0.145), Linear(0.006), FromYear(2014, 1.10), Generic)
  const NplRule := MetricRule(Fixed(0.032), Linear(-0.005), InYears(CrisisYears, 1.9), Generic)
  const RetailLoansRule := MetricRule(OfAssets(0.25), Linear(0.05), NoShock, Tag("particuliers", 1.4, 0.8))
  const CorporateLoansRule := MetricRule(OfAssets(0.20), Linear(0.048), NoShock, Tag("entreprises", 1.5, 0.9))
  const RealEstateLoansRule :=
    MetricRule(OfAssets(0.18), Linear(0.052), InYears({2008, 2009}, 0.7), Tag("immobilier", 1.6, 0.85))
  const AgricultureLoansRule := MetricRule(OfAssets(0.06), Linear(0.04), NoShock, Tag("agriculture", 2.0, 0.7))
  const TourismLoansRule :=
    MetricRule(OfAssets(0.05), Linear(0.046), InYears({2020, 2021}, 0.6), Tag("tourisme", 1.8, 0.8))
  const CommerceLoansRule := MetricRule(OfAssets(0.04), Linear(0.044), NoShock, Tag("commerce", 1.7, 0.9))
  const EnergyClimateLoansRule := MetricRule(OfAssets(0.03), GreenAccelerator, NoShock, Generic)

  /** Total assets: growth rate 0.065 / 0.055 / 0.048 by institution type. */
  function SimulateTotalAssets(c: BankConfig, years: seq<int>, noise: seq<real>): (r: seq<real>)
    requires |noise| == |years|
    ensures |r| == |years|
    ensures forall i :: 0 <= i < |years| ==>
      r[i] == c.assetsBase * (1.0 + (if c.kind == Cooperative then 0.065 else if c.kind == Mutualiste then 0.055 else 0.048) * i as real) * noise[i]
  {
    Series(TotalAssetsRule, c, years, noise)
  }

  function SimulateEquity(c: BankConfig, years: seq<int>, noise: seq<real>): (r: seq<real>)
    requires |noise| == |years|
    ensures |r| == |years|
    ensures forall i :: 0 <= i < |years| ==> r[i] == c.assetsBase * 0.085 * (1.0 + 0.052 * i as real) * noise[i]
  {
    Series(EquityRule, c, years, noise)
  }

  function SimulateCustomerDeposits(c: BankConfig, years: seq<int>, noise: seq<real>): (r: seq<real>)
    requires |noise| == |years|
    ensures |r| == |years|
    ensures forall i :: 0 <= i < |years| ==> r[i] == c.assetsBase * 0.65 * (1.0 + 0.045 * i as real) * noise[i]
  {
    Series(CustomerDepositsRule, c, years, noise)
  }

  function SimulateCustomerLoans(c: BankConfig, years: seq<int>, noise: seq<real>): (r: seq<real>)
    requires |noise| == |years|
    ensures |r| == |years|
    ensures forall i :: 0 <= i < |years| ==> r[i] == c.assetsBase * 0.58 * (1.0 + 0.055 * i as real) * noise[i]
  {
    Series(CustomerLoansRule, c, years, noise)
  }

  /** Net banking income: growth rate 0.058 / 0.052 / 0.048 by institution type. */
  function SimulateNetBankingIncome(c: BankConfig, years: seq<int>, noise: seq<real>): (r: seq<real>)
    requires |noise| == |years|
    ensures |r| == |years|
    ensures forall i :: 0 <= i < |years| ==>
      r[i] == c.revenueBase * (1.0 + (if c.kind == Cooperative then 0.058 else if c.kind == Mutualiste then 0.052 else 0.048) * i as real) * noise[i]
  {
    Series(NetBankingIncomeRule, c, years, noise)
  }

  function SimulateNetIncome(c: BankConfig, years: seq<int>, noise: seq<real>): (r: seq<real>)
    requires |noise| == |years|
    ensures |r| == |years|
    ensures forall i :: 0 <= i < |years| ==>
      r[i] == c.revenueBase * 0.22 * (1.0 + 0.045 * i as real) * (if years[i] in CrisisYears then 0.75 else 1.0) * noise[i]
  {
    Series(NetIncomeRule, c, years, noise)
  }

  function SimulateOperatingCosts(c: BankConfig, years: seq<int>, noise: seq<real>): (r: seq<real>)
    requires |noise| == |years|
    ensures |r| == |years|
    ensures forall i :: 0 <= i < |years| ==> r[i] == c.revenueBase * 0.62 * (1.0 + 0.042 * i as real) * noise[i]
  {
    Series(OperatingCostsRule, c, years, noise)
  }

  function SimulateProvisions(c: BankConfig, years: seq<int>, noise: seq<real>): (r: seq<real>)
    requires |noise| == |years|
    ensures |r| == |years|
    ensures forall i :: 0 <= i < |years| ==>
      r[i] == c.revenueBase * 0.08 * (1.0 + 0.035 * i as real) * (if years[i] in CrisisYears then 1.8 else 1.0) * noise[i]
  {
    Series(ProvisionsRule, c, years, noise)
  }

  function SimulateTaxes(c: BankConfig, years: seq<int>, noise: seq<real>): (r: seq<real>)
    requires |noise| == |years|
    ensures |r| == |years|
    ensures forall i :: 0 <= i < |years| ==>
      r[i] == c.revenueBase * 0.05 * (1.0 + 0.04 * i as real) * (if years[i] >= 2018 then 1.15 else 1.0) * noise[i]
  {
    Series(TaxesRule, c, years, noise)
  }

  function SimulateRoe(c: BankConfig, years: seq<int>, noise: seq<real>): (r: seq<real>)
    requires |noise| == |years|
    ensures |r| == |years|
    ensures forall i :: 0 <= i < |years| ==>
      r[i] == 0.125 * (1.0 + 0.002 * i as real) * (if years[i] in CrisisYears then 0.65 else 1.0) * noise[i]
  {
    Series(RoeRule, c, years, noise)
  }

  function SimulateRoa(c: BankConfig, years: seq<int>, noise: seq<real>): (r: seq<real>)
    requires |noise| == |years|
    ensures |r| == |years|
    ensures forall i :: 0 <= i < |years| ==>
      r[i] == 0.0085 * (1.0 + 0.0015 * i as real) * (if years[i] in CrisisYears then 0.60 else 1.0) * noise[i]
  {
    Series(RoaRule, c, years, noise)
  }

  function SimulateInterestMargin(c: BankConfig, years: seq<int>, noise: seq<real>): (r: seq<real>)
    requires |noise| == |years|
    ensures |r| == |years|
    ensures forall i :: 0 <= i < |years| ==> r[i] == 0.018 * (if years[i] >= 2015 then 0.92 else 1.0) * noise[i]
  {
    Series(InterestMarginRule, c, years, noise)
  }

  function SimulateCostOfRisk(c: BankConfig, years: seq<int>, noise: seq<real>): (r: seq<real>)
    requires |noise| == |years|
    ensures |r| == |years|
    ensures forall i :: 0 <= i < |years| ==> r[i] == 0.0040 * (if years[i] in CrisisYears then 2.5 else 1.0) * noise[i]
  {
    Series(CostOfRiskRule, c, years, noise)
  }

  function SimulateCet1Ratio(c: BankConfig, years: seq<int>, noise: seq<real>): (r: seq<real>)
    requires |noise| == |years|
    ensures |r| == |years|
    ensures forall i :: 0 <= i < |years| ==>
      r[i] == 0.125 * (1.0 + 0.008 * i as real) * (if years[i] >= 2014 then 1.12 else 1.0) * noise[i]
  {
    Series(Cet1Rule, c, years, noise)
  }

  function SimulateLiquidityRatio(c: BankConfig, years: seq<int>, noise: seq<real>): (r: seq<real>)
    requires |noise| == |years|
    ensures |r| == |years|
    ensures forall i :: 0 <= i < |years| ==> r[i] == 1.15 * (if years[i] >= 2015 then 1.08 else 1.0) * noise[i]
  {
    Series(LiquidityRule, c, years, noise)
  }

  function SimulateSolvencyRatio(c: BankConfig, years: seq<int>, noise: seq<real>): (r: seq<real>)
    requires |noise| == |years|
    ensures |r| == |years|
    ensures forall i :: 0 <= i < |years| ==>
      r[i] == 0.145 * (1.0 + 0.006 * i as real) * (if years[i] >= 2014 then 1.10 else 1.0) * noise[i]
  {
    Series(SolvencyRule, c, years, noise)
  }

  /** Non-performing loans: the only metric whose trend decreases (1 - 0.005 i). */
  function SimulateNpl(c: BankConfig, years: seq<int>, noise: seq<real>): (r: seq<real>)
    requires |noise| == |years|
    ensures |r| == |years|
    ensures forall i :: 0 <= i < |years| ==>
      r[i] == 0.032 * (1.0 - 0.005 * i as real) * (if years[i] in CrisisYears then 1.9 else 1.0) * noise[i]
  {
    Series(NplRule, c, years, noise)
  }

  function SimulateRetailLoans(c: BankConfig, years: seq<int>, noise: seq<real>): (r: seq<real>)
    requires |noise| == |years|
    ensures |r| == |years|
    ensures forall i :: 0 <= i < |years| ==>
      r[i] == c.assetsBase * 0.25 * (1.0 + 0.05 * i as real) * (if "particuliers" in c.specialites then 1.4 else 0.8) * noise[i]
  {
    Series(RetailLoansRule, c, years, noise)
  }

  function SimulateCorporateLoans(c: BankConfig, years: seq<int>, noise: seq<real>): (r: seq<real>)
    requires |noise| == |years|
    ensures |r| == |years|
    ensures forall i :: 0 <= i < |years| ==>
      r[i] == c.assetsBase * 0.20 * (1.0 + 0.048 * i as real) * (if "entreprises" in c.specialites then 1.5 else 0.9) * noise[i]
  {
    Series(CorporateLoansRule, c, years, noise)
  }

  function SimulateRealEstateLoans(c: BankConfig, years: seq<int>, noise: seq<real>): (r: seq<real>)
    requires |noise| == |years|
    ensures |r| == |years|
    ensures forall i :: 0 <= i < |years| ==>
      r[i] == c.assetsBase * 0.18 * (1.0 + 0.052 * i as real) * (if years[i] == 2008 || years[i] == 2009 then 0.7 else 1.0)
                * (if "immobilier" in c.specialites then 1.6 else 0.85) * noise[i]
  {
    Series(RealEstateLoansRule, c, years, noise)
  }

  function SimulateAgricultureLoans(c: BankConfig, years: seq<int>, noise: seq<real>): (r: seq<real>)
    requires |noise| == |years|
    ensures |r| == |years|
    ensures forall i :: 0 <= i < |years| ==>
      r[i] == c.assetsBase * 0.06 * (1.0 + 0.04 * i as real) * (if "agriculture" in c.specialites then 2.0 else 0.7) * noise[i]
  {
    Series(AgricultureLoansRule, c, years, noise)
  }

  function SimulateTourismLoans(c: BankConfig, years: seq<int>, noise: seq<real>): (r: seq<real>)
    requires |noise| == |years|
    ensures |r| == |years|
    ensures forall i :: 0 <= i < |years| ==>
      r[i] == c.assetsBase * 0.05 * (1.0 + 0.046 * i as real) * (if years[i] == 2020 || years[i] == 2021 then 0.6 else 1.0)
                * (if "tourisme" in c.specialites then 1.8 else 0.8) * noise[i]
  {
    Series(TourismLoansRule, c, years, noise)
  }

  function SimulateCommerceLoans(c: BankConfig, years: seq<int>, noise: seq<real>): (r: seq<real>)
    requires |noise| == |years|
    ensures |r| == |years|
    ensures forall i :: 0 <= i < |years| ==>
      r[i] == c.assetsBase * 0.04 * (1.0 + 0.044 * i as real) * (if "commerce" in c.specialites then 1.7 else 0.9) * noise[i]
  {
    Series(CommerceLoansRule, c, years, noise)
  }

  /** Energy-climate loans: no offset growth; from 2015 on an accelerator
      1 + 0.08 (year - 2015) driven by the calendar year. */
  function SimulateEnergyClimateLoans(c: BankConfig, years: seq<int>, noise: seq<real>): (r: seq<real>)
    requires |noise| == |years|
    ensures |r| == |years|
    ensures forall i :: 0 <= i < |years| ==>
      r[i] == c.assetsBase * 0.03 * (if years[i] >= 2015 then 1.0 + 0.08 * (years[i] - 2015) as real else 1.0) * noise[i]
  {
    Series(EnergyClimateLoansRule, c, years, noise)
  }
}
