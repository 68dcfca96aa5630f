/** The assembled yearly table of Ru.py and its trend post-processing pass,
    which multiplies named cells of each row in place, window by window. */
module BankingTrends {
  import opened BankProfiles
  import opened FinancialSeries

  /** One row of the financial table: the year and the twenty-four simulated
      columns, named after the source's columns. */
  datatype Row = Row(
    annee: int,
    totalActifs: real,
    fondsPropres: real,
    depotsClients: real,
    creditsClients: real,
    produitNetBancaire: real,
    resultatNet: real,
    chargesExploitation: real,
    dotationsProvisions: real,
    impots: real,
    roe: real,
    roa: real,
    margeInteret: real,
    coutRisque: real,
    ratioCet1: real,
    ratioLiquidite: real,
    ratioSolvabilite: real,
    creancesDouteuses: real,
    creditsParticuliers: real,
    creditsEntreprises: real,
    creditsImmobilier: real,
    creditsAgriculture: real,
    creditsTourisme: real,
    creditsCommerce: real,
    creditsEc: real)

  /** Number of simulators, hence of draws taken per year. */
  const MetricCount: nat := 24

  /** The yearly axis: one point per year from 2002 to 2025. */
  const StudyYears: seq<int> := seq(24, i => 2002 + i)

  /** The draws of the j-th simulator: the source runs the simulators one
      after the other on a single random stream, each taking one draw per year. */
  function Slice(draws: seq<real>, j: nat, n: nat): (s: seq<real>)
    requires j < MetricCount && |draws| == MetricCount * n
    ensures |s| == n
    ensures forall i :: 0 <= i < n ==> s[i] == draws[j * n + i]
  {
    draws[j * n..(j + 1) * n]
  }

  /** The table before post-processing: column j holds simulator j's series. */
  function AssembleTable(c: BankConfig, years: seq<int>, draws: seq<real>): (t: seq<Row>)
    requires |draws| == MetricCount * |years|
    ensures |t| == |years|
    ensures forall k :: 0 <= k < |years| ==> t[k].annee == years[k]
  {
    var n := |years|;
    var ta := Series(TotalAssetsRule, c, years, Slice(draws, 0, n));
    var fp := Series(EquityRule, c, years, Slice(draws, 1, n));
    var dc := Series(CustomerDepositsRule, c, years, Slice(draws, 2, n));
    var cc := Series(CustomerLoansRule, c, years, Slice(draws, 3, n));
    var pnb := Series(NetBankingIncomeRule, c, years, Slice(draws, 4, n));
    var rn := Series(NetIncomeRule, c, years, Slice(draws, 5, n));
    var ce := Series(OperatingCostsRule, c, years, Slice(draws, 6, n));
    var dp := Series(ProvisionsRule, c, years, Slice(draws, 7, n));
    var im := Series(TaxesRule, c, years, Slice(draws, 8, n));
    var roe := Series(RoeRule, c, years, Slice(draws, 9, n));
    var roa := Series(RoaRule, c, years, Slice(draws, 10, n));
    var mi := Series(InterestMarginRule, c, years, Slice(draws, 11, n));
    var cr := Series(CostOfRiskRule, c, years, Slice(draws, 12, n));
    var cet1 := Series(Cet1Rule, c, years, Slice(draws, 13, n));
    var liq := Series(LiquidityRule, c, years, Slice(draws, 14, n));
    var solv := Series(SolvencyRule, c, years, Slice(draws, 15, n));
    var npl := Series(NplRule, c, years, Slice(draws, 16, n));
    var part := Series(RetailLoansRule, c, years, Slice(draws, 17, n));
    var ent := Series(CorporateLoansRule, c, years, Slice(draws, 18, n));
    var immo := Series(RealEstateLoansRule, c, years, Slice(draws, 19, n));
    var agri := Series(AgricultureLoansRule, c, years, Slice(draws, 20, n));
    var tour := Series(TourismLoansRule, c, years, Slice(draws, 21, n));
    var comm := Series(CommerceLoansRule, c, years, Slice(draws, 22, n));
    var ec := Series(EnergyClimateLoansRule, c, years, Slice(draws, 23, n));
    seq(n, k requires 0 <= k < n =>
      Row(years[k], ta[k], fp[k], dc[k], cc[k], pnb[k], rn[k], ce[k], dp[k], im[k], roe[k], roa[k], mi[k], cr[k],
          cet1[k], liq[k], solv[k], npl[k], part[k], ent[k], immo[k], agri[k], tour[k], comm[k], ec[k]))
  }

  // Reference definition of the post-processing pass: for each column it
  // touches, the product of the factors of every window that covers the year.
  // The 2010-2014 recovery window is the `elif` of the 2008-2009 crisis window.

  function CreditsClientsFactor(y: int): real
  {
    (if 2002 <= y <= 2007 then 1.08 else 1.0) * (if !(2008 <= y <= 2009) && 2010 <= y <= 2014 then 1.05 else 1.0)
  }

  function ResultatNetFactor(y: int): real
  {
    (if 2002 <= y <= 2007 then 1.06 else 1.0) * (if 2008 <= y <= 2009 then 0.72 else 1.0)
      * (if y == 2020 then 0.68 else 1.0) * (if y >= 2022 then 1.08 else 1.0)
  }

  function DotationsProvisionsFactor(y: int): real
  {
    (if 2008 <= y <= 2009 then 1.85 else 1.0) * (if y == 2020 then 1.95 else 1.0)
  }

  function CreancesDouteusesFactor(y: int): real
  {
    if 2008 <= y <= 2009 then 1.45 else 1.0
  }

  function RoeFactor(y: int): real
  {
    if !(2008 <= y <= 2009) && 2010 <= y <= 2014 then 1.08 else 1.0
  }

  function RatioCet1Factor(y: int): real
  {
    if 2014 <= y <= 2018 then 1.12 else 1.0
  }

  function RatioLiquiditeFactor(y: int): real
  {
    if 2014 <= y <= 2018 then 1.06 else 1.0
  }

  function CreditsEcFactor(y: int): real
  {
    (if y >= 2015 then 1.25 else 1.0) * (if y >= 2022 then 1.35 else 1.0)
  }

  function CreditsTourismeFactor(y: int): real
  {
    if y == 2020 then 0.55 else 1.0
  }

  function CreditsEntreprisesFactor(y: int): real
  {
    if y >= 2022 then 1.12 else 1.0
  }

  /** A row after the pass: each touched column scaled by its factor for the
      row's year; every other column as it was. */
  function Trended(r: Row): Row
  {
    var y := r.annee;
    r.(creditsClients := r.creditsClients * CreditsClientsFactor(y),
       resultatNet := r.resultatNet * ResultatNetFactor(y),
       dotationsProvisions := r.dotationsProvisions * DotationsProvisionsFactor(y),
       creancesDouteuses := r.creancesDouteuses * CreancesDouteusesFactor(y),
       roe := r.roe * RoeFactor(y),
       ratioCet1 := r.ratioCet1 * RatioCet1Factor(y),
       ratioLiquidite := r.ratioLiquidite * RatioLiquiditeFactor(y),
       creditsEc := r.creditsEc * CreditsEcFactor(y),
       creditsTourisme := r.creditsTourisme * CreditsTourismeFactor(y),
       creditsEntreprises := r.creditsEntreprises * CreditsEntreprisesFactor(y))
  }

  /** The post-processing pass, in place: for each row, the windows in
      declaration order, each multiplying its cells. */
  method AddBankingTrends(table: array<Row>)
    modifies table
    ensures forall k :: 0 <= k < table.Length ==> table[k] == Trended(old(table[k]))
  {
    for i := 0 to table.Length
      invariant forall k :: 0 <= k < i ==> table[k] == Trended(old(table[k]))
      invariant forall k :: i <= k < table.Length ==> table[k] == old(table[k])
    {
      var row := table[i];
      var year := row.annee;
      // Economic growth of the island (2002-2007)
      if 2002 <= year <= 2007 {
        row := row.(creditsClients := row.creditsClients * 1.08);
        row := row.(resultatNet := row.resultatNet * 1.06);
      }
      // Global financial crisis (2008-2009), else post-crisis recovery (2010-2014)
      if 2008 <= year <= 2009 {
        row := row.(resultatNet := row.resultatNet * 0.72);
        row := row.(dotationsProvisions := row.dotationsProvisions * 1.85);
        row := row.(creancesDouteuses := row.creancesDouteuses * 1.45);
      } else if 2010 <= year <= 2014 {
        row := row.(creditsClients := row.creditsClients * 1.05);
        row := row.(roe := row.roe * 1.08);
      }
      // Basel III (2014-2018)
      if 2014 <= year <= 2018 {
        row := row.(ratioCet1 := row.ratioCet1 * 1.12);
        row := row.(ratioLiquidite := row.ratioLiquidite * 1.06);
      }
      // Sustainable finance (2015 on)
      if year >= 2015 {
        row := row.(creditsEc := row.creditsEc * 1.25);
      }
      // COVID-19 (2020-2021): only 2020 is adjusted
      if 2020 <= year <= 2021 {
        if year == 2020 {
          row := row.(resultatNet := row.resultatNet * 0.68);
          row := row.(dotationsProvisions := row.dotationsProvisions * 1.95);
          row := row.(creditsTourisme := row.creditsTourisme * 0.55);
        }
      }
      // Recovery plan (2022 on)
      if year >= 2022 {
        row := row.(creditsEntreprises := row.creditsEntreprises * 1.12);
        row := row.(creditsEc := row.creditsEc * 1.35);
        row := row.(resultatNet := row.resultatNet * 1.08);
      }
      table[i] := row;
    }
  }

  /** A fresh table holding the given rows (the data frame built from the columns). */
  method NewTable(rows: seq<Row>) returns (table: array<Row>)
    ensures fresh(table) && table[..] == rows
  {
    table := new Row[|rows|](k requires 0 <= k < |rows| => rows[k]);
  }

  /** Table generation: assemble the simulated columns over 2002-2025, then
      run the post-processing pass once. */
  method GenerateFinancialData(bank: string, draws: seq<real>) returns (table: array<Row>)
    requires |draws| == MetricCount * |StudyYears|
    ensures fresh(table)
    ensures table.Length == |StudyYears|
    ensures forall k :: 0 <= k < table.Length ==>
      table[k] == Trended(AssembleTable(GetBankConfig(bank), StudyYears, draws)[k])
  {
    var rows := AssembleTable(GetBankConfig(bank), StudyYears, draws);
    table := NewTable(rows);
    AddBankingTrends(table);
  }
}
