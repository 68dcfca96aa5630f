/** Properties of the yearly financial table: the growth and crisis rules of
    the simulators, the window composition of the post-processing pass, and
    how the two interact on the net income column. */
module FinancialProperties {
  import opened BankProfiles
  import opened FinancialSeries
  import opened BankingTrends

  function Ones(n: nat): (s: seq<real>)
    ensures |s| == n && forall i :: 0 <= i < n ==> s[i] == 1.0
  {
    seq(n, _ => 1.0)
  }

  /** With every draw at 1, total assets follow the linear trend exactly and
      start at the profile's base. */
  lemma TotalAssetsUnitNoise(c: BankConfig, years: seq<int>, k: nat)
    requires k < |years|
    ensures SimulateTotalAssets(c, years, Ones(|years|))[0] == c.assetsBase
    ensures c.kind == Cooperative ==> SimulateTotalAssets(c, years, Ones(|years|))[k] == c.assetsBase * (1.0 + 0.065 * k as real)
    ensures c.kind == Mutualiste ==> SimulateTotalAssets(c, years, Ones(|years|))[k] == c.assetsBase * (1.0 + 0.055 * k as real)
    ensures c.kind == Commerciale ==> SimulateTotalAssets(c, years, Ones(|years|))[k] == c.assetsBase * (1.0 + 0.048 * k as real)
  {
  }

  /** An unknown bank over 2002-2003 with unit draws: 1500, then 1500 x 1.048. */
  lemma DefaultBankTwoYearScenario()
    ensures SimulateTotalAssets(GetBankConfig("Banque Inconnue"), [2002, 2003], [1.0, 1.0]) == [1500.0, 1572.0]
  {
    var r := SimulateTotalAssets(GetBankConfig("Banque Inconnue"), [2002, 2003], [1.0, 1.0]);
    assert r[1] == 1500.0 * (1.0 + 0.048 * 1.0) * 1.0;
  }

  /** In a crisis year each shocked metric is exactly its factor times the
      value the same offset and draw give in a calm year: net income 0.75,
      provisions 1.8, ROE 0.65, ROA 0.60, cost of risk 2.5, NPL 1.9. */
  lemma CrisisMultipliers(c: BankConfig, years: seq<int>, noise: seq<real>, k: nat, calm: int)
    requires |noise| == |years| && k < |years|
    requires years[k] in CrisisYears && calm !in CrisisYears
    ensures var calmYears := years[k := calm];
      && SimulateNetIncome(c, years, noise)[k] == 0.75 * SimulateNetIncome(c, calmYears, noise)[k]
      && SimulateProvisions(c, years, noise)[k] == 1.8 * SimulateProvisions(c, calmYears, noise)[k]
      && SimulateRoe(c, years, noise)[k] == 0.65 * SimulateRoe(c, calmYears, noise)[k]
      && SimulateRoa(c, years, noise)[k] == 0.60 * SimulateRoa(c, calmYears, noise)[k]
      && SimulateCostOfRisk(c, years, noise)[k] == 2.5 * SimulateCostOfRisk(c, calmYears, noise)[k]
      && SimulateNpl(c, years, noise)[k] == 1.9 * SimulateNpl(c, calmYears, noise)[k]
  {
    var calmYears := years[k := calm];
    assert calmYears[k] == calm;
  }

  /** No ratio is floored: a negative draw makes ROE negative. */
  lemma RoeIsNotFloored(c: BankConfig)
    ensures SimulateRoe(c, [2002], [-0.5])[0] < 0.0
  {
  }

  /** Ratios are positive only under an assumption on the draws: with
      positive draws and fewer than 200 offsets (NPL's trend 1 - 0.005 i
      reaches zero at 200), every ratio column is positive. */
  lemma RatiosPositiveUnderPositiveNoise(c: BankConfig, years: seq<int>, noise: seq<real>, k: nat)
    requires |noise| == |years| && k < |years| && k < 200
    requires forall i :: 0 <= i < |noise| ==> noise[i] > 0.0
    ensures SimulateRoe(c, years, noise)[k] > 0.0
    ensures SimulateRoa(c, years, noise)[k] > 0.0
    ensures SimulateInterestMargin(c, years, noise)[k] > 0.0
    ensures SimulateCostOfRisk(c, years, noise)[k] > 0.0
    ensures SimulateCet1Ratio(c, years, noise)[k] > 0.0
    ensures SimulateLiquidityRatio(c, years, noise)[k] > 0.0
    ensures SimulateSolvencyRatio(c, years, noise)[k] > 0.0
    ensures SimulateNpl(c, years, noise)[k] > 0.0
  {
    var z := noise[k];
    var i := k as real;
    PositiveProduct(0.125 * (1.0 + 0.002 * i) * (if years[k] in CrisisYears then 0.65 else 1.0), z);
    PositiveProduct(0.0085 * (1.0 + 0.0015 * i) * (if years[k] in CrisisYears then 0.60 else 1.0), z);
    PositiveProduct(0.018 * (if years[k] >= 2015 then 0.92 else 1.0), z);
    PositiveProduct(0.0040 * (if years[k] in CrisisYears then 2.5 else 1.0), z);
    PositiveProduct(0.125 * (1.0 + 0.008 * i) * (if years[k] >= 2014 then 1.12 else 1.0), z);
    PositiveProduct(1.15 * (if years[k] >= 2015 then 1.08 else 1.0), z);
    PositiveProduct(0.145 * (1.0 + 0.006 * i) * (if years[k] >= 2014 then 1.10 else 1.0), z);
    PositiveProduct(0.032 * (1.0 - 0.005 * i) * (if years[k] in CrisisYears then 1.9 else 1.0), z);
  }

  lemma PositiveProduct(a: real, b: real)
    requires a > 0.0 && b > 0.0
    ensures a * b > 0.0
  {
  }

  /** The pass changes only the ten columns it names: year, total assets,
      equity, deposits, net banking income and every other column keep their
      values. */
  lemma TrendsTouchOnlyNamedColumns(r: Row)
    ensures Trended(r).(creditsClients := r.creditsClients, resultatNet := r.resultatNet,
                        dotationsProvisions := r.dotationsProvisions, creancesDouteuses := r.creancesDouteuses,
                        roe := r.roe, ratioCet1 := r.ratioCet1, ratioLiquidite := r.ratioLiquidite,
                        creditsEc := r.creditsEc, creditsTourisme := r.creditsTourisme,
                        creditsEntreprises := r.creditsEntreprises) == r
    ensures Trended(r).annee == r.annee && Trended(r).totalActifs == r.totalActifs
    ensures Trended(r).fondsPropres == r.fondsPropres && Trended(r).depotsClients == r.depotsClients
    ensures Trended(r).produitNetBancaire == r.produitNetBancaire
  {
  }

  /** 2008-2009: net income x0.72, provisions x1.85, NPL x1.45, and never the
      2010-2014 recovery boost (it is the `else` branch). */
  lemma CrisisWindowExcludesRecovery(r: Row)
    requires 2008 <= r.annee <= 2009
    ensures Trended(r).resultatNet == r.resultatNet * 0.72
    ensures Trended(r).dotationsProvisions == r.dotationsProvisions * 1.85
    ensures Trended(r).creancesDouteuses == r.creancesDouteuses * 1.45
    ensures Trended(r).creditsClients == r.creditsClients && Trended(r).roe == r.roe
  {
  }

  /** 2014 lies in both the recovery window and the Basel III window, so it
      gets both sets of factors. */
  lemma Year2014GetsRecoveryAndBasel(r: Row)
    requires r.annee == 2014
    ensures Trended(r).roe == r.roe * 1.08 && Trended(r).creditsClients == r.creditsClients * 1.05
    ensures Trended(r).ratioCet1 == r.ratioCet1 * 1.12 && Trended(r).ratioLiquidite == r.ratioLiquidite * 1.06
  {
  }

  /** The COVID window covers 2020-2021, but its factors apply to 2020 only. */
  lemma CovidFactorsOnly2020(r: Row)
    requires 2020 <= r.annee <= 2021
    ensures r.annee == 2020 ==>
      && Trended(r).resultatNet == r.resultatNet * 0.68
      && Trended(r).dotationsProvisions == r.dotationsProvisions * 1.95
      && Trended(r).creditsTourisme == r.creditsTourisme * 0.55
    ensures r.annee == 2021 ==>
      && Trended(r).resultatNet == r.resultatNet
      && Trended(r).dotationsProvisions == r.dotationsProvisions
      && Trended(r).creditsTourisme == r.creditsTourisme
  {
  }

  /** From 2022 on the green-finance and recovery windows compound. */
  lemma PostCovidWindowsCompound(r: Row)
    requires r.annee >= 2022
    ensures Trended(r).creditsEc == r.creditsEc * 1.25 * 1.35
    ensures Trended(r).resultatNet == r.resultatNet * 1.08
    ensures Trended(r).creditsEntreprises == r.creditsEntreprises * 1.12
  {
  }

  /** Running the pass twice is not running it once: it multiplies again. */
  lemma TrendsNotIdempotent(r: Row)
    requires r.annee >= 2022 && r.creditsEc != 0.0
    ensures Trended(Trended(r)) != Trended(r)
  {
    var once := r.creditsEc * CreditsEcFactor(r.annee);
    assert CreditsEcFactor(r.annee) == 1.6875;
    assert Trended(Trended(r)).creditsEc == once * 1.6875;
  }

  /** Net income is shocked twice in crisis years. A row whose net income is
      the simulator's value (which already carries x0.75 in 2008, 2009, 2020
      and 2021) is multiplied again by the pass: x0.72 in 2008-2009, x0.68 in
      2020; 2021 keeps the simulator's factor only. */
  lemma NetIncomeCrisisScaledTwice(c: BankConfig, years: seq<int>, noise: seq<real>, k: nat, r: Row)
    requires |noise| == |years| && k < |years|
    requires r.annee == years[k] && r.resultatNet == SimulateNetIncome(c, years, noise)[k]
    ensures var calm := c.revenueBase * 0.22 * (1.0 + 0.045 * k as real) * noise[k];
      && (years[k] == 2008 || years[k] == 2009 ==> Trended(r).resultatNet == calm * 0.75 * 0.72)
      && (years[k] == 2020 ==> Trended(r).resultatNet == calm * 0.75 * 0.68)
      && (years[k] == 2021 ==> Trended(r).resultatNet == calm * 0.75)
  {
  }

  /** The assembled table's rows are those the previous lemma speaks of: row
      k holds year k and the net income simulator's k-th value, computed from
      the sixth simulator's share of the draws. */
  lemma AssembledNetIncome(c: BankConfig, years: seq<int>, draws: seq<real>, k: nat)
    requires |draws| == MetricCount * |years| && k < |years|
    ensures AssembleTable(c, years, draws)[k].annee == years[k]
    ensures AssembleTable(c, years, draws)[k].resultatNet == SimulateNetIncome(c, years, Slice(draws, 5, |years|))[k]
    ensures Slice(draws, 5, |years|)[k] == draws[5 * |years| + k]
  {
  }
}
