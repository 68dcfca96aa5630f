/** The monthly total-assets series of Run.py: the bank's base assets in the
    first month, then each month the previous value times one plus that
    month's growth draw. */
module BankAssets {
  import opened RateHistory

  /** Base assets (millions of euros), keyed by exact bank name. */
  const AssetBases: map<string, real> := map[
    "Crédit Agricole de La Réunion" := 8000.0,
    "Banque de La Réunion (BLR)" := 3500.0,
    "Banque Française Commerciale Océan Indien (BFC OI)" := 2500.0,
    "Société Générale Réunion" := 4500.0,
    "BNP Paribas Réunion" := 4000.0,
    "Banque Populaire Réunion" := 3000.0,
    "Caisse d'Épargne Réunion" := 3500.0,
    "Crédit Immobilier de l'Océan Indien (CIOI)" := 1200.0,
    "HSBC Réunion" := 1500.0,
    "CIC Réunion" := 2000.0
  ]

  /** A listed name's base, or 2000 for any other name. */
  function BaseAssets(bank: string): (b: real)
    ensures bank in AssetBases ==> b == AssetBases[bank]
    ensures bank !in AssetBases ==> b == 2000.0
    ensures 1200.0 <= b <= 8000.0
  {
    if bank in AssetBases then AssetBases[bank] else 2000.0
  }

  /** Month k of the compounded series: the base at month 0, then the
      previous month's value times 1 + growth[k]. growth[0] is drawn but
      unused. */
  function Compounded(base: real, growth: seq<real>, k: nat): real
    requires k < |growth|
  {
    if k == 0 then base else Compounded(base, growth, k - 1) * (1.0 + growth[k])
  }

  /** The asset series: an append loop reading the last appended value. */
  method CompoundMonthly(baseValue: real, growth: seq<real>) returns (assets: seq<real>)
    requires |growth| == MonthCount
    ensures |assets| == MonthCount
    ensures forall k :: 0 <= k < MonthCount ==> assets[k] == Compounded(baseValue, growth, k)
  {
    assets := [];
    for i := 0 to MonthCount
      invariant |assets| == i
      invariant forall k :: 0 <= k < i ==> assets[k] == Compounded(baseValue, growth, k)
    {
      var assetValue;
      if i == 0 {
        assetValue := baseValue;
      } else {
        assert assets[i - 1] == Compounded(baseValue, growth, i - 1);
        assetValue := assets[|assets| - 1] * (1.0 + growth[i]);
      }
      assets := assets + [assetValue];
    }
  }

  /** A bank's asset series: its base in the first month, then compounded
      month by month. */
  method GetBankAssets(bank: string, growth: seq<real>) returns (assets: seq<real>)
    requires |growth| == MonthCount
    ensures |assets| == MonthCount
    ensures assets[0] == BaseAssets(bank)
    ensures forall k :: 0 < k < MonthCount ==> assets[k] == assets[k - 1] * (1.0 + growth[k])
    ensures forall k :: 0 <= k < MonthCount ==> assets[k] == Compounded(BaseAssets(bank), growth, k)
  {
    assets := CompoundMonthly(BaseAssets(bank), growth);
    CompoundedSteps(BaseAssets(bank), growth, assets);
  }

  /** A sequence listing the compounded values month by month satisfies the
      one-step recurrence. */
  lemma CompoundedSteps(base: real, growth: seq<real>, s: seq<real>)
    requires |s| == |growth| && forall k :: 0 <= k < |s| ==> s[k] == Compounded(base, growth, k)
    ensures forall k :: 0 < k < |s| ==> s[k] == s[k - 1] * (1.0 + growth[k])
  {
  }

  /** A positive base stays positive as long as no month loses 100% or more. */
  lemma {:induction false} CompoundedPositive(base: real, growth: seq<real>, k: nat)
    requires k < |growth| && base > 0.0
    requires forall j :: 0 < j <= k ==> growth[j] > -1.0
    ensures Compounded(base, growth, k) > 0.0
  {
    if k > 0 {
      CompoundedPositive(base, growth, k - 1);
      PositiveTimes(Compounded(base, growth, k - 1), 1.0 + growth[k]);
    }
  }

  lemma PositiveTimes(a: real, b: real)
    requires a > 0.0 && b > 0.0
    ensures a * b > 0.0
  {
  }

  /** With no negative month the series never falls below its base. */
  lemma {:induction false} CompoundedAtLeastBase(base: real, growth: seq<real>, k: nat)
    requires k < |growth| && base > 0.0
    requires forall j :: 0 < j <= k ==> growth[j] >= 0.0
    ensures Compounded(base, growth, k) >= base
  {
    if k > 0 {
      CompoundedAtLeastBase(base, growth, k - 1);
      var prev := Compounded(base, growth, k - 1);
      assert prev * (1.0 + growth[k]) == prev + prev * growth[k];
      NonNegativeTimes(prev, growth[k]);
    }
  }

  lemma NonNegativeTimes(a: real, b: real)
    requires a >= 0.0 && b >= 0.0
    ensures a * b >= 0.0
  {
  }

  function Power(x: real, n: nat): real
  {
    if n == 0 then 1.0 else x * Power(x, n - 1)
  }

  /** A constant monthly growth g compounds geometrically: month k holds
      base * (1 + g)^k. */
  lemma {:induction false} CompoundedConstantGrowth(base: real, growth: seq<real>, g: real, k: nat)
    requires k < |growth|
    requires forall j :: 0 < j <= k ==> growth[j] == g
    ensures Compounded(base, growth, k) == base * Power(1.0 + g, k)
  {
    if k > 0 {
      CompoundedConstantGrowth(base, growth, g, k - 1);
      assert base * Power(1.0 + g, k - 1) * (1.0 + g) == base * ((1.0 + g) * Power(1.0 + g, k - 1));
    }
  }
}
