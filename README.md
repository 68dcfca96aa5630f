# Réunion banks: financial tables and rate curves, in Dafny

This project models the deterministic rules of two synthetic-data generators about the banks of La Réunion, and proves properties of them.

- **Ru.py, the yearly financial-table generator.** It has a registry of bank profiles with a default profile. Twenty-four per-metric simulators produce one value per year from 2002 to 2025. Each value has the form `base × (1 + rate·i) × calendar factor × specialisation factor × draw`. A post-processing pass multiplies named cells of the assembled table in place, window by window. A menu choice picks the bank.
- **Run.py, the monthly rate-curve generator.** Current rates are chosen by bank-name substring. Each bank has a per-year adjustment table. Historical generators produce clamped monthly series over 288 months (2002-01 to 2025-12). Fallback simulators derive rates from a piecewise deposit path and bounded uniform offsets. The table also holds a compounding asset series and three spread columns. A comparative report ranks the banks' 2024 deposit and lending rates.

Every random draw is an input:
- A normal draw is a `seq<real>` with no bounds.
- A uniform draw is a `seq<real>` whose `requires` bounds give its half-open interval.

Every amount is a `real`, so all arithmetic is exact.

The Ru.py simulators run one after the other on a single random stream, one draw per year each. The model passes one stream, and simulator j reads `draws[j·n .. (j+1)·n]` (`BankingTrends.Slice`).

The model follows the code in three places where one might expect otherwise:
- **Ratios are not floored.** No Ru.py ratio simulator clamps its value. A negative draw gives a negative ROE (`FinancialProperties.RoeIsNotFloored`). Ratios are positive only under positive draws (`FinancialProperties.RatiosPositiveUnderPositiveNoise`).
- **Net income is scaled twice in crisis years.** Its simulator already multiplies 2008, 2009, 2020 and 2021 by 0.75. The trend pass then multiplies 2008–2009 by 0.72 and 2020 by 0.68 (`FinancialProperties.NetIncomeCrisisScaledTwice`).
- **The fallback corporate deposit rate has no floor.** It can be negative (`RateFallback.CorporateDepositFallbackCanBeNegative`).

Files:
- `bank_profiles.dfy`: the bank registry and the menu choice.
- `financial_series.dfy`: the 24 simulators, built from a generic metric rule.
- `banking_trends.dfy`: the table, and the in-place trend pass with its reference definition `Trended`.
- `financial_properties.dfy`: properties of the yearly table.
- `rate_lookup.dfy`: substring matching, current rates and bank adjustments.
- `rate_history.dfy`: the monthly axis, the historical tables and the clamped generators.
- `rate_fallback.dfy`: the fallback simulators and the rate-type dispatch.
- `bank_assets.dfy`: the compounding asset series.
- `rate_table.dfy`: a bank's monthly table and its spread columns.
- `rankings.dfy`: the 2024 rankings.

## Model

| member | source | states |
|---|---|---|
| BankProfiles.GetBankConfig | Ru.py:21-76 | A registered name gets its own profile. Any other name gets exactly the default profile: 1500, 120, commercial, ["particuliers","petites_entreprises"], ["local"]. Every profile has positive bases. |
| BankProfiles.ChooseBank | Ru.py:868-895 | A choice in 1..6 selects `banques[choix-1]`. A non-integer or out-of-range choice selects "Crédit Agricole de la Réunion". The result is always one of the menu's banks. |
| BankProfiles.ChosenBankHasOwnProfile | Ru.py:868-895 | Whatever the choice, the selected bank is in the registry, so its profile is never the default one. |
| FinancialSeries.Series | Ru.py:129-526 | The shared shape of every simulator: one value per input year, in input order. |
| FinancialSeries.SimulateTotalAssets | Ru.py:129-147 | Value i is `assets_base × (1 + r·i) × draw_i`, with r = 0.065 (cooperative), 0.055 (mutualiste) or 0.048 (otherwise). |
| FinancialSeries.SimulateEquity | Ru.py:149-159 | Value i is `assets_base × 0.085 × (1 + 0.052·i) × draw_i`. |
| FinancialSeries.SimulateCustomerDeposits | Ru.py:161-171 | Value i is `assets_base × 0.65 × (1 + 0.045·i) × draw_i`. |
| FinancialSeries.SimulateCustomerLoans | Ru.py:173-183 | Value i is `assets_base × 0.58 × (1 + 0.055·i) × draw_i`. |
| FinancialSeries.SimulateNetBankingIncome | Ru.py:185-202 | Value i is `revenue_base × (1 + r·i) × draw_i`, with r = 0.058, 0.052 or 0.048 by type. |
| FinancialSeries.SimulateNetIncome | Ru.py:204-221 | Value i is `revenue_base × 0.22 × (1 + 0.045·i) × draw_i`, times 0.75 in 2008, 2009, 2020 and 2021. |
| FinancialSeries.SimulateOperatingCosts | Ru.py:223-233 | Value i is `revenue_base × 0.62 × (1 + 0.042·i) × draw_i`. |
| FinancialSeries.SimulateProvisions | Ru.py:235-252 | Value i is `revenue_base × 0.08 × (1 + 0.035·i) × draw_i`, times 1.8 in crisis years. |
| FinancialSeries.SimulateTaxes | Ru.py:254-271 | Value i is `revenue_base × 0.05 × (1 + 0.04·i) × draw_i`, times 1.15 from 2018. |
| FinancialSeries.SimulateRoe | Ru.py:273-289 | Value i is `0.125 × (1 + 0.002·i) × draw_i`, times 0.65 in crisis years. |
| FinancialSeries.SimulateRoa | Ru.py:291-307 | Value i is `0.0085 × (1 + 0.0015·i) × draw_i`, times 0.60 in crisis years. |
| FinancialSeries.SimulateInterestMargin | Ru.py:309-324 | Value i is `0.018 × draw_i`, times 0.92 from 2015. |
| FinancialSeries.SimulateCostOfRisk | Ru.py:326-341 | Value i is `0.0040 × draw_i`, times 2.5 in crisis years. |
| FinancialSeries.SimulateCet1Ratio | Ru.py:343-359 | Value i is `0.125 × (1 + 0.008·i) × draw_i`, times 1.12 from 2014. |
| FinancialSeries.SimulateLiquidityRatio | Ru.py:361-376 | Value i is `1.15 × draw_i`, times 1.08 from 2015. |
| FinancialSeries.SimulateSolvencyRatio | Ru.py:378-394 | Value i is `0.145 × (1 + 0.006·i) × draw_i`, times 1.10 from 2014. |
| FinancialSeries.SimulateNpl | Ru.py:396-412 | Value i is `0.032 × (1 − 0.005·i) × draw_i`, times 1.9 in crisis years. |
| FinancialSeries.SimulateRetailLoans | Ru.py:414-427 | Value i is `assets_base × 0.25 × (1 + 0.05·i) × draw_i`, times 1.4 with the "particuliers" tag and 0.8 without. |
| FinancialSeries.SimulateCorporateLoans | Ru.py:429-441 | Value i is `assets_base × 0.20 × (1 + 0.048·i) × draw_i`, times 1.5 with "entreprises" and 0.9 without. |
| FinancialSeries.SimulateRealEstateLoans | Ru.py:443-461 | Value i is `assets_base × 0.18 × (1 + 0.052·i) × draw_i`, times 0.7 in 2008–2009, and times 1.6 with "immobilier" and 0.85 without. |
| FinancialSeries.SimulateAgricultureLoans | Ru.py:463-475 | Value i is `assets_base × 0.06 × (1 + 0.04·i) × draw_i`, times 2.0 with "agriculture" and 0.7 without. |
| FinancialSeries.SimulateTourismLoans | Ru.py:477-495 | Value i is `assets_base × 0.05 × (1 + 0.046·i) × draw_i`, times 0.6 in 2020–2021, and times 1.8 with "tourisme" and 0.8 without. |
| FinancialSeries.SimulateCommerceLoans | Ru.py:497-509 | Value i is `assets_base × 0.04 × (1 + 0.044·i) × draw_i`, times 1.7 with "commerce" and 0.9 without. |
| FinancialSeries.SimulateEnergyClimateLoans | Ru.py:511-526 | Value i is `assets_base × 0.03 × draw_i`, times `1 + 0.08·(year − 2015)` from 2015. |
| BankingTrends.Slice | Ru.py:78-127 | Simulator j's share of the single draw stream: n draws starting at j·n. |
| BankingTrends.AssembleTable | Ru.py:78-127 | One row per year, in order, holding that year. |
| BankingTrends.AddBankingTrends | Ru.py:528-569 | Each row becomes `Trended` of its old value, in place. `Trended` multiplies each of ten named columns by the product of the factors of every window covering the row's year. |
| BankingTrends.GenerateFinancialData | Ru.py:78-127 | The table for 2002–2025 is the assembled simulator columns after exactly one trend pass. |
| FinancialProperties.TotalAssetsUnitNoise | Ru.py:134-145 | With every draw at 1, offset 0 is `assets_base`, and offset i is `assets_base × (1 + r·i)` for the type's rate. |
| FinancialProperties.DefaultBankTwoYearScenario | Ru.py:66-76 | An unknown bank over 2002–2003 with unit draws has total assets [1500, 1572]. |
| FinancialProperties.CrisisMultipliers | Ru.py:204-412 | In a crisis year each shocked metric is its factor times the calm-year value at the same offset and draw. The factors are net income 0.75, provisions 1.8, ROE 0.65, ROA 0.60, cost of risk 2.5 and NPL 1.9. |
| FinancialProperties.RoeIsNotFloored | Ru.py:273-289 | A negative draw gives a negative ROE: no ratio has a floor. |
| FinancialProperties.RatiosPositiveUnderPositiveNoise | Ru.py:273-412 | With positive draws and fewer than 200 offsets, all eight ratio columns are positive. |
| FinancialProperties.TrendsTouchOnlyNamedColumns | Ru.py:528-569 | The pass changes only its ten named columns. The year, total assets, equity, deposits, net banking income and the rest keep their values. |
| FinancialProperties.CrisisWindowExcludesRecovery | Ru.py:539-548 | In 2008–2009, net income is ×0.72, provisions ×1.85 and NPL ×1.45. The 2010–2014 recovery factors never apply there, because they sit in the `elif`. |
| FinancialProperties.Year2014GetsRecoveryAndBasel | Ru.py:545-553 | 2014 gets both the recovery factors (ROE ×1.08, loans ×1.05) and the Basel III factors (CET1 ×1.12, liquidity ×1.06). |
| FinancialProperties.CovidFactorsOnly2020 | Ru.py:559-563 | The COVID window covers 2020–2021, but only 2020 is changed. |
| FinancialProperties.PostCovidWindowsCompound | Ru.py:555-568 | From 2022, energy-climate loans are ×1.25×1.35, net income ×1.08 and corporate loans ×1.12. |
| FinancialProperties.TrendsNotIdempotent | Ru.py:528-569 | Running the pass twice differs from running it once. |
| FinancialProperties.NetIncomeCrisisScaledTwice | Ru.py:204-221 | The final crisis-year net income is calm × 0.75 × 0.72 in 2008–2009, calm × 0.75 × 0.68 in 2020, and calm × 0.75 in 2021. |
| FinancialProperties.AssembledNetIncome | Ru.py:78-127 | Row k of the assembled table holds year k and the net income simulator's k-th value. That value uses the sixth simulator's draws. |
| RateLookup.CurrentRates | Run.py:72-118 | The result is the pair of the first pattern, in the fixed order, that occurs in the name. A name matching none gets (1.5, 3.5). Deposit lies in 1.1..1.8, lending in 3.2..3.9, and deposit is below lending. |
| RateLookup.CreditAgricoleCurrentRates | Run.py:80-82 | Crédit Agricole de La Réunion gets (1.5, 3.5). |
| RateLookup.BlrCurrentRates | Run.py:83-85 | Banque de La Réunion (BLR) gets (1.6, 3.6). |
| RateLookup.SocieteGeneraleCurrentRates | Run.py:89-91 | Société Générale Réunion gets (1.3, 3.7). |
| RateLookup.BankAdjustments | Run.py:292-323 | The table is either empty, or its keys are exactly 2002..2025, all with one value. A name matching none of the four banks gets an empty table. Every value lies in −0.3..0.3. |
| RateLookup.BankAdjustmentValue | Run.py:402-407 | The value is that of every year in the table, and 0.0 when the table is empty. |
| RateLookup.CreditAgricoleAdjustments | Run.py:299-304 | Crédit Agricole gets +0.1 on deposit and corporate deposit, and −0.1 on lending, mortgage and corporate lending. |
| RateLookup.BlrHasNoCorporateLendingAdjustment | Run.py:306-310 | BLR has no corporate-lending adjustment, so its value is 0. |
| RateHistory.YearOfMonth | Run.py:142-146 | Every month of the 288-month axis falls in a year from 2002 to 2025. |
| RateHistory.MonthsOfYear | Run.py:142-146 | Month k falls in year y exactly when k is in [12(y−2002), 12(y−2002)+12). |
| RateHistory.YearTable | Run.py:129-135 | A historical table has exactly the keys 2002..2025. |
| RateHistory.Clamped | Run.py:150-151 | A value is never below its floor. It equals base + adjustment + draw whenever that sum reaches the floor, and the floor otherwise. |
| RateHistory.ClampedMonthly | Run.py:145-152 | The append loop yields one value per month: the clamped sum of the year's base (or the default), the year's adjustment (or 0) and the month's draw. |
| RateHistory.GeneratedOnAxis | Run.py:145-152 | On the axis, the default base and the default adjustment are never used. |
| RateHistory.GetHistoricalDepositRates | Run.py:120-159 | 288 values, each the clamped sum of the deposit history, the bank's adjustment and the draw, and at least 0.1. |
| RateHistory.GetHistoricalLendingRates | Run.py:161-196 | The same shape over the lending history, with floor 1.5. |
| RateHistory.GetMortgageRates | Run.py:198-230 | The same shape over the mortgage history, with floor 0.8. |
| RateHistory.CorporateMonthly | Run.py:264-275 | One loop yields both corporate series month by month: deposit with default 0.5 and floor 0.0, lending with default 2.5 and floor 1.0. |
| RateHistory.GetCorporateRates | Run.py:232-290 | Corporate deposit rates are at least 0.0 and corporate lending rates at least 1.0. Each is the clamped sum of its own history, the bank's adjustment and its own draw. |
| RateHistory.CreditAgricoleDeposit2024 | Run.py:120-152 | With a zero draw, Crédit Agricole's December 2024 deposit rate is 1.8 + 0.1. |
| RateFallback.FallbackDepositBase | Run.py:354-371 | The piecewise path lies in 0.25..4.0. It reaches 4.0 exactly in 2008. Years outside 2002..2025 get 1.6. |
| RateFallback.FallbackTracksDepositHistory | Run.py:354-371 | On every axis year the fallback path is within 0.5 of the historical deposit table. The two are equal at thirteen named years. |
| RateFallback.SimulateDepositRates | Run.py:348-376 | One value per month: the path, plus the deposit adjustment, plus the draw, floored at 0.1. |
| RateFallback.SimulateLendingRates | Run.py:378-382 | Lending minus the fresh deposit value lies in [2, 3), and every value is at least 2.1. |
| RateFallback.SimulateMortgageRates | Run.py:384-388 | Lending minus mortgage lies in [0.5, 1), and every value is above 1.1. |
| RateFallback.SimulateCorporateDeposit | Run.py:390-394 | The deposit value minus an offset in [0.5, 1). The only bound is above −0.9. |
| RateFallback.SimulateCorporateLending | Run.py:396-400 | The lending value minus an offset in [0, 0.5), so every value is above 1.6. |
| RateFallback.CorporateDepositFallbackCanBeNegative | Run.py:390-394 | A draw of −5 or less clamps the deposit value to 0.1, and the offset then makes the result negative. |
| RateFallback.SimulatedKindOf | Run.py:333-344 | A label gives the deposit series exactly when it contains "Deposit" and not "Corporate". A label naming no deposit, lending or mortgage gets uniform draws. |
| RateFallback.DepositLabel | Run.py:157-159 | "Deposit Rate" selects the deposit simulator. |
| RateFallback.LendingLabel | Run.py:194-196 | "Lending Rate" selects the lending simulator. |
| RateFallback.MortgageLabel | Run.py:228-230 | "Mortgage Rate" selects the mortgage simulator. |
| RateFallback.AssetsLabel | Run.py:445-449 | "Assets (M€)" falls through to uniform draws in [0.5, 5). |
| RateFallback.CreateSimulatedData | Run.py:325-346 | The selected series over the 288 months. Every series except corporate deposits is positive. |
| BankAssets.BaseAssets | Run.py:417-430 | A listed bank's base, or 2000 for any other name. The base always lies in 1200..8000. |
| BankAssets.CompoundMonthly | Run.py:431-443 | The append loop yields month k as the base compounded by the growth draws of months 1..k. |
| BankAssets.GetBankAssets | Run.py:409-449 | The series starts at the bank's base. Each later month is the previous value × (1 + g). |
| BankAssets.CompoundedSteps | Run.py:438-441 | The compounded values satisfy the one-step recurrence. |
| BankAssets.CompoundedPositive | Run.py:438-441 | The series stays positive while no month's growth is −100% or worse. |
| BankAssets.CompoundedAtLeastBase | Run.py:438-441 | With non-negative growth the series never falls below its base. |
| BankAssets.CompoundedConstantGrowth | Run.py:438-441 | A constant growth g gives `base × (1 + g)^k`. |
| RateTable.WithSpreads | Run.py:474-476 | The three new columns are exact differences: deposit + retail spread = lending, corporate deposit + corporate spread = corporate lending, and mortgage + mortgage discount = lending. Nothing else changes. |
| RateTable.AddSpreadColumns | Run.py:474-476 | Every row gets its spreads, in place. |
| RateTable.RowAt | Run.py:451-472 | Month k's row holds each generator's k-th value, and the generators' floors hold in every row. |
| RateTable.GetAllBankRates | Run.py:451-478 | 288 rows: month k holds each generator's k-th value and the asset series' k-th value, plus the spreads. |
| RateTable.LendingMortgageGapIsOnePoint | Run.py:169-213 | In every year the lending table is exactly one point above the mortgage table. |
| RateTable.MortgageDiscountWithoutNoise | Run.py:474-476 | With zero draws and no clamping, the mortgage discount is 1 + the lending adjustment − the mortgage adjustment. For Crédit Agricole it is exactly 1. |
| RateTable.RetailHistorySpreadBounds | Run.py:129-175 | The historical retail spread (lending − deposit) lies in 1.8..3.0 points in every year. |
| Rankings.SortRanking | Run.py:604 | The entries end sorted by rate and form a permutation of the input. |
| Rankings.InsertAt | Run.py:604 | One insertion step extends the sorted prefix by one and keeps the multiset of entries. |
| Rankings.Rank | Run.py:598-617 | A ranking is a sorted permutation of its entries, and its head is at least as good as every entry. |
| Rankings.FirstMonthFrom | Run.py:600 | The first month on or after 1 January of a year: every earlier month falls in an earlier year. |
| Rankings.First2024Month | Run.py:600 | The first row on or after 2024-01-01 is month 264. |
| Rankings.EntriesFor | Run.py:598-602 | Each selected bank is paired with its rate in the first month of 2024, in selection order. |
| Rankings.ComparativeRankings | Run.py:589-631 | The deposit ranking is sorted highest first and the lending ranking lowest first. Each is a permutation of the banks' 2024 entries. The recommended banks head the rankings, and their rates are the best among the selected banks. |
| Rankings.RankingHeadFromBanks | Run.py:629-630 | The head of a ranking names a selected bank whose rate is at least as good as every bank's 2024 rate. |

## Left out

- Charts, console output, CSV and PNG files: `create_financial_analysis`, the `_plot_*` functions, `_create_comparative_visualizations`, `_generate_financial_insights`, the printing in `_generate_comparative_report` and the `main` banners are all I/O.
- The 2002–2025 evolution lines of the comparative report are printed figures only and are not modelled.
- `input()` and `int()` parsing: `ChooseBank` takes an optional integer, where `None` stands for text that is not an integer.
- The network plumbing (`requests`, `BeautifulSoup`, request headers) and the static `self.banks` metadata (websites, founding years, types) are unused by the computations.
- The random generators themselves are not modelled. Normal and uniform draws are inputs, and no distribution is modelled. Python floats are modelled as exact reals, so rounding is not captured.
- Run.py draws all its noise from one global stream. The model gives each series its own input sequence, so the interleaving of draws between series is not captured.
- The `try`/`except` fallbacks around the Run.py generators and around `get_bank_rates` are not modelled, because the guarded code cannot raise. `_create_simulated_data` is modelled as a plain dispatch (`CreateSimulatedData`). The corporate fallback branch of `get_corporate_rates` is not modelled as a path, but the two simulators it calls are.
- pandas mechanics (`date_range`, `merge`, `sort_values`, `interpolate`, `DataFrame`) are not modelled. The axes are fixed sequences: years 2002..2025, and 288 months in which month k falls in year 2002 + k/12. Every Run.py frame has the same month-ends, so the outer merge lines rows up by index and interpolation fills nothing.
- `_create_comparative_dataframe` and `create_comparative_analysis` are not modelled. `ComparativeRankings` takes each selected bank's monthly deposit and lending series directly.
- Year keys are strings in Run.py ('2002') and integers here. Every lookup converts the year with `str()`, so the two agree.
- Rate-type labels passed to `_get_bank_adjustments` are the five values of `RateKind`, because no other label is ever passed.
- Rankings.SortRanking: does not state stability. Python's sort keeps tied banks in selection order, and the insertion sort here does too, but the contract only promises a sorted permutation.
- RateLookup.CurrentRates: the per-bank lemmas cover three of the six banks the comparative report selects. The other three hold by the same first-match contract, but are not proved as separate facts.
- `create_comparative_analysis`'s default choice of the first six registered banks is not modelled, because the entry point always passes its own list.
