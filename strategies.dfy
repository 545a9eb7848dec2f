/**
 * The four lifestyle modes of app.py and the simulator inputs each one
 * stands for. The source writes the table twice: once as the if/elif chain
 * that configures the selected mode, and once as the four calls that feed
 * the comparison chart. Both are modelled, and PresetTablesAgree proves they
 * agree.
 */
module Strategies {
  import opened Simulation

  /** Mode A (casual comfort), B (shadow landlord), C (skill builder), D (golden mix). */
  datatype Mode = Casual | ShadowLandlord | SkillBuilder | GoldenMix

  /** The four parameters a mode fixes: monthly shadow rent and skill spend, annual return and salary growth. */
  datatype Preset = Preset(shadowRent: real, skillInvestment: real, investReturnRate: real, salaryGrowthRate: real)

  /** The monthly living cost passed to every simulation. */
  const LivingCost: real := 20000.0

  /** The modes in the order of the comparison chart's columns. */
  const ComparisonModes: seq<Mode> := [Casual, ShadowLandlord, SkillBuilder, GoldenMix]

  /**
   * The if/elif chain that configures the selected mode. Only B and D route
   * the market rent into the investment account; only C and D spend on
   * skills; every mode has a positive return and growth rate of at most 6%.
   */
  function SelectedPreset(mode: Mode, marketRent: real): (p: Preset)
    ensures p.shadowRent == (if mode == ShadowLandlord || mode == GoldenMix then marketRent else 0.0)
    ensures p.skillInvestment >= 0.0
    ensures p.skillInvestment > 0.0 <==> mode == SkillBuilder || mode == GoldenMix
    ensures 0.0 < p.investReturnRate <= 0.06 && 0.0 < p.salaryGrowthRate <= 0.05
  {
    match mode
    case Casual => Preset(0.0, 0.0, 0.01, 0.01)
    case ShadowLandlord => Preset(marketRent, 0.0, 0.06, 0.015)
    case SkillBuilder => Preset(0.0, 5000.0, 0.03, 0.05)
    case GoldenMix => Preset(marketRent, 3000.0, 0.06, 0.035)
  }

  /** The parameters of the four calls that compute the comparison chart. */
  function ComparisonPreset(mode: Mode, marketRent: real): Preset
  {
    if mode == Casual then Preset(0.0, 0.0, 0.01, 0.01)
    else if mode == ShadowLandlord then Preset(marketRent, 0.0, 0.06, 0.015)
    else if mode == SkillBuilder then Preset(0.0, 5000.0, 0.03, 0.05)
    else Preset(marketRent, 3000.0, 0.06, 0.035)
  }

  /** The simulator inputs for a preset and a starting salary. */
  function PresetInputs(p: Preset, salary: real): (inp: Inputs)
    ensures inp.startSalary == salary && inp.monthlyLivingCost == LivingCost
  {
    Inputs(salary, LivingCost, p.shadowRent, p.skillInvestment, p.investReturnRate, p.salaryGrowthRate)
  }

  /** The selected-mode table and the comparison calls give every mode the same parameters. */
  lemma PresetTablesAgree(mode: Mode, marketRent: real)
    ensures SelectedPreset(mode, marketRent) == ComparisonPreset(mode, marketRent)
  {
  }

  /**
   * For a non-negative market rent, every mode's wealth projection is
   * non-negative and non-decreasing, because every preset has a positive
   * return rate and a non-negative shadow rent.
   */
  lemma ModeWealthNonDecreasing(mode: Mode, salary: real, marketRent: real, n: nat)
    requires marketRent >= 0.0
    ensures forall i :: 0 <= i < n ==> Simulate(PresetInputs(SelectedPreset(mode, marketRent), salary), n).wealth[i] >= 0.0
    ensures forall i, j :: 0 <= i <= j < n ==>
      Simulate(PresetInputs(SelectedPreset(mode, marketRent), salary), n).wealth[i]
      <= Simulate(PresetInputs(SelectedPreset(mode, marketRent), salary), n).wealth[j]
  {
    WealthNonDecreasing(PresetInputs(SelectedPreset(mode, marketRent), salary), n);
  }

  /**
   * Modes B and D put at least twelve months of market rent into the account
   * every year: each year's contribution is at least 12 * marketRent.
   */
  lemma ShadowRentModesSaveRent(mode: Mode, salary: real, marketRent: real, n: nat, i: nat)
    requires mode == ShadowLandlord || mode == GoldenMix
    requires i < n
    ensures var inp := PresetInputs(SelectedPreset(mode, marketRent), salary);
      Contribution(inp, Simulate(inp, n).salary[i]) >= 12.0 * marketRent
  {
  }
}
