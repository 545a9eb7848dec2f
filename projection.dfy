/**
 * What app.py does with the simulator's lists: it adds the starting savings
 * to every wealth entry, reads off the final amount and the final monthly
 * passive income (the latter also credited with the savings' own yield),
 * and runs the simulator once per mode for the comparison chart.
 */
module Projection {
  import opened Simulation
  import opened Strategies

  datatype Option<T> = None | Some(value: T)

  /** The two headline numbers: the final total wealth and the final monthly passive income. */
  datatype Finals = Finals(finalAmount: real, finalPassiveMonthly: real)

  /** Every wealth entry shifted by the starting savings. */
  function AddSavings(wealth: seq<real>, savings: real): (total: seq<real>)
    ensures |total| == |wealth|
    ensures forall i :: 0 <= i < |wealth| ==> total[i] - savings == wealth[i]
  {
    seq(|wealth|, i requires 0 <= i < |wealth| => wealth[i] + savings)
  }

  /** Shifting by the savings keeps the order of the entries and lifts a non-negative path to one bounded below by the savings. */
  lemma AddSavingsKeepsShape(wealth: seq<real>, savings: real)
    requires forall i :: 0 <= i < |wealth| ==> wealth[i] >= 0.0
    requires forall i, j :: 0 <= i <= j < |wealth| ==> wealth[i] <= wealth[j]
    ensures var total := AddSavings(wealth, savings);
      (forall i :: 0 <= i < |total| ==> total[i] >= savings) &&
      (forall i, j :: 0 <= i <= j < |total| ==> total[i] <= total[j])
  {
  }

  /**
   * The last total and the last passive income plus the savings' own 4%
   * yield. Reading the last entry of an empty list fails (an IndexError),
   * modelled as None.
   */
  function FinalFigures(totalWealth: seq<real>, passive: seq<real>, savings: real): (r: Option<Finals>)
    ensures r.Some? <==> |totalWealth| > 0 && |passive| > 0
  {
    if |totalWealth| == 0 || |passive| == 0 then None
    else Some(Finals(totalWealth[|totalWealth| - 1], passive[|passive| - 1] + (savings * 0.04 / 12.0)))
  }

  /**
   * The selected mode's run and its post-processing. The final monthly
   * passive income is the final total wealth at a 4% yield, per month:
   * crediting the savings' yield separately gives the same figure as
   * applying the yield to the shifted total.
   */
  method Project(mode: Mode, years: int, salary: real, savings: real, marketRent: real)
    returns (totalWealth: seq<real>, salaryFlow: seq<real>, finals: Option<Finals>)
    ensures var sim := Simulate(PresetInputs(SelectedPreset(mode, marketRent), salary), Horizon(years));
      totalWealth == AddSavings(sim.wealth, savings) && salaryFlow == sim.salary
    ensures finals.Some? <==> years >= 1
    ensures finals.Some? ==>
      finals.value.finalAmount == AssetsAfter(PresetInputs(SelectedPreset(mode, marketRent), salary), years) + savings &&
      finals.value.finalPassiveMonthly == (finals.value.finalAmount * 0.04) / 12.0
  {
    var p := SelectedPreset(mode, marketRent);
    var inp := PresetInputs(p, salary);
    var wealth, passive;
    wealth, salaryFlow, passive := CalculateWealth(years, inp);
    totalWealth := AddSavings(wealth, savings);
    finals := FinalFigures(totalWealth, passive, savings);
    if years >= 1 {
      PassiveTracksWealth(inp, years, years - 1);
    }
  }

  /** The comparison chart's columns: each mode's wealth path shifted by the savings. */
  method CompareModes(years: int, salary: real, savings: real, marketRent: real) returns (columns: seq<seq<real>>)
    ensures |columns| == |ComparisonModes|
    ensures forall k :: 0 <= k < |columns| ==>
      columns[k] == AddSavings(Simulate(PresetInputs(ComparisonPreset(ComparisonModes[k], marketRent), salary), Horizon(years)).wealth, savings)
  {
    var wA, sA, pA := CalculateWealth(years, PresetInputs(Preset(0.0, 0.0, 0.01, 0.01), salary));
    var wB, sB, pB := CalculateWealth(years, PresetInputs(Preset(marketRent, 0.0, 0.06, 0.015), salary));
    var wC, sC, pC := CalculateWealth(years, PresetInputs(Preset(0.0, 5000.0, 0.03, 0.05), salary));
    var wD, sD, pD := CalculateWealth(years, PresetInputs(Preset(marketRent, 3000.0, 0.06, 0.035), salary));
    columns := [AddSavings(wA, savings), AddSavings(wB, savings), AddSavings(wC, savings), AddSavings(wD, savings)];
  }

  /**
   * The chart's column for a mode is the same path as the selected-mode
   * projection's total wealth for that mode, so the chart and the headline
   * figures never disagree.
   */
  lemma ChartMatchesSelection(mode: Mode, years: int, salary: real, savings: real, marketRent: real)
    ensures AddSavings(Simulate(PresetInputs(ComparisonPreset(mode, marketRent), salary), Horizon(years)).wealth, savings)
         == AddSavings(Simulate(PresetInputs(SelectedPreset(mode, marketRent), salary), Horizon(years)).wealth, savings)
  {
  }

  /** With a non-negative market rent every chart column starts at or above the savings and never falls. */
  lemma ChartColumnsNonDecreasing(mode: Mode, years: int, salary: real, savings: real, marketRent: real)
    requires marketRent >= 0.0
    ensures var total := AddSavings(Simulate(PresetInputs(ComparisonPreset(mode, marketRent), salary), Horizon(years)).wealth, savings);
      (forall i :: 0 <= i < |total| ==> total[i] >= savings) &&
      (forall i, j :: 0 <= i <= j < |total| ==> total[i] <= total[j])
  {
    PresetTablesAgree(mode, marketRent);
    var n := Horizon(years);
    var w := Simulate(PresetInputs(SelectedPreset(mode, marketRent), salary), n).wealth;
    ModeWealthNonDecreasing(mode, salary, marketRent, n);
    assert forall i :: 0 <= i < |w| ==> w[i] >= 0.0;
    assert forall i, j :: 0 <= i <= j < |w| ==> w[i] <= w[j];
    AddSavingsKeepsShape(w, savings);
  }
}
