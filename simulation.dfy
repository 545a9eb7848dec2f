/**
 * The year-by-year wealth simulator `calculate_wealth` of app.py.
 *
 * The simulator carries two running values, the monthly salary and the
 * asset balance, through `years` annual steps. Each step grows the salary,
 * splits the year's cash flow into shadow rent (forced savings) plus a tenth
 * of any positive remainder, compounds the balance and adds that
 * contribution, and estimates a monthly passive income at a 4% yield.
 *
 * The running values are specified by the recursive functions SalaryAfter
 * and AssetsAfter; the three lists by Simulate. The imperative loop,
 * CalculateWealth, is proved equal to Simulate, and the lemmas below state
 * what the lists satisfy. All arithmetic is over `real`.
 */
module Simulation {

  /** The scalar arguments of calculate_wealth other than the horizon. */
  datatype Inputs = Inputs(
    startSalary: real,        // monthly salary before the first year
    monthlyLivingCost: real,
    shadowRent: real,         // monthly forced savings routed to the investment account
    skillInvestment: real,    // monthly spend on skills, consumed
    investReturnRate: real,   // annual compounding rate of the asset balance
    salaryGrowthRate: real)   // annual compounding rate of the salary

  /** The three aligned lists calculate_wealth returns. */
  datatype Paths = Paths(wealth: seq<real>, salary: seq<real>, passiveIncome: seq<real>)

  /** x raised to the power n. */
  function Pow(x: real, n: nat): real
  {
    if n == 0 then 1.0 else x * Pow(x, n - 1)
  }

  /** The running monthly salary after n passes of the loop. */
  function SalaryAfter(inp: Inputs, n: nat): real
  {
    if n == 0 then inp.startSalary
    else SalaryAfter(inp, n - 1) * (1.0 + inp.salaryGrowthRate)
  }

  /** Yearly income left after living cost, skill spend and shadow rent. */
  function Disposable(inp: Inputs, salary: real): (d: real)
    ensures d > 0.0 <==> salary > inp.monthlyLivingCost + inp.skillInvestment + inp.shadowRent
  {
    salary * 12.0 - inp.monthlyLivingCost * 12.0 - inp.skillInvestment * 12.0 - inp.shadowRent * 12.0
  }

  /** The part of the disposable income that is saved: 10% of it when positive, nothing otherwise. */
  function ExtraSavings(disposable: real): (e: real)
    ensures e >= 0.0
    ensures e == 0.0 <==> disposable <= 0.0
    ensures e < disposable || disposable <= 0.0
  {
    if disposable > 0.0 then disposable * 0.1 else 0.0
  }

  /** What a year adds to the asset balance, for the salary of that year. */
  function Contribution(inp: Inputs, salary: real): (c: real)
    ensures c >= inp.shadowRent * 12.0
    ensures c == inp.shadowRent * 12.0 <==> Disposable(inp, salary) <= 0.0
  {
    inp.shadowRent * 12.0 + ExtraSavings(Disposable(inp, salary))
  }

  /** The running asset balance after n passes of the loop; it starts at 0. */
  function AssetsAfter(inp: Inputs, n: nat): real
  {
    if n == 0 then 0.0
    else AssetsAfter(inp, n - 1) * (1.0 + inp.investReturnRate) + Contribution(inp, SalaryAfter(inp, n))
  }

  /** Monthly passive income implied by an asset balance at a 4% annual yield. */
  function PassiveIncome(assets: real): (monthly: real)
    ensures monthly * 300.0 == assets
  {
    (assets * 0.04) / 12.0
  }

  /** The lists after n years: entry i of each list belongs to year i + 1. */
  function Simulate(inp: Inputs, n: nat): (p: Paths)
    ensures |p.wealth| == n && |p.salary| == n && |p.passiveIncome| == n
  {
    Paths(seq(n, i requires 0 <= i => AssetsAfter(inp, i + 1)),
          seq(n, i requires 0 <= i => SalaryAfter(inp, i + 1)),
          seq(n, i requires 0 <= i => PassiveIncome(AssetsAfter(inp, i + 1))))
  }

  /** One more year appends one entry to each list and leaves the earlier entries alone. */
  lemma SimulateAppend(inp: Inputs, n: nat)
    ensures var prev, next := Simulate(inp, n), Simulate(inp, n + 1);
      next == Paths(prev.wealth + [AssetsAfter(inp, n + 1)],
                    prev.salary + [SalaryAfter(inp, n + 1)],
                    prev.passiveIncome + [PassiveIncome(AssetsAfter(inp, n + 1))])
  {
  }

  /** The number of loop passes: `range(years)` is empty when years <= 0. */
  function Horizon(years: int): nat
  {
    if years > 0 then years else 0
  }

  /** calculate_wealth: the loop over the years, appending to three lists. */
  method CalculateWealth(years: int, inp: Inputs) returns (wealthPath: seq<real>, salaryPath: seq<real>, passiveIncomePath: seq<real>)
    ensures |wealthPath| == Horizon(years) && |salaryPath| == Horizon(years) && |passiveIncomePath| == Horizon(years)
    ensures Paths(wealthPath, salaryPath, passiveIncomePath) == Simulate(inp, Horizon(years))
  {
    wealthPath, salaryPath, passiveIncomePath := [], [], [];
    var currentAssets := 0.0;
    var currentSalary := inp.startSalary;
    for i := 0 to Horizon(years)
      invariant currentSalary == SalaryAfter(inp, i)
      invariant currentAssets == AssetsAfter(inp, i)
      invariant Paths(wealthPath, salaryPath, passiveIncomePath) == Simulate(inp, i)
    {
      currentSalary := currentSalary * (1.0 + inp.salaryGrowthRate);
      salaryPath := salaryPath + [currentSalary];

      var annualIncome := currentSalary * 12.0;
      var annualLiving := inp.monthlyLivingCost * 12.0;
      var annualSkillCost := inp.skillInvestment * 12.0;
      var annualShadowRent := inp.shadowRent * 12.0;
      var disposable := annualIncome - annualLiving - annualSkillCost - annualShadowRent;
      var extraSavings := if disposable > 0.0 then disposable * 0.1 else 0.0;
      var annualContribution := annualShadowRent + extraSavings;

      assert currentSalary == SalaryAfter(inp, i + 1);
      assert annualContribution == Contribution(inp, currentSalary);
      currentAssets := currentAssets * (1.0 + inp.investReturnRate) + annualContribution;
      assert currentAssets == AssetsAfter(inp, i + 1);
      wealthPath := wealthPath + [currentAssets];
      passiveIncomePath := passiveIncomePath + [(currentAssets * 0.04) / 12.0];
      SimulateAppend(inp, i);
    }
  }

  // ---------------------------------------------------------------------
  // What the lists hold

  /** The running salary is the starting salary compounded n times. */
  lemma {:induction false} SalaryAfterClosedForm(inp: Inputs, n: nat)
    ensures SalaryAfter(inp, n) == inp.startSalary * Pow(1.0 + inp.salaryGrowthRate, n)
  {
    if n > 0 {
      SalaryAfterClosedForm(inp, n - 1);
      var g := 1.0 + inp.salaryGrowthRate;
      calc {
        SalaryAfter(inp, n);
        SalaryAfter(inp, n - 1) * g;
        (inp.startSalary * Pow(g, n - 1)) * g;
        inp.startSalary * (g * Pow(g, n - 1));
      }
    }
  }

  /** Growth comes before the year's cash flow, so even the first entry is already grown. */
  lemma {:induction false} SalaryPathClosedForm(inp: Inputs, n: nat, i: nat)
    requires i < n
    ensures Simulate(inp, n).salary[i] == inp.startSalary * Pow(1.0 + inp.salaryGrowthRate, i + 1)
  {
    SalaryAfterClosedForm(inp, i + 1);
  }

  /** Each passive-income entry is the same year's wealth at a 4% yield, per month. */
  lemma {:induction false} PassiveTracksWealth(inp: Inputs, n: nat, i: nat)
    requires i < n
    ensures Simulate(inp, n).passiveIncome[i] == Simulate(inp, n).wealth[i] * 0.04 / 12.0
  {
  }

  /** The balance starts at 0, so the first wealth entry is the first year's contribution. */
  lemma {:induction false} FirstYearWealth(inp: Inputs, n: nat)
    requires n >= 1
    ensures Simulate(inp, n).wealth[0] == Contribution(inp, Simulate(inp, n).salary[0])
  {
    ScaleEqual(AssetsAfter(inp, 0), 0.0, 1.0 + inp.investReturnRate);
  }

  /** Each later entry compounds the previous one and adds that year's contribution. */
  lemma {:induction false} WealthRecurrence(inp: Inputs, n: nat, i: nat)
    requires 0 < i < n
    ensures Simulate(inp, n).wealth[i]
         == Simulate(inp, n).wealth[i - 1] * (1.0 + inp.investReturnRate) + Contribution(inp, Simulate(inp, n).salary[i])
  {
    var p := Simulate(inp, n);
    ScaleEqual(p.wealth[i - 1], AssetsAfter(inp, i), 1.0 + inp.investReturnRate);
  }

  // ---------------------------------------------------------------------
  // Sign and monotonicity of the asset balance

  /** With a return rate of at least -100% and a non-negative shadow rent the balance never goes negative. */
  lemma {:induction false} AssetsNonNegative(inp: Inputs, n: nat)
    requires inp.investReturnRate >= -1.0 && inp.shadowRent >= 0.0
    ensures AssetsAfter(inp, n) >= 0.0
  {
    if n > 0 {
      AssetsNonNegative(inp, n - 1);
      var grown := AssetsAfter(inp, n - 1) * (1.0 + inp.investReturnRate);
      var added := Contribution(inp, SalaryAfter(inp, n));
      ScaleNonNegative(AssetsAfter(inp, n - 1), 1.0 + inp.investReturnRate);
      assert grown >= 0.0 && added >= 0.0;
      assert AssetsAfter(inp, n) == grown + added;
    }
  }

  /** With a non-negative return rate and shadow rent a year never shrinks the balance. */
  lemma {:induction false} AssetsStep(inp: Inputs, n: nat)
    requires inp.investReturnRate >= 0.0 && inp.shadowRent >= 0.0
    ensures AssetsAfter(inp, n) <= AssetsAfter(inp, n + 1)
  {
    AssetsNonNegative(inp, n);
    ScaleAtLeast(AssetsAfter(inp, n), inp.investReturnRate);
  }

  /** Under the same conditions the balance never falls from one year count to a later one. */
  lemma {:induction false} AssetsMonotone(inp: Inputs, m: nat, n: nat)
    requires inp.investReturnRate >= 0.0 && inp.shadowRent >= 0.0
    requires m <= n
    ensures AssetsAfter(inp, m) <= AssetsAfter(inp, n)
  {
    if m < n {
      AssetsMonotone(inp, m, n - 1);
      AssetsStep(inp, n - 1);
    }
  }

  /** The wealth list is non-negative and non-decreasing when the return rate and shadow rent are non-negative. */
  lemma {:induction false} WealthNonDecreasing(inp: Inputs, n: nat)
    requires inp.investReturnRate >= 0.0 && inp.shadowRent >= 0.0
    ensures forall i :: 0 <= i < n ==> Simulate(inp, n).wealth[i] >= 0.0
    ensures forall i, j :: 0 <= i <= j < n ==> Simulate(inp, n).wealth[i] <= Simulate(inp, n).wealth[j]
  {
    var w := Simulate(inp, n).wealth;
    forall i | 0 <= i < n
      ensures w[i] >= 0.0
    {
      AssetsNonNegative(inp, i + 1);
    }
    forall i, j | 0 <= i <= j < n
      ensures w[i] <= w[j]
    {
      AssetsMonotone(inp, i + 1, j + 1);
    }
  }

  // ---------------------------------------------------------------------
  // Degenerate and worked cases

  /** A zero starting salary stays zero, whatever the growth rate. */
  lemma {:induction false} ZeroSalary(inp: Inputs, n: nat)
    requires inp.startSalary == 0.0
    ensures SalaryAfter(inp, n) == 0.0
  {
    if n > 0 {
      ZeroSalary(inp, n - 1);
    }
  }

  /** Without salary and shadow rent nothing is ever contributed, so the balance stays 0 whatever the return rate. */
  lemma {:induction false} ZeroAssets(inp: Inputs, n: nat)
    requires inp.startSalary == 0.0 && inp.shadowRent == 0.0
    requires inp.monthlyLivingCost >= 0.0 && inp.skillInvestment >= 0.0
    ensures AssetsAfter(inp, n) == 0.0
  {
    if n > 0 {
      ZeroAssets(inp, n - 1);
      ZeroSalary(inp, n);
    }
  }

  /**
   * With no salary and no shadow rent (in particular with every amount and
   * both rates at zero) all three lists hold only zeros.
   */
  lemma {:induction false} ZeroInputsGiveZeroPaths(inp: Inputs, n: nat)
    requires inp.startSalary == 0.0 && inp.shadowRent == 0.0
    requires inp.monthlyLivingCost >= 0.0 && inp.skillInvestment >= 0.0
    ensures forall i :: 0 <= i < n ==>
      Simulate(inp, n).wealth[i] == 0.0 && Simulate(inp, n).salary[i] == 0.0 && Simulate(inp, n).passiveIncome[i] == 0.0
  {
    forall i | 0 <= i < n
      ensures Simulate(inp, n).wealth[i] == 0.0 && Simulate(inp, n).salary[i] == 0.0
      ensures Simulate(inp, n).passiveIncome[i] == 0.0
    {
      ZeroSalary(inp, i + 1);
      ZeroAssets(inp, i + 1);
    }
  }

  /**
   * Salary 50000, living cost 20000, shadow rent 15000, no skill spend, both
   * rates 0, one year: disposable 180000, extra savings 18000, wealth 198000.
   */
  lemma {:induction false} ForcedSavingsExample()
    ensures Simulate(Inputs(50000.0, 20000.0, 15000.0, 0.0, 0.0, 0.0), 1).wealth == [198000.0]
  {
  }

  // ---------------------------------------------------------------------
  // Facts of real arithmetic, kept apart so that the lemmas above need only
  // linear reasoning

  lemma ScaleEqual(a: real, b: real, factor: real)
    requires a == b
    ensures a * factor == b * factor
  {
  }

  lemma ScaleNonNegative(x: real, factor: real)
    requires x >= 0.0 && factor >= 0.0
    ensures x * factor >= 0.0
  {
  }

  lemma ScaleAtLeast(x: real, rate: real)
    requires x >= 0.0 && rate >= 0.0
    ensures x * (1.0 + rate) >= x
  {
    ScaleNonNegative(x, rate);
  }
}
