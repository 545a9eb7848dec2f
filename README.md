# Life-architect wealth simulator, modelled in Dafny

This project models the core of a small personal-finance projection app
(`app.py`). The app projects a person's net worth, salary and passive income
over a number of years under four lifestyle modes:

- A, casual comfort;
- B, shadow landlord: pay the market rent into an investment account as if it were rent;
- C, skill builder;
- D, golden mix.

The core is the simulator `calculate_wealth`. It runs a loop over the years and carries two running values:

- the monthly salary, which grows by the salary growth rate first in every year;
- the asset balance, which starts at 0.

Each year the balance is compounded at the investment return rate. Then that year's contribution is added: twelve months of shadow rent, plus 10% of the disposable income when that income is positive. The disposable income is the yearly income minus the living cost, the skill spend and the shadow rent. Each year appends one entry to three lists: the wealth (the balance), the salary, and the passive income, which is the balance at a 4% yield divided by 12.

The model has three modules, one per file:

- `simulation.dfy`, module `Simulation`:
  - `CalculateWealth` is the loop, written as an imperative method.
  - It is proved equal to the specification `Simulate`. Entry `i` of each list in `Simulate` belongs to year `i + 1` and is read off the recursive functions `SalaryAfter` and `AssetsAfter`, the running salary and balance after `n` years.
  - The lemmas state what the three lists hold.
- `strategies.dfy`, module `Strategies`: the mode table. The source writes it twice, once as the if/elif chain for the selected mode and once as the four calls for the comparison chart. Both copies are modelled and proved equal.
- `projection.dfy`, module `Projection`: the caller's post-processing.
  - It adds the starting savings to every wealth entry.
  - It reads off the final amount and the final monthly passive income. The latter is also credited with the savings' own 4% yield.
  - It runs the simulator once per mode for the comparison chart.

All arithmetic is over `real`. The simulator is a pure function of its inputs, so identical inputs always give identical lists. In the model this holds by construction.

## Model

| member | source | states |
|---|---|---|
| `Simulation.SalaryAfter` | app.py:36-40 | the running salary after `n` passes of the loop; `SalaryAfterClosedForm` proves it is `start_salary * (1 + salary_growth_rate)^n` |
| `Simulation.Disposable` | app.py:45-51 | the year's disposable income is positive exactly when the monthly salary exceeds the monthly living cost, skill spend and shadow rent together |
| `Simulation.ExtraSavings` | app.py:51-54 | the extra savings are never negative; they are 0 exactly when the disposable income is not positive, and otherwise strictly less than it |
| `Simulation.Contribution` | app.py:43-57 | a year's contribution is at least twelve months of shadow rent, and equals it exactly when the disposable income is not positive |
| `Simulation.AssetsAfter` | app.py:35-60 | the running balance after `n` passes of the loop, starting at 0; `WealthRecurrence` gives its step, `AssetsNonNegative`, `AssetsStep` and `AssetsMonotone` its sign and order |
| `Simulation.PassiveIncome` | app.py:63-64 | a 4% yearly yield paid monthly: 300 months of the passive income give back the balance |
| `Simulation.Simulate` | app.py:31-66 | after `n` years all three lists have exactly `n` entries; 0 years give three empty lists |
| `Simulation.SimulateAppend` | app.py:38-64 | one more year appends exactly one entry to each list (the year's salary, balance and passive income) and leaves the earlier entries unchanged |
| `Simulation.CalculateWealth` | app.py:19-66 | the loop returns three lists of length `max(years, 0)` (`range(years)` is empty for `years <= 0`), and they equal the specification `Simulate` |
| `Simulation.SalaryAfterClosedForm` | app.py:36-40 | the running salary after `n` years is `start_salary * (1 + salary_growth_rate)^n` |
| `Simulation.SalaryPathClosedForm` | app.py:38-41 | `salary_path[i] == start_salary * (1 + salary_growth_rate)^(i+1)`: growth comes before the year's cash flow, so the first entry is already grown |
| `Simulation.PassiveTracksWealth` | app.py:60-64 | `passive_income_path[i] == wealth_path[i] * 0.04 / 12` for every `i` |
| `Simulation.FirstYearWealth` | app.py:35-61 | the balance starts at 0, so `wealth_path[0]` is the first year's contribution for the first (grown) salary |
| `Simulation.WealthRecurrence` | app.py:57-61 | for `i > 0`: `wealth_path[i] == wealth_path[i-1] * (1 + invest_return_rate) + contribution_i` |
| `Simulation.AssetsNonNegative` | app.py:54-60 | with a return rate of at least -100% and a non-negative shadow rent the balance is never negative |
| `Simulation.AssetsStep` | app.py:57-60 | with a non-negative return rate and shadow rent, one year never shrinks the balance |
| `Simulation.AssetsMonotone` | app.py:38-60 | under the same conditions the balance after `m` years is at most the balance after `n >= m` years |
| `Simulation.WealthNonDecreasing` | app.py:54-61 | with a non-negative return rate and shadow rent every wealth entry is `>= 0` and the list is non-decreasing |
| `Simulation.ZeroSalary` | app.py:36-40 | a zero starting salary stays zero, whatever the growth rate |
| `Simulation.ZeroAssets` | app.py:35-60 | with no salary and no shadow rent (and non-negative costs) nothing is ever contributed, so the balance stays 0 whatever the return rate |
| `Simulation.ZeroInputsGiveZeroPaths` | app.py:35-64 | with no salary, no shadow rent and non-negative costs, in particular with every amount and both rates 0, every entry of all three lists is 0 |
| `Simulation.ForcedSavingsExample` | app.py:45-60 | salary 50000, living cost 20000, shadow rent 15000, no skill spend, both rates 0, one year: the wealth list is `[198000]` |
| `Strategies.SelectedPreset` | app.py:98-128 | only modes B and D route the market rent into savings; only C and D spend on skills; every mode has a positive return rate of at most 6% and a positive salary growth of at most 5% |
| `Strategies.ComparisonPreset` | app.py:156-159 | the tuples of the four comparison calls; `PresetTablesAgree` proves it equals `SelectedPreset` for every mode and market rent |
| `Strategies.PresetInputs` | app.py:133-135 | every simulation is run with the given salary as starting salary and a living cost of 20000 |
| `Strategies.PresetTablesAgree` | app.py:156-159 | for every mode and market rent, the four comparison calls use the same (shadow rent, skill spend, return, growth) tuple as the selected-mode chain |
| `Strategies.ModeWealthNonDecreasing` | app.py:97-135 | for a non-negative market rent every mode's projected wealth is non-negative and non-decreasing |
| `Strategies.ShadowRentModesSaveRent` | app.py:106-128 | in modes B and D each year contributes at least twelve months of market rent |
| `Projection.AddSavings` | app.py:138 | the total-wealth list has the same length as the wealth list, and each entry exceeds the matching wealth entry by exactly the starting savings |
| `Projection.AddSavingsKeepsShape` | app.py:162-165 | shifting a non-negative, non-decreasing path by the savings keeps it non-decreasing and bounded below by the savings |
| `Projection.FinalFigures` | app.py:139-140 | the final figures exist exactly when both lists are non-empty; reading the last entry of an empty list is the `IndexError` case |
| `Projection.Project` | app.py:133-140 | the selected mode's total wealth is the simulated wealth shifted by the savings; final figures exist iff `years >= 1`; the final amount is the balance after `years` years plus the savings; `final_passive_monthly == total_wealth[-1] * 0.04 / 12` |
| `Projection.CompareModes` | app.py:156-165 | the chart has four columns, A to D, each that mode's simulated wealth shifted by the savings |
| `Projection.ChartMatchesSelection` | app.py:156-165 | the chart column of a mode equals the selected-mode projection's total wealth for that mode |
| `Projection.ChartColumnsNonDecreasing` | app.py:156-165 | for a non-negative market rent every chart column is non-decreasing and never below the starting savings |

`Simulation.Pow` and `Simulation.Horizon` are helpers: `x^n`, and the number of passes of `range(years)`. `Simulation.ScaleEqual`, `Simulation.ScaleNonNegative` and `Simulation.ScaleAtLeast` are facts of real arithmetic used in the proofs.

## Left out

- Page setup, CSS, sidebar widgets and the rendering of info boxes, metrics and charts (app.py:1-16, 70-95, 130, 143-176): these are user-interface calls into the Streamlit library. The sidebar values become plain parameters (`years`, `salary`, `savings`, `marketRent`).
- The radio selection of a mode: the source picks the mode by a substring test on the radio label, and any label that names none of A, B and C falls through to D. The model takes the mode as the closed datatype `Strategies.Mode`.
- The pandas DataFrame that holds the chart columns (app.py:161-166): it is a charting container. `Projection.CompareModes` returns the four columns as a sequence.
- Display formatting (app.py:146-150): `int(...)` truncation, thousands separators, and the salary-growth percentage, which divides by the salary.
- The `desc` strings and the action-plan text (app.py:104-128, 170-176): static text.
- IEEE floating point: the arithmetic is modelled over exact reals, so rounding and overflow are not represented.
- Input validation: the code performs no validation. The model follows the code: any amount is accepted, and `years <= 0` gives three empty lists. The widgets keep the horizon between 5 and 30 and the amounts non-negative.
