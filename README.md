# BMR & TDEE calculator — Dafny model

This project models the computation core of the BMR & TDEE calculator widget
(`src/components/BmrTdeeCalculator.tsx`):

- the Mifflin–St Jeor basal metabolic rate (`mifflinStJeor`): 10·weight +
  6.25·height − 5·age, plus 5 for a man or minus 161 for a woman;
- the memoised derivation of the displayed figures: BMR rounded, TDEE as the
  rounded BMR times the activity multiplier (1.2, 1.375, 1.55, 1.725, 1.9)
  rounded again, cut = round(0.8·TDEE), bulk = round(1.15·TDEE),
  maintain = TDEE, and the macro split of the maintain figure;
- the macro split (`macrosForCalories`): protein round(1.8·weight) g, fat
  round(0.25·calories / 9) g, carbohydrate round(max(0, calories −
  (4·protein + 0.25·calories)) / 4) g.

The code is pure, so the model is pure: datatypes for the form's input and the
derived figures, functions for each step, and lemmas for the properties.
Numbers are exact Dafny `real`s. `Math.round` is `(x + 0.5).Floor`. This is the
ECMA-262 rule: the closest integer, with a tie going toward +∞. The lemma
`JsMath.RoundIsMathRound` proves that the two definitions agree. `Math.max` is
an ordinary maximum.

Files: `js_math.dfy` (module `JsMath`: `Math.round`, `Math.max`) and
`bmr_tdee.dfy` (module `BmrTdee`: the calculator).

Behaviour of the code worth knowing, each proved by a lemma:

- Nothing guards against zero or negative age, height or weight. Such inputs
  flow through the formulas (`BmrTdee.NonPositiveInputsAreNotGuarded`).
- The fat share `0.25·calories` is neither rounded nor clamped. Protein and
  fat grams are not clamped either, so fat grams go negative for a negative
  budget (`BmrTdee.NonPositiveInputsAreNotGuarded`).
- cut < maintain < bulk holds strictly only from TDEE 4 on
  (`BmrTdee.TargetsTieExactly`, `BmrTdee.TargetsTieBelowFour`).
- `Math.round` sends halves toward +∞, so round(−2.5) = −2 and
  round(3139.5) = 3140 (`JsMath.RoundIsMathRound`, `BmrTdee.BulkHalfRoundsUp`).

`BmrTdee.MifflinStJeor` (src/components/BmrTdeeCalculator.tsx:63-76) carries
no contract of its own, since any contract would only repeat its formula. It
is characterised by `BmrTdee.BmrAffine` (the slopes 10, 6.25 and −5) and
`BmrTdee.MaleMinusFemale` (the 166 kcal sex offset), and its rounding by
`BmrTdee.Derived`.

## Model

| member | source | states |
|---|---|---|
| `JsMath.Round` | src/components/BmrTdeeCalculator.tsx:95-100 | the result is the integer r with r − ½ ≤ x < r + ½ |
| `JsMath.RoundIsMathRound` | src/components/BmrTdeeCalculator.tsx:95-100 | an integer is as near to x as any other integer, and the larger of two equally near ones, exactly when it is `Round(x)` |
| `JsMath.RoundUnique` | src/components/BmrTdeeCalculator.tsx:95-100 | any integer n with n − ½ ≤ x < n + ½ is `Round(x)` |
| `JsMath.RoundIsNearest` | src/components/BmrTdeeCalculator.tsx:95-100 | no integer is nearer to x than `Round(x)`; on a tie `Round(x)` is the larger |
| `JsMath.RoundOfInt` | src/components/BmrTdeeCalculator.tsx:95-98 | rounding an integer returns it unchanged |
| `JsMath.RoundMonotone` | src/components/BmrTdeeCalculator.tsx:95-100 | x ≤ y implies round(x) ≤ round(y) |
| `JsMath.Max` | src/components/BmrTdeeCalculator.tsx:82 | the result is one of the two arguments and at least both |
| `BmrTdee.Multiplier` | src/components/BmrTdeeCalculator.tsx:51-57 | every multiplier lies between 1.2 and 1.9 |
| `BmrTdee.MultiplierStrictlyIncreasing` | src/components/BmrTdeeCalculator.tsx:51-57 | the multipliers strictly increase from sedentary to extra active |
| `BmrTdee.MaleMinusFemale` | src/components/BmrTdeeCalculator.tsx:74-75 | for equal weight, height and age, male BMR minus female BMR is exactly 166 |
| `BmrTdee.RoundedMaleMinusFemale` | src/components/BmrTdeeCalculator.tsx:95-97 | the rounded BMRs of a man and a woman with otherwise equal inputs also differ by exactly 166 |
| `BmrTdee.BmrAffine` | src/components/BmrTdeeCalculator.tsx:74 | for either sex, each kg adds 10, each cm adds 6.25, each year subtracts 5 from the raw BMR |
| `BmrTdee.BmrMonotone` | src/components/BmrTdeeCalculator.tsx:95-97 | the rounded BMR does not fall as weight or height grows or age drops |
| `BmrTdee.Tdee` | src/components/BmrTdeeCalculator.tsx:98 | TDEE is the integer r with r − ½ ≤ bmr·multiplier < r + ½, for the already rounded BMR |
| `BmrTdee.TdeeMonotoneInActivity` | src/components/BmrTdeeCalculator.tsx:98 | for a non-negative rounded BMR, a more active level never gives a lower TDEE |
| `BmrTdee.TdeeMonotoneInBmr` | src/components/BmrTdeeCalculator.tsx:98 | with the activity fixed, a higher rounded BMR never gives a lower TDEE, whatever the sign |
| `BmrTdee.TargetsMonotone` | src/components/BmrTdeeCalculator.tsx:99-100 | a higher TDEE never gives a lower cut or bulk target |
| `BmrTdee.TdeeUsesRoundedBmr` | src/components/BmrTdeeCalculator.tsx:95-98 | TDEE scales the rounded BMR: for male, 30 y, 177 cm, 80.6 kg, extra active it is 3357, while scaling the raw BMR would give 3358 |
| `BmrTdee.TargetsFor` | src/components/BmrTdeeCalculator.tsx:99-101 | cut is the integer nearest 0.8·TDEE and bulk the integer nearest 1.15·TDEE, each within the window r − ½ ≤ value < r + ½; maintain equals TDEE; cut ≤ maintain ≤ bulk for TDEE ≥ 0, strictly from TDEE 4 on; the order reverses for TDEE ≤ 0 |
| `BmrTdee.TargetsTieExactly` | src/components/BmrTdeeCalculator.tsx:99-101 | for TDEE ≥ 0, cut equals TDEE iff TDEE ≤ 2, and bulk equals TDEE iff TDEE ≤ 3 |
| `BmrTdee.TargetsTieBelowFour` | src/components/BmrTdeeCalculator.tsx:99-101 | TDEE 1 gives cut = maintain = bulk = 1; TDEE 3 gives bulk = maintain = 3 |
| `BmrTdee.BulkHalfRoundsUp` | src/components/BmrTdeeCalculator.tsx:100 | TDEE 2730 gives the exact half 3139.5, and bulk rounds it up to 3140 |
| `BmrTdee.MacrosForCalories` | src/components/BmrTdeeCalculator.tsx:78-85 | protein grams are the integer nearest 1.8·weight; carbohydrate grams are never negative, for any weight and budget; fat grams are round(calories / 36); carbohydrate grams are round(3·calories/16 − protein) when 4·protein + calories/4 ≤ calories, and 0 otherwise |
| `BmrTdee.ProteinIgnoresCalories` | src/components/BmrTdeeCalculator.tsx:79 | protein grams depend on weight only, not on the calorie budget |
| `BmrTdee.MacroEnergyBalance` | src/components/BmrTdeeCalculator.tsx:78-85 | 4·protein + 9·fat + 4·carbs is never 6.5 kcal or more below the budget, and is within 6.5 kcal above it when carbohydrate is not clamped |
| `BmrTdee.MacrosMonotoneInCalories` | src/components/BmrTdeeCalculator.tsx:80-83 | a larger budget never gives fewer fat or carbohydrate grams |
| `BmrTdee.Derived` | src/components/BmrTdeeCalculator.tsx:94-108 | the BMR is the integer nearest the Mifflin–St Jeor value; TDEE comes from that rounded BMR; the targets are `TargetsFor(TDEE)`, so cut and bulk are the integers nearest 0.8·TDEE and 1.15·TDEE; maintain equals TDEE; cut ≤ maintain ≤ bulk when TDEE ≥ 0; the macros are those of the maintain figure and the input weight |
| `BmrTdee.PipelineMonotone` | src/components/BmrTdeeCalculator.tsx:94-101 | with sex and activity fixed, more weight or height or fewer years never lowers TDEE, cut or bulk |
| `BmrTdee.DefaultScenario` | src/components/BmrTdeeCalculator.tsx:88-107 | the initial form (male, 30 y, 176 cm, 80 kg, moderate) gives BMR 1755, TDEE 2720, cut 2176, maintain 2720, bulk 3128, and 144 g protein, 76 g fat, 366 g carbohydrate |
| `BmrTdee.NonPositiveInputsAreNotGuarded` | src/components/BmrTdeeCalculator.tsx:94-107 | age 0 with the other initial inputs gives BMR 1905; an all-zero female sedentary input gives BMR −161, TDEE −193, cut −154, bulk −222 and −5 g fat |

## Left out

- JSX rendering (cards, radio group, select, labels), the bar and pie charts,
  their colour table and data arrays: presentation and a charting library.
- `Intl.NumberFormat` number formatting: locale-dependent presentation.
- The React `useState`/`useMemo` machinery: the memo body is modelled as the
  plain function `BmrTdee.Derived` of an `Input` record.
- `Number(...)` conversion of the text fields, including the NaN it can
  produce: browser input handling.
- The activity label strings: presentation only.
- `src/app/page.tsx`: a layout wrapper with no logic.
- IEEE-754 doubles: the model computes with exact reals. Representation
  error, NaN, the infinities and −0 are not modelled.
- BmrTdee.TargetsFor: bulk is round(1.15·TDEE) over exact reals, which is not
  always what a double gives. The double nearest 1.15 is slightly below 1.15.
  For a TDEE ≡ 10 (mod 20) the exact product is a half, which the model
  rounds up. The double product can land just below that half, and then
  `Math.round` rounds down. Example: TDEE 2730 gives exactly 3139.5, so the
  model's bulk is 3140 (`BmrTdee.BulkHalfRoundsUp`). The double product is
  3139.4999999999995, so the code shows 3139.
