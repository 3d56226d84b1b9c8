# TotalFit calculator — a Dafny model

This project models the fitness-metrics computation of the TotalFit calculator
component (`src/components/calculators/TotalFitCalculator.tsx`). The user fills in
age, weight, height, gender, activity level and an optional fitness goal, with
a switch for metric or imperial units. On "Calculate" the component first checks
that the five required fields are filled in. It then converts weight and height
to kg and cm and computes these values in order:

- BMI and its band;
- the Mifflin-St Jeor BMR;
- TDEE, from a fixed activity-multiplier table;
- a protein/fat/carbohydrate split chosen by goal;
- a water target;
- a workout list chosen by goal.

It then stores the whole result record at once.

Layout:

- `types.dfy` (module `Types`): the closed value sets the form uses (gender, activity level, goal, unit system), and `Option` for a field that is still empty.
- `metrics.dfy` (module `Metrics`): unit conversion, BMI and its category, BMR, TDEE, macro split and water target, all as pure functions over `real`, with lemmas.
- `advice.dfy` (module `Advice`): the workout lists by goal and the two constant recommendations.
- `calculator.dfy` (module `Calculator`): the parsed form, the result record, the whole computation `Calculate`, and the class `TotalFitCalculator`. The class holds the component's state: the metric switch, the form and the last result. Its `CalculateResults` method validates the form, computes and stores the result.

JavaScript numbers are modelled as exact reals, so the model's figures are the
exact values of the code's formulas, and identities such as the macro energy
balance hold exactly in the model (in the code's floating point they hold only
approximately). For 70 kg, 175 cm, 30 years, male, moderately active and
maintenance, the model gives these values (`Calculator.WorkedExample`):

- BMI 160/7;
- BMR 1648.75;
- TDEE 2555.5625;
- protein 126 g, fats 49 g, carbs 402.640625 g;
- water 2.31 L.

The model follows the code as written. In particular:

- On that input the BMR is 10·70 + 6.25·175 − 5·30 + 5 = 1648.75, and the carbs are (2555.5625 − 504 − 441) / 4 = 402.640625 g.
- The advisory strings are the code's: "7-9 hours per night" and "10,000 steps (approximately 8 kilometers)".
- Any gender other than `male` takes the −161 branch. No value is rejected.
- Validation only checks that the five required fields are non-empty. On failure the code shows one generic message, lists no fields, and leaves the previous result in place.

## Model

| member | source | states |
|---|---|---|
| `Metrics.ConvertToMetric` | src/components/calculators/TotalFitCalculator.tsx:58-61 | metric mode returns the value unchanged; the result is positive exactly when the input is, and zero exactly when the input is |
| `Metrics.ConvertRoundTrip` | src/components/calculators/TotalFitCalculator.tsx:58-61 | the conversion by 0.453592 kg/lb and 2.54 cm/in is undone exactly by dividing by the same constant, in both orders |
| `Metrics.ConvertPreservesOrder` | src/components/calculators/TotalFitCalculator.tsx:58-61 | v1 < v2 if and only if their converted values are in the same order, for both quantities and both unit systems |
| `Metrics.Bmr` | src/components/calculators/TotalFitCalculator.tsx:84-89 | the Mifflin-St Jeor formula, with `male` taking +5 and every other value −161; it has no contract of its own: `BmrSexGap`, `BmrSensitivities` and `WorkedExample` state what it computes |
| `Metrics.Bmi` | src/components/calculators/TotalFitCalculator.tsx:73-74 | BMI times the squared height in metres gives back the weight; BMI is positive for positive weight |
| `Metrics.Classify` | src/components/calculators/TotalFitCalculator.tsx:77-81 | each of the four bands holds exactly its half-open interval: < 18.5, [18.5, 25), [25, 30), ≥ 30 |
| `Metrics.ClassifyBoundaries` | src/components/calculators/TotalFitCalculator.tsx:78-81 | 18.5 is Normal weight, 25 is Overweight, 30 is Obese |
| `Metrics.ClassifyMonotone` | src/components/calculators/TotalFitCalculator.tsx:78-81 | a higher BMI never lands in a lighter band |
| `Metrics.BmiCategory.Label` | src/components/calculators/TotalFitCalculator.tsx:77-81 | the category string the code stores: "Underweight", "Normal weight", "Overweight" or "Obese"; never empty |
| `Metrics.LabelsDistinct` | src/components/calculators/TotalFitCalculator.tsx:77-81 | the four category strings are pairwise distinct |
| `Metrics.ClassifyByWeight` | src/components/calculators/TotalFitCalculator.tsx:73-81 | for a fixed height, each band is the weight range between the thresholds times the squared height in m² |
| `Metrics.BmiDecreasesWithHeight` | src/components/calculators/TotalFitCalculator.tsx:73-74 | for a fixed positive weight, a greater height gives a strictly lower BMI |
| `Metrics.BmrSexGap` | src/components/calculators/TotalFitCalculator.tsx:84-89 | for the same weight, height and age, male BMR minus non-male BMR is exactly 166 |
| `Metrics.BmrSensitivities` | src/components/calculators/TotalFitCalculator.tsx:84-89 | one more kg adds 10 kcal, one more cm adds 6.25 kcal, one more year removes 5 kcal, in either branch |
| `Metrics.ActivityMultiplier` | src/components/calculators/TotalFitCalculator.tsx:43-49 | every multiplier lies in [1.2, 1.9]; only sedentary has 1.2 and only extremely active has 1.9 |
| `Metrics.MultiplierStrictlyIncreasing` | src/components/calculators/TotalFitCalculator.tsx:43-49 | the multipliers rise strictly in the order the activity levels are listed |
| `Metrics.Tdee` | src/components/calculators/TotalFitCalculator.tsx:92 | for non-negative BMR, bmr ≤ tdee ≤ 1.9·bmr; for negative BMR, tdee < bmr |
| `Metrics.TdeeIncreasesWithActivity` | src/components/calculators/TotalFitCalculator.tsx:92 | with positive BMR, a more active level gives a strictly higher TDEE |
| `Metrics.MacroSplit` | src/components/calculators/TotalFitCalculator.tsx:95-117 | 4·protein + 9·fats + 4·carbs equals TDEE, or 0.8·TDEE for weight loss; carbs are negative exactly when protein plus fat kcal exceed that budget; for positive weight 0 < fats < protein |
| `Metrics.MacroGoalFallback` | src/components/calculators/TotalFitCalculator.tsx:111-116 | every goal other than muscle gain and weight loss, the empty goal included, gets the maintenance split of 1.8 g/kg protein and 0.7 g/kg fat |
| `Metrics.MacroGoalAmounts` | src/components/calculators/TotalFitCalculator.tsx:95-117 | protein and fat per kg by goal: 2.2 and 0.8 for muscle gain, 2.0 and 0.6 for weight loss, 1.8 and 0.7 for every other goal |
| `Metrics.MacroCarbsAbsorbBudget` | src/components/calculators/TotalFitCalculator.tsx:95-117 | protein and fat do not depend on TDEE; a change of TDEE moves the carbs by a quarter of the change in budget |
| `Metrics.WaterIntake` | src/components/calculators/TotalFitCalculator.tsx:120 | 33 mL of water per kg: liters·1000 = 33·weight; positive and below the weight for positive weight |
| `Advice.WorkoutSuggestions` | src/components/calculators/TotalFitCalculator.tsx:140-164 | every goal's list has exactly 4 entries, none empty |
| `Advice.WorkoutGoalFallback` | src/components/calculators/TotalFitCalculator.tsx:156-162 | every goal other than muscle gain and weight loss, the empty goal included, gets the maintenance list |
| `Advice.WorkoutPlansDistinct` | src/components/calculators/TotalFitCalculator.tsx:141-163 | the three branches give three different lists |
| `Calculator.RequiredFieldsPresent` | src/components/calculators/TotalFitCalculator.tsx:64 | the input check: age, weight, height, gender and activity level are all non-empty; the goal is not checked; its meaning is stated through `Calculate`, whose result exists exactly when it holds |
| `Calculator.Calculate` | src/components/calculators/TotalFitCalculator.tsx:63-135 | a result exists exactly when age, weight, height, gender and activity level are all filled in; the goal is not required. The result then has positive BMI in its band; the BMR of the converted measurements; tdee = bmr × multiplier; the goal's macro split computed from the converted weight and the TDEE; water of 33 mL/kg; the two constant recommendation strings; and the goal's 4-entry workout list |
| `Calculator.ConstantAdviceIndependentOfInput` | src/components/calculators/TotalFitCalculator.tsx:132-133 | every successful calculation stores the same sleep advice "7-9 hours per night" (`Advice.SleepRecommendation`) and walking goal "10,000 steps (approximately 8 kilometers)" (`Advice.WalkingGoal`), whatever the input |
| `Calculator.UnitSystemsAgree` | src/components/calculators/TotalFitCalculator.tsx:58-70 | entering imperial values gives the same result as entering their metric equivalents in metric mode |
| `Calculator.GoalAffectsOnlyMacrosAndWorkouts` | src/components/calculators/TotalFitCalculator.tsx:94-123 | changing the goal never changes whether a result exists, and only changes the macros and the workout list |
| `Calculator.WorkedExample` | src/components/calculators/TotalFitCalculator.tsx:63-135 | 70 kg, 175 cm, 30, male, moderately active, maintenance gives BMI 160/7 (Normal weight), BMR 1648.75, TDEE 2555.5625, 126 g protein, 402.640625 g carbs, 49 g fat, 2.31 L water |
| `Calculator.TotalFitCalculator.constructor` | src/components/calculators/TotalFitCalculator.tsx:30-41 | the component starts in metric mode with every form field empty and no result |
| `Calculator.TotalFitCalculator.SetUseMetric` | src/components/calculators/TotalFitCalculator.tsx:177-181 | the switch selects metric or imperial units and nothing else changes |
| `Calculator.TotalFitCalculator.HandleInputChange` | src/components/calculators/TotalFitCalculator.tsx:51-56 | one field of the form takes the new value and every other field keeps its value |
| `Calculator.TotalFitCalculator.CalculateResults` | src/components/calculators/TotalFitCalculator.tsx:63-138 | with the required fields present, the stored result becomes the complete record `Calculate` describes; otherwise the stored result stays as it was; nothing but the result changes |
| `Calculator.CalculateTwice` | src/components/calculators/TotalFitCalculator.tsx:63-138 | calculating twice on an unchanged form stores the same result as calculating once |

## Left out

- String parsing (`parseFloat`, `parseInt`) and JavaScript's NaN semantics: the form is modelled after parsing, each field either empty (`None`) or a number. Age is the integer the field parses to.
- IEEE-754 rounding: all arithmetic is exact over `real`, so the model's figures are the mathematically exact values of the formulas.
- Calculator.Calculate: requires weight and height, when entered, to be positive. The code computes with any number; a zero height would give an infinite BMI, which has no counterpart over the reals.
- Calculator.TotalFitCalculator.CalculateResults: carries the same precondition on the stored form, for the same reason.
- Gender, activity level and goal are the closed sets the form's select and radio controls produce. An activity level outside the five table keys cannot be entered, so the undefined multiplier it would give (NaN) is not modelled.
- The `timeframe` and `weightGoal` fields are collected but feed no calculation, so they are not part of the form model.
- The category is stored as a `BmiCategory` value whose `Label` is the string the code stores.
- Rendering, toasts (the error and success messages) and display rounding (`toFixed`, `Math.round`) are presentation and are not modelled.
- The route table, the workout-suggestion page, the dashboard statistics (database queries), the landing page and the layout are plumbing outside the calculation and are not part of this model.
