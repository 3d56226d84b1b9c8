/** The arithmetic of the calculator: unit conversion, BMI and its category,
    BMR (Mifflin-St Jeor), TDEE, the macro split and the water target.
    JavaScript numbers are modelled as exact reals. */
module Metrics {
  import opened Types

  // ---------------------------------------------------------------------------
  // Unit conversion
  // ---------------------------------------------------------------------------

  /** Kilograms in one pound. */
  const KgPerPound: real := 0.453592
  /** Centimetres in one inch. */
  const CmPerInch: real := 2.54

  /** Normalises an entered weight (lb or kg) or height (in or cm) to kg or cm. */
  function ConvertToMetric(value: real, kind: Quantity, units: UnitSystem): (r: real)
    ensures units == Metric ==> r == value
    ensures value > 0.0 <==> r > 0.0
    ensures value == 0.0 <==> r == 0.0
  {
    if units == Metric then value
    else if kind == Weight then value * KgPerPound
    else value * CmPerInch
  }

  /** The inverse conversion, from kg or cm back to the entered unit. */
  function ConvertFromMetric(value: real, kind: Quantity, units: UnitSystem): real
  {
    if units == Metric then value
    else if kind == Weight then value / KgPerPound
    else value / CmPerInch
  }

  /** Converting to metric and back, or back and then to metric, loses nothing. */
  lemma ConvertRoundTrip(value: real, kind: Quantity, units: UnitSystem)
    ensures ConvertFromMetric(ConvertToMetric(value, kind, units), kind, units) == value
    ensures ConvertToMetric(ConvertFromMetric(value, kind, units), kind, units) == value
  {
  }

  /** Conversion preserves the order of measurements. */
  lemma ConvertPreservesOrder(v1: real, v2: real, kind: Quantity, units: UnitSystem)
    ensures v1 < v2 <==> ConvertToMetric(v1, kind, units) < ConvertToMetric(v2, kind, units)
  {
  }

  // ---------------------------------------------------------------------------
  // BMI
  // ---------------------------------------------------------------------------

  /** A product of two reals. Kept as a function so that the solver sees the
      square of the height as one term with a known sign. */
  function Product(a: real, b: real): (p: real)
    ensures a > 0.0 && b > 0.0 ==> p > 0.0
  {
    a * b
  }

  /** The square of a height given in cm, in m². */
  function HeightSquaredM2(heightCm: real): (s: real)
    ensures heightCm > 0.0 ==> s > 0.0
  {
    var heightM := heightCm / 100.0;
    Product(heightM, heightM)
  }

  /** Body-mass index: weight over the square of the height in metres. */
  function Bmi(weightKg: real, heightCm: real): (bmi: real)
    requires heightCm > 0.0
    ensures bmi * HeightSquaredM2(heightCm) == weightKg
    ensures weightKg > 0.0 ==> bmi > 0.0
  {
    weightKg / HeightSquaredM2(heightCm)
  }

  /** The four BMI bands, each with its label. */
  datatype BmiCategory = Underweight | NormalWeight | Overweight | Obese
  {
    function Label(): (s: string)
      ensures |s| > 0
    {
      match this
      case Underweight => "Underweight"
      case NormalWeight => "Normal weight"
      case Overweight => "Overweight"
      case Obese => "Obese"
    }

    /** Position of the band from lightest to heaviest. */
    function Severity(): (n: nat)
      ensures n < 4
    {
      match this
      case Underweight => 0
      case NormalWeight => 1
      case Overweight => 2
      case Obese => 3
    }
  }

  /** The band of a BMI value; every band includes its lower bound. */
  function Classify(bmi: real): (c: BmiCategory)
    ensures c == Underweight <==> bmi < 18.5
    ensures c == NormalWeight <==> 18.5 <= bmi < 25.0
    ensures c == Overweight <==> 25.0 <= bmi < 30.0
    ensures c == Obese <==> 30.0 <= bmi
  {
    if bmi < 18.5 then Underweight
    else if bmi < 25.0 then NormalWeight
    else if bmi < 30.0 then Overweight
    else Obese
  }

  /** The boundaries themselves fall into the upper band. */
  lemma ClassifyBoundaries()
    ensures Classify(18.5) == NormalWeight
    ensures Classify(25.0) == Overweight
    ensures Classify(30.0) == Obese
  {
  }

  /** A higher BMI never lands in a lighter band. */
  lemma ClassifyMonotone(b1: real, b2: real)
    requires b1 <= b2
    ensures Classify(b1).Severity() <= Classify(b2).Severity()
  {
  }

  /** The four labels are distinct, so the stored string determines the band. */
  lemma LabelsDistinct(c1: BmiCategory, c2: BmiCategory)
    ensures c1.Label() == c2.Label() <==> c1 == c2
  {
  }

  /** For a fixed height, the bands are weight ranges: the BMI thresholds
      times the squared height in metres. */
  lemma ClassifyByWeight(weightKg: real, heightCm: real)
    requires heightCm > 0.0
    ensures var s := HeightSquaredM2(heightCm);
      && (Classify(Bmi(weightKg, heightCm)) == Underweight <==> weightKg < 18.5 * s)
      && (Classify(Bmi(weightKg, heightCm)) == NormalWeight <==> 18.5 * s <= weightKg < 25.0 * s)
      && (Classify(Bmi(weightKg, heightCm)) == Overweight <==> 25.0 * s <= weightKg < 30.0 * s)
      && (Classify(Bmi(weightKg, heightCm)) == Obese <==> 30.0 * s <= weightKg)
  {
    var s := HeightSquaredM2(heightCm);
    var bmi := Bmi(weightKg, heightCm);
    ScaleThreshold(bmi, s, weightKg, 18.5);
    ScaleThreshold(bmi, s, weightKg, 25.0);
    ScaleThreshold(bmi, s, weightKg, 30.0);
  }

  /** If bmi * s == w with s positive, comparing bmi with t is comparing w with t * s. */
  lemma ScaleThreshold(bmi: real, s: real, w: real, t: real)
    requires s > 0.0 && bmi * s == w
    ensures bmi < t <==> w < t * s
  {
  }

  /** The square grows with the height. */
  lemma HeightSquaredIncreasing(h1: real, h2: real)
    requires 0.0 < h1 < h2
    ensures HeightSquaredM2(h1) < HeightSquaredM2(h2)
  {
  }

  /** For a fixed positive weight, a taller person has a lower BMI. */
  lemma BmiDecreasesWithHeight(weightKg: real, h1: real, h2: real)
    requires weightKg > 0.0 && 0.0 < h1 < h2
    ensures Bmi(weightKg, h2) < Bmi(weightKg, h1)
  {
    var s1, s2 := HeightSquaredM2(h1), HeightSquaredM2(h2);
    HeightSquaredIncreasing(h1, h2);
    var b1, b2 := Bmi(weightKg, h1), Bmi(weightKg, h2);
    assert b1 * s1 == b2 * s2;
  }

  // ---------------------------------------------------------------------------
  // BMR (Mifflin-St Jeor)
  // ---------------------------------------------------------------------------

  /** Basal metabolic rate in kcal/day: +5 for male, -161 for every other value. */
  function Bmr(weightKg: real, heightCm: real, age: int, gender: Gender): (bmr: real)
  {
    if gender == Male then
      (10.0 * weightKg) + (6.25 * heightCm) - (5.0 * age as real) + 5.0
    else
      (10.0 * weightKg) + (6.25 * heightCm) - (5.0 * age as real) - 161.0
  }

  /** For identical measurements and age, the male branch is exactly 166 kcal above the other. */
  lemma BmrSexGap(weightKg: real, heightCm: real, age: int)
    ensures Bmr(weightKg, heightCm, age, Male) - Bmr(weightKg, heightCm, age, Female) == 166.0
  {
  }

  /** Each kilogram adds 10 kcal, each centimetre 6.25 kcal, each year removes 5 kcal. */
  lemma BmrSensitivities(weightKg: real, heightCm: real, age: int, gender: Gender)
    ensures Bmr(weightKg + 1.0, heightCm, age, gender) == Bmr(weightKg, heightCm, age, gender) + 10.0
    ensures Bmr(weightKg, heightCm + 1.0, age, gender) == Bmr(weightKg, heightCm, age, gender) + 6.25
    ensures Bmr(weightKg, heightCm, age + 1, gender) == Bmr(weightKg, heightCm, age, gender) - 5.0
  {
  }

  // ---------------------------------------------------------------------------
  // TDEE
  // ---------------------------------------------------------------------------

  /** The fixed activity-multiplier table. */
  function ActivityMultiplier(level: ActivityLevel): (m: real)
    ensures 1.2 <= m <= 1.9
    ensures m == 1.2 <==> level == Sedentary
    ensures m == 1.9 <==> level == ExtremelyActive
  {
    match level
    case Sedentary => 1.2
    case LightlyActive => 1.375
    case ModeratelyActive => 1.55
    case VeryActive => 1.725
    case ExtremelyActive => 1.9
  }

  /** The multipliers rise strictly with the activity level. */
  lemma MultiplierStrictlyIncreasing(a: ActivityLevel, b: ActivityLevel)
    requires a.Rank() < b.Rank()
    ensures ActivityMultiplier(a) < ActivityMultiplier(b)
  {
  }

  /** Total daily energy expenditure: BMR scaled by the activity multiplier. */
  function Tdee(bmr: real, level: ActivityLevel): (tdee: real)
    ensures bmr >= 0.0 ==> bmr <= tdee
    ensures bmr >= 0.0 ==> tdee <= 1.9 * bmr
    ensures bmr < 0.0 ==> tdee < bmr
  {
    bmr * ActivityMultiplier(level)
  }

  /** With a positive BMR, a more active level always yields a higher TDEE. */
  lemma TdeeIncreasesWithActivity(bmr: real, a: ActivityLevel, b: ActivityLevel)
    requires bmr > 0.0
    requires a.Rank() < b.Rank()
    ensures Tdee(bmr, a) < Tdee(bmr, b)
  {
  }

  // ---------------------------------------------------------------------------
  // Macro split
  // ---------------------------------------------------------------------------

  /** Daily grams of each macronutrient. Carbs may be negative: nothing clamps them. */
  datatype Macros = Macros(protein: real, carbs: real, fats: real)

  /** The kcal the three amounts provide: 4 per gram of protein or carbs, 9 per gram of fat. */
  function Energy(m: Macros): real
  {
    4.0 * m.protein + 9.0 * m.fats + 4.0 * m.carbs
  }

  /** The kcal the split distributes: TDEE, less 20% for weight loss. */
  function CalorieBudget(tdee: real, goal: Option<Goal>): real
  {
    if goal == Some(WeightLoss) then 0.8 * tdee else tdee
  }

  /** Protein and fat per kilogram by goal; carbs take the rest of the budget.
      Any goal other than muscle gain or weight loss, the empty one included,
      takes the maintenance branch. */
  function MacroSplit(weightKg: real, tdee: real, goal: Option<Goal>): (m: Macros)
    ensures Energy(m) == CalorieBudget(tdee, goal)
    ensures m.carbs < 0.0 <==> 4.0 * m.protein + 9.0 * m.fats > CalorieBudget(tdee, goal)
    ensures weightKg > 0.0 ==> 0.0 < m.fats < m.protein
  {
    match goal
    case Some(MuscleGain) =>
      Macros(weightKg * 2.2,
             (tdee - ((weightKg * 2.2 * 4.0) + (weightKg * 0.8 * 9.0))) / 4.0,
             weightKg * 0.8)
    case Some(WeightLoss) =>
      Macros(weightKg * 2.0,
             (tdee * 0.8 - ((weightKg * 2.0 * 4.0) + (weightKg * 0.6 * 9.0))) / 4.0,
             weightKg * 0.6)
    case _ =>
      Macros(weightKg * 1.8,
             (tdee - ((weightKg * 1.8 * 4.0) + (weightKg * 0.7 * 9.0))) / 4.0,
             weightKg * 0.7)
  }

  /** Every goal except muscle gain and weight loss gets the maintenance split:
      1.8 g/kg protein and 0.7 g/kg fat. */
  lemma MacroGoalFallback(weightKg: real, tdee: real, goal: Option<Goal>)
    requires goal != Some(MuscleGain) && goal != Some(WeightLoss)
    ensures MacroSplit(weightKg, tdee, goal) == MacroSplit(weightKg, tdee, Some(Maintenance))
    ensures MacroSplit(weightKg, tdee, goal).protein == 1.8 * weightKg
    ensures MacroSplit(weightKg, tdee, goal).fats == 0.7 * weightKg
  {
  }

  /** Protein and fat per kilogram for each goal: 2.2 and 0.8 for muscle gain,
      2.0 and 0.6 for weight loss, 1.8 and 0.7 otherwise. */
  lemma MacroGoalAmounts(weightKg: real, tdee: real, goal: Option<Goal>)
    ensures var m := MacroSplit(weightKg, tdee, goal);
      match goal
      case Some(MuscleGain) => m.protein == 2.2 * weightKg && m.fats == 0.8 * weightKg
      case Some(WeightLoss) => m.protein == 2.0 * weightKg && m.fats == 0.6 * weightKg
      case _ => m.protein == 1.8 * weightKg && m.fats == 0.7 * weightKg
  {
  }

  /** Protein and fat depend on weight only; a change of TDEE moves only the carbs,
      by a quarter of the change in budget. */
  lemma MacroCarbsAbsorbBudget(weightKg: real, t1: real, t2: real, goal: Option<Goal>)
    ensures MacroSplit(weightKg, t1, goal).protein == MacroSplit(weightKg, t2, goal).protein
    ensures MacroSplit(weightKg, t1, goal).fats == MacroSplit(weightKg, t2, goal).fats
    ensures MacroSplit(weightKg, t2, goal).carbs - MacroSplit(weightKg, t1, goal).carbs
            == (CalorieBudget(t2, goal) - CalorieBudget(t1, goal)) / 4.0
  {
  }

  // ---------------------------------------------------------------------------
  // Water
  // ---------------------------------------------------------------------------

  /** Daily water target in litres: 33 mL per kilogram, unclamped. */
  function WaterIntake(weightKg: real): (liters: real)
    ensures liters * 1000.0 == 33.0 * weightKg
    ensures weightKg > 0.0 ==> 0.0 < liters < weightKg
  {
    weightKg * 0.033
  }
}
