/** The calculator component: its form state, the result record, the
    validate-then-compute step, and the component object that stores the
    last result. */
module Calculator {
  import opened Types
  import opened Metrics
  import opened Advice

  /** The form after parsing. `None` is a field still empty; age is the
      integer the form's age parses to, weight and height are in the units
      the metric switch selects. */
  datatype FormData = FormData(
    age: Option<int>,
    weight: Option<real>,
    height: Option<real>,
    gender: Option<Gender>,
    activityLevel: Option<ActivityLevel>,
    fitnessGoal: Option<Goal>)

  /** The form as the component starts: every field empty. */
  const EmptyForm: FormData := FormData(None, None, None, None, None, None)

  /** The one check made before computing: the five required fields are
      filled in. The fitness goal is not among them. */
  predicate RequiredFieldsPresent(form: FormData)
  {
    && form.age.Some?
    && form.weight.Some?
    && form.height.Some?
    && form.gender.Some?
    && form.activityLevel.Some?
  }

  /** The measurements this model is defined on: weight and height, where
      entered, are positive. */
  predicate MeasurementsPositive(form: FormData)
  {
    && (form.weight.Some? ==> form.weight.value > 0.0)
    && (form.height.Some? ==> form.height.value > 0.0)
  }

  /** The record a successful calculation stores. */
  datatype CalculationResults = CalculationResults(
    bmi: real,
    bmiCategory: BmiCategory,
    bmr: real,
    tdee: real,
    macros: Macros,
    waterIntake: real,
    sleepRecommendation: string,
    walkingGoal: string,
    workoutSuggestions: seq<string>)

  /** The whole computation: `None` when a required field is empty, otherwise
      every metric from the normalised weight and height. */
  function Calculate(form: FormData, units: UnitSystem): (r: Option<CalculationResults>)
    requires MeasurementsPositive(form)
    ensures r.Some? <==> RequiredFieldsPresent(form)
    ensures r.Some? ==>
      var weightKg := ConvertToMetric(form.weight.value, Weight, units);
      var heightCm := ConvertToMetric(form.height.value, Height, units);
      var res := r.value;
      && res.bmi > 0.0
      && res.bmi == Bmi(weightKg, heightCm)
      && res.bmiCategory == Classify(res.bmi)
      && res.bmr == Bmr(weightKg, heightCm, form.age.value, form.gender.value)
      && res.tdee == res.bmr * ActivityMultiplier(form.activityLevel.value)
      && Energy(res.macros) == CalorieBudget(res.tdee, form.fitnessGoal)
      && res.macros == MacroSplit(weightKg, res.tdee, form.fitnessGoal)
      && res.waterIntake * 1000.0 == 33.0 * weightKg
      && res.sleepRecommendation == SleepRecommendation
      && res.walkingGoal == WalkingGoal
      && res.workoutSuggestions == WorkoutSuggestions(form.fitnessGoal)
      && |res.workoutSuggestions| == 4
  {
    if !RequiredFieldsPresent(form) then None
    else
      var weightKg := ConvertToMetric(form.weight.value, Weight, units);
      var heightCm := ConvertToMetric(form.height.value, Height, units);
      var bmi := Bmi(weightKg, heightCm);
      var bmr := Bmr(weightKg, heightCm, form.age.value, form.gender.value);
      var tdee := Tdee(bmr, form.activityLevel.value);
      Some(CalculationResults(
        bmi,
        Classify(bmi),
        bmr,
        tdee,
        MacroSplit(weightKg, tdee, form.fitnessGoal),
        WaterIntake(weightKg),
        SleepRecommendation,
        WalkingGoal,
        WorkoutSuggestions(form.fitnessGoal)))
  }

  /** The form with weight and height already converted to kg and cm. */
  function InMetric(form: FormData, units: UnitSystem): (f: FormData)
    requires MeasurementsPositive(form)
    ensures MeasurementsPositive(f)
    ensures RequiredFieldsPresent(f) <==> RequiredFieldsPresent(form)
  {
    form.(
      weight := if form.weight.Some? then Some(ConvertToMetric(form.weight.value, Weight, units)) else None,
      height := if form.height.Some? then Some(ConvertToMetric(form.height.value, Height, units)) else None)
  }

  /** Entering imperial values gives the same results as entering their
      metric equivalents with the switch on. */
  lemma UnitSystemsAgree(form: FormData, units: UnitSystem)
    requires MeasurementsPositive(form)
    ensures Calculate(form, units) == Calculate(InMetric(form, units), Metric)
  {
  }

  /** The fitness goal is optional; it changes only the macros and the workout list. */
  lemma GoalAffectsOnlyMacrosAndWorkouts(form: FormData, units: UnitSystem, goal: Option<Goal>)
    requires MeasurementsPositive(form)
    ensures var a, b := Calculate(form, units), Calculate(form.(fitnessGoal := goal), units);
      && (a.Some? <==> b.Some?)
      && (a.Some? ==>
            a.value.(macros := b.value.macros, workoutSuggestions := b.value.workoutSuggestions) == b.value)
  {
  }

  /** 70 kg, 175 cm, 30 years, male, moderately active, maintenance. */
  lemma WorkedExample()
    ensures Calculate(FormData(Some(30), Some(70.0), Some(175.0), Some(Male), Some(ModeratelyActive), Some(Maintenance)), Metric)
         == Some(CalculationResults(
              160.0 / 7.0, NormalWeight, 1648.75, 2555.5625,
              Macros(126.0, 402.640625, 49.0), 2.31,
              SleepRecommendation, WalkingGoal, WorkoutSuggestions(Some(Maintenance))))
  {
    assert Bmi(70.0, 175.0) == 160.0 / 7.0;
    assert Bmr(70.0, 175.0, 30, Male) == 1648.75;
    assert Tdee(1648.75, ModeratelyActive) == 2555.5625;
    assert MacroSplit(70.0, 2555.5625, Some(Maintenance)) == Macros(126.0, 402.640625, 49.0);
  }

  /** The sleep and walking advice is the same for every successful calculation. */
  lemma ConstantAdviceIndependentOfInput(f1: FormData, u1: UnitSystem, f2: FormData, u2: UnitSystem)
    requires MeasurementsPositive(f1) && MeasurementsPositive(f2)
    requires RequiredFieldsPresent(f1) && RequiredFieldsPresent(f2)
    ensures Calculate(f1, u1).value.sleepRecommendation == Calculate(f2, u2).value.sleepRecommendation == "7-9 hours per night"
    ensures Calculate(f1, u1).value.walkingGoal == Calculate(f2, u2).value.walkingGoal == "10,000 steps (approximately 8 kilometers)"
  {
  }

  /** One edit of a single form field, already parsed. */
  datatype FieldInput =
    | AgeInput(age: Option<int>)
    | WeightInput(weight: Option<real>)
    | HeightInput(height: Option<real>)
    | GenderInput(gender: Gender)
    | ActivityLevelInput(level: ActivityLevel)
    | FitnessGoalInput(goal: Goal)

  /** The calculator component: the metric switch, the form and the last
      result shown (`None` until a calculation succeeds). */
  class TotalFitCalculator {
    var units: UnitSystem
    var formData: FormData
    var results: Option<CalculationResults>

    constructor ()
      ensures units == Metric && formData == EmptyForm && results == None
    {
      units := Metric;
      formData := EmptyForm;
      results := None;
    }

    /** Flips the metric switch; the form's values are not converted. */
    method SetUseMetric(useMetric: bool)
      modifies this`units
      ensures units == (if useMetric then Metric else Imperial)
    {
      units := if useMetric then Metric else Imperial;
    }

    /** Replaces one field of the form and leaves the others as they were. */
    method HandleInputChange(input: FieldInput)
      modifies this`formData
      ensures match input
        case AgeInput(v) => formData == old(formData).(age := v)
        case WeightInput(v) => formData == old(formData).(weight := v)
        case HeightInput(v) => formData == old(formData).(height := v)
        case GenderInput(v) => formData == old(formData).(gender := Some(v))
        case ActivityLevelInput(v) => formData == old(formData).(activityLevel := Some(v))
        case FitnessGoalInput(v) => formData == old(formData).(fitnessGoal := Some(v))
    {
      match input
      case AgeInput(v) => formData := formData.(age := v);
      case WeightInput(v) => formData := formData.(weight := v);
      case HeightInput(v) => formData := formData.(height := v);
      case GenderInput(v) => formData := formData.(gender := Some(v));
      case ActivityLevelInput(v) => formData := formData.(activityLevel := Some(v));
      case FitnessGoalInput(v) => formData := formData.(fitnessGoal := Some(v));
    }

    /** Validates the form, then computes every metric in order and stores
        the complete record at once. With a required field empty nothing is
        computed and the previous result stays. */
    method CalculateResults()
      requires MeasurementsPositive(formData)
      modifies this`results
      ensures RequiredFieldsPresent(formData) ==> results == Calculate(formData, units)
      ensures !RequiredFieldsPresent(formData) ==> results == old(results)
    {
      if !RequiredFieldsPresent(formData) {
        return;
      }
      var weightKg := ConvertToMetric(formData.weight.value, Weight, units);
      var heightCm := ConvertToMetric(formData.height.value, Height, units);
      var bmi := Bmi(weightKg, heightCm);
      var bmiCategory := Classify(bmi);
      var bmr := Bmr(weightKg, heightCm, formData.age.value, formData.gender.value);
      var tdee := Tdee(bmr, formData.activityLevel.value);
      var macros := MacroSplit(weightKg, tdee, formData.fitnessGoal);
      var waterIntake := WaterIntake(weightKg);
      var workoutSuggestions := WorkoutSuggestions(formData.fitnessGoal);
      results := Some(CalculationResults(
        bmi, bmiCategory, bmr, tdee, macros, waterIntake,
        SleepRecommendation, WalkingGoal, workoutSuggestions));
    }
  }

  /** Calculating twice without editing the form stores the same result as calculating once. */
  method CalculateTwice(c: TotalFitCalculator)
    requires MeasurementsPositive(c.formData)
    modifies c`results
    ensures c.formData == old(c.formData) && c.units == old(c.units)
    ensures c.results == (if RequiredFieldsPresent(c.formData) then Calculate(c.formData, c.units) else old(c.results))
  {
    c.CalculateResults();
    ghost var first := c.results;
    c.CalculateResults();
    assert c.results == first;
  }
}
