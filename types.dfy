/** The closed value sets the calculator's form works with.
    The form's selects and radio buttons emit only these values; an empty
    form field is `None`. */
module Types {

  /** A form field that may still be empty. */
  datatype Option<+T> = None | Some(value: T)

  /** The values of the gender select. */
  datatype Gender = Male | Female

  /** The keys of the activity-multiplier table, in the order the select lists them. */
  datatype ActivityLevel = Sedentary | LightlyActive | ModeratelyActive | VeryActive | ExtremelyActive
  {
    /** Position in the select, from least to most active. */
    function Rank(): (r: nat)
      ensures r < 5
      ensures this == Sedentary <==> r == 0
      ensures this == ExtremelyActive <==> r == 4
    {
      match this
      case Sedentary => 0
      case LightlyActive => 1
      case ModeratelyActive => 2
      case VeryActive => 3
      case ExtremelyActive => 4
    }
  }

  /** The values of the fitness-goal radio group. */
  datatype Goal = MuscleGain | WeightLoss | Maintenance

  /** The metric switch: on means the entered values are kg and cm. */
  datatype UnitSystem = Metric | Imperial

  /** Which measurement a value is, for unit conversion. */
  datatype Quantity = Weight | Height

  /** Distinct activity levels sit at distinct positions. */
  lemma RankInjective(a: ActivityLevel, b: ActivityLevel)
    ensures a.Rank() == b.Rank() <==> a == b
  {
  }
}
