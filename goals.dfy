/**
 * The user's GOAL field. The calculator and the profile page speak of
 * 'lose weight' / 'gain weight' / 'maintain weight'; the dashboard and the
 * registration form of 'weight_loss' / 'muscle_gain' / 'maintenance' /
 * 'endurance' / 'strength'. A Goal is the stored string read against both
 * vocabularies; every string that no component branches on is kept as Other.
 */
module Goals {

  datatype Goal =
    | LoseWeight      // 'lose weight'
    | GainWeight      // 'gain weight'
    | MaintainWeight  // 'maintain weight'
    | WeightLoss      // 'weight_loss'
    | MuscleGain      // 'muscle_gain'
    | Other(name: string)

  const KnownNames: set<string> := {"lose weight", "gain weight", "maintain weight", "weight_loss", "muscle_gain"}

  /** An Other goal never carries one of the names that has its own constructor. */
  predicate WellFormed(g: Goal) {
    g.Other? ==> g.name !in KnownNames
  }

  function Name(g: Goal): string {
    match g
    case LoseWeight => "lose weight"
    case GainWeight => "gain weight"
    case MaintainWeight => "maintain weight"
    case WeightLoss => "weight_loss"
    case MuscleGain => "muscle_gain"
    case Other(s) => s
  }

  function Parse(s: string): (g: Goal)
    ensures WellFormed(g)
    ensures g.Other? <==> s !in KnownNames
  {
    if s == "lose weight" then LoseWeight
    else if s == "gain weight" then GainWeight
    else if s == "maintain weight" then MaintainWeight
    else if s == "weight_loss" then WeightLoss
    else if s == "muscle_gain" then MuscleGain
    else Other(s)
  }

  /** Reading a stored goal loses nothing: the string comes back. */
  lemma NameOfParse(s: string)
    ensures Name(Parse(s)) == s
  {
  }

  /** Every well-formed goal is read back from its own name. */
  lemma ParseOfName(g: Goal)
    requires WellFormed(g)
    ensures Parse(Name(g)) == g
  {
  }
}
