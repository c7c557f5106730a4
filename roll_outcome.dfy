/** Call of Cthulhu 7th-edition resolution of a d100 check: a roll in [1, 100]
    against a non-negative target (a skill, stat, sanity or luck value). */
module RollOutcome {

  datatype Outcome =
    | CriticalSuccess
    | ExtremeSuccess
    | HardSuccess
    | RegularSuccess
    | Fumble
    | Failure

  predicate IsSuccess(o: Outcome) {
    o.CriticalSuccess? || o.ExtremeSuccess? || o.HardSuccess? || o.RegularSuccess?
  }

  /** Quality order: Critical > Extreme > Hard > Regular > Failure > Fumble. */
  function Rank(o: Outcome): nat {
    match o
    case CriticalSuccess => 5
    case ExtremeSuccess => 4
    case HardSuccess => 3
    case RegularSuccess => 2
    case Failure => 1
    case Fumble => 0
  }

  /** The success branch is taken exactly when the roll does not exceed the
      target; inside it a 1 is critical, then a fifth of the target (floored)
      bounds an extreme and a half a hard success. On the failure side a
      target below 50 fumbles on 96-100, a target of 50 or more only on 100.
      Python's `//` and Dafny's `/` agree here because target >= 0. */
  function Evaluate(roll: int, target: int): (o: Outcome)
    requires 1 <= roll <= 100
    requires target >= 0
    ensures IsSuccess(o) <==> roll <= target
    ensures o.Fumble? ==> roll >= 96
  {
    if roll <= target then
      if roll == 1 then CriticalSuccess
      else if roll <= target / 5 then ExtremeSuccess
      else if roll <= target / 2 then HardSuccess
      else RegularSuccess
    else
      if (target < 50 && roll >= 96) || (target >= 50 && roll == 100) then Fumble
      else Failure
  }

  /** A roll of 1 is critical for every positive target. */
  lemma CriticalExactly(roll: int, target: int)
    requires 1 <= roll <= 100 && target >= 0
    ensures Evaluate(roll, target) == CriticalSuccess <==> roll == 1 && target >= 1
  {
  }

  /** With a target of 0 the success branch is unreachable: a roll of 1 is an
      ordinary Failure, not a Critical. */
  lemma ZeroTargetNeverSucceeds(roll: int)
    requires 1 <= roll <= 100
    ensures !IsSuccess(Evaluate(roll, 0))
    ensures Evaluate(1, 0) == Failure
  {
  }

  lemma ExtremeExactly(roll: int, target: int)
    requires 1 <= roll <= 100 && target >= 0
    ensures Evaluate(roll, target) == ExtremeSuccess <==> 2 <= roll <= target / 5
  {
  }

  lemma HardExactly(roll: int, target: int)
    requires 1 <= roll <= 100 && target >= 0
    ensures Evaluate(roll, target) == HardSuccess <==>
              roll != 1 && target / 5 < roll <= target / 2
  {
  }

  lemma RegularExactly(roll: int, target: int)
    requires 1 <= roll <= 100 && target >= 0
    ensures Evaluate(roll, target) == RegularSuccess <==>
              roll != 1 && target / 2 < roll <= target
  {
  }

  lemma FumbleExactly(roll: int, target: int)
    requires 1 <= roll <= 100 && target >= 0
    ensures Evaluate(roll, target) == Fumble <==>
              roll > target && ((target < 50 && roll >= 96) || (target >= 50 && roll == 100))
  {
  }

  lemma FailureExactly(roll: int, target: int)
    requires 1 <= roll <= 100 && target >= 0
    ensures Evaluate(roll, target) == Failure <==>
              roll > target && !((target < 50 && roll >= 96) || (target >= 50 && roll == 100))
  {
  }

  /** A target of 100 or more can never fumble (nor fail). */
  lemma NoFumbleFromHundred(roll: int, target: int)
    requires 1 <= roll <= 100 && target >= 100
    ensures IsSuccess(Evaluate(roll, target))
  {
  }

  /** For a fixed target, a lower roll never gives a worse outcome. */
  lemma Monotone(better: int, worse: int, target: int)
    requires 1 <= better <= worse <= 100 && target >= 0
    ensures Rank(Evaluate(better, target)) >= Rank(Evaluate(worse, target))
  {
  }

  /** A higher target never gives a worse outcome for the same roll. */
  lemma MonotoneInTarget(roll: int, low: int, high: int)
    requires 1 <= roll <= 100 && 0 <= low <= high
    ensures Rank(Evaluate(roll, high)) >= Rank(Evaluate(roll, low))
  {
  }

  lemma Scenarios()
    ensures Evaluate(1, 40) == CriticalSuccess
    ensures Evaluate(8, 40) == ExtremeSuccess
    ensures Evaluate(9, 40) == HardSuccess
    ensures Evaluate(35, 40) == RegularSuccess
    ensures Evaluate(98, 40) == Fumble
    ensures Evaluate(60, 40) == Failure
    ensures Evaluate(96, 49) == Fumble && Evaluate(95, 49) == Failure
    ensures Evaluate(100, 50) == Fumble && Evaluate(99, 50) == Failure
  {
  }
}
