/** The four roll endpoints. Each draws a d100 roll, builds a roll-type label,
    announces the result and answers with an empty body. Here a handler is the
    announcement it hands to the chat bot; the roll and the acting user are
    parameters, and the path value is the target. */
module RollRoutes {
  import opened Text
  import opened RollOutcome
  import opened RollMessage

  /** "<STAT> Check": the stat name upper-cased, then " Check". */
  function StatRollType(statName: string): (r: string)
    ensures |r| == |statName| + 6 && r[|statName|..] == " Check"
    ensures forall i :: 0 <= i < |statName| ==> !IsLower(r[i])
    ensures forall i :: 0 <= i < |statName| && !IsLower(statName[i]) ==> r[i] == statName[i]
    ensures forall i :: 0 <= i < |statName| && IsLower(statName[i]) ==>
              IsUpper(r[i]) && r[i] as int == statName[i] as int - 32
  {
    ToUpper(statName) + " Check"
  }

  /** "<display name> Skill": the camel-case skill identifier split into words. */
  function SkillRollType(skillName: string): (r: string)
    ensures |r| >= 6 && r[|r| - 6..] == " Skill"
    ensures r[..|r| - 6] == SplitCamelCase(skillName)
    ensures RemoveInsertedSpaces(r[..|r| - 6]) == skillName
    ensures skillName != [] ==> |r| == |skillName| + CountUpper(skillName[1..]) + 6
  {
    var display := SplitCamelCase(skillName);
    SplitCamelCaseRoundTrip(skillName);
    assert (display + " Skill")[..|display|] == display;
    display + " Skill"
  }

  const SanityRollType: string := "Sanity Roll"
  const LuckRollType: string := "Luck Roll"

  /** POST /<stat_name>/<stat_value>: a check against a characteristic. */
  function StatRoll(user: string, statName: string, statValue: int, roll: int): (m: string)
    requires 1 <= roll <= 100 && statValue >= 0
    ensures ReadOutcome(m) == Some(Evaluate(roll, statValue))
    ensures OccursAt(m, StatRollType(statName), RollTypeAt(user))
  {
    MessageFields(user, StatRollType(statName), roll, statValue);
    FormatRollMessage(user, StatRollType(statName), roll, statValue)
  }

  /** POST /skill/<skill_name>/<skill_value>: a skill check. */
  function SkillRoll(user: string, skillName: string, skillValue: int, roll: int): (m: string)
    requires 1 <= roll <= 100 && skillValue >= 0
    ensures ReadOutcome(m) == Some(Evaluate(roll, skillValue))
    ensures OccursAt(m, SkillRollType(skillName), RollTypeAt(user))
  {
    MessageFields(user, SkillRollType(skillName), roll, skillValue);
    FormatRollMessage(user, SkillRollType(skillName), roll, skillValue)
  }

  /** POST /sanity_check/<sanity_value>: a roll against current sanity. */
  function SanityRoll(user: string, sanityValue: int, roll: int): (m: string)
    requires 1 <= roll <= 100 && sanityValue >= 0
    ensures ReadOutcome(m) == Some(Evaluate(roll, sanityValue))
    ensures OccursAt(m, SanityRollType, RollTypeAt(user))
  {
    MessageFields(user, SanityRollType, roll, sanityValue);
    FormatRollMessage(user, SanityRollType, roll, sanityValue)
  }

  /** POST /luck_roll/<luck_value>: a roll against current luck. */
  function LuckRoll(user: string, luckValue: int, roll: int): (m: string)
    requires 1 <= roll <= 100 && luckValue >= 0
    ensures ReadOutcome(m) == Some(Evaluate(roll, luckValue))
    ensures OccursAt(m, LuckRollType, RollTypeAt(user))
  {
    MessageFields(user, LuckRollType, roll, luckValue);
    FormatRollMessage(user, LuckRollType, roll, luckValue)
  }

  /** The template appends " Roll" to every roll type, so the sanity and luck
      announcements carry a doubled word on their second line. */
  lemma SanityAndLuckHeaders(user: string, value: int, roll: int)
    requires 1 <= roll <= 100 && value >= 0
    ensures OccursAt(SanityRoll(user, value, roll), "**Sanity Roll Roll**", |UserLine(user)| + 1)
    ensures OccursAt(LuckRoll(user, value, roll), "**Luck Roll Roll**", |UserLine(user)| + 1)
  {
    var o := Evaluate(roll, value);
    var sanity := Lines(user, SanityRollType, Decimal(roll), Decimal(value), Label(o));
    var luck := Lines(user, LuckRollType, Decimal(roll), Decimal(value), Label(o));
    LineInJoin(sanity, 1);
    LineStarts(sanity);
    LineInJoin(luck, 1);
    LineStarts(luck);
  }

  /** A stat check shows the stat in capitals: "dex" becomes "DEX Check". */
  lemma StatRollTypeExample()
    ensures StatRollType("dex") == "DEX Check"
  {
  }
}
