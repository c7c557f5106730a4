/** The five-line chat announcement of a roll, in the destination's markdown:

      **<user> rolled a ---**
      **<roll type> Roll**
      Rolled: `<roll>`
      Target: `<target>`
      Outcome: **<label>**

    The acting user's name is a parameter here (the web session's current user
    in the application). */
module RollMessage {
  import opened Text
  import opened RollOutcome

  datatype Option<T> = None | Some(value: T)

  /** The label each outcome is announced with. */
  function Label(o: Outcome): (s: string)
    ensures |s| > 0 && NoNewline(s)
  {
    match o
    case CriticalSuccess => "Critical Success"
    case ExtremeSuccess => "Extreme Success"
    case HardSuccess => "Hard Success"
    case RegularSuccess => "Regular Success"
    case Fumble => "Fumble"
    case Failure => "Failure"
  }

  /** No two outcomes share a label. */
  lemma LabelInjective(a: Outcome, b: Outcome)
    ensures Label(a) == Label(b) ==> a == b
  {
    if Label(a) == Label(b) {
      assert |Label(a)| == |Label(b)|;
      assert Label(a)[0] == Label(b)[0];
    }
  }

  // ---------------------------------------------------------------------------
  // Lines joined by line breaks.

  /** The lines of `ls` separated by single line breaks. */
  function JoinLines(ls: seq<string>): string
    requires |ls| >= 1
    decreases |ls|
  {
    if |ls| == 1 then ls[0] else ls[0] + ("\n" + JoinLines(ls[1..]))
  }

  /** Where line `i` of `ls` starts in JoinLines(ls). */
  function LineStart(ls: seq<string>, i: nat): nat
    requires i < |ls|
    decreases i
  {
    if i == 0 then 0 else |ls[0]| + 1 + LineStart(ls[1..], i - 1)
  }

  lemma OccursExtendRight(s: string, t: string, k: int, x: string)
    requires OccursAt(s, t, k)
    ensures OccursAt(s + x, t, k)
  {
    assert (s + x)[k..k + |t|] == s[k..k + |t|];
  }

  lemma OccursExtendLeft(p: string, s: string, t: string, k: int)
    requires OccursAt(s, t, k)
    ensures OccursAt(p + s, t, |p| + k)
  {
    assert (p + s)[|p| + k..|p| + k + |t|] == s[k..k + |t|];
  }

  /** An occurrence inside an occurrence. */
  lemma OccursWithin(s: string, line: string, j: int, t: string, k: int)
    requires OccursAt(s, line, j) && OccursAt(line, t, k)
    ensures OccursAt(s, t, j + k)
  {
    forall i | 0 <= i < |t|
      ensures s[j + k + i] == t[i]
    {
      assert t[i] == line[k..k + |t|][i] == line[k + i];
      assert line[k + i] == s[j..j + |line|][k + i] == s[j + k + i];
    }
    assert s[j + k..j + k + |t|] == t;
  }

  /** Every line occurs in the joined text at its start offset. */
  lemma {:induction false} LineInJoin(ls: seq<string>, i: nat)
    requires i < |ls|
    ensures OccursAt(JoinLines(ls), ls[i], LineStart(ls, i))
    decreases i
  {
    if |ls| == 1 {
      assert JoinLines(ls)[0..|ls[0]|] == ls[0];
    } else if i == 0 {
      assert ls[0][0..|ls[0]|] == ls[0];
      OccursExtendRight(ls[0], ls[0], 0, "\n" + JoinLines(ls[1..]));
    } else {
      LineInJoin(ls[1..], i - 1);
      OccursExtendLeft("\n", JoinLines(ls[1..]), ls[i], LineStart(ls[1..], i - 1));
      OccursExtendLeft(ls[0], "\n" + JoinLines(ls[1..]), ls[i], 1 + LineStart(ls[1..], i - 1));
    }
  }

  /** The number of line breaks in `s`. */
  function CountNewlines(s: string): nat
  {
    multiset(s)['\n']
  }

  /** Lines free of breaks join into text with one break fewer than lines. */
  lemma {:induction false} JoinLinesBreaks(ls: seq<string>)
    requires |ls| >= 1
    requires forall i :: 0 <= i < |ls| ==> NoNewline(ls[i])
    ensures CountNewlines(JoinLines(ls)) == |ls| - 1
    decreases |ls|
  {
    assert NoNewline(ls[0]);
    if |ls| > 1 {
      JoinLinesBreaks(ls[1..]);
      assert multiset(ls[0] + ("\n" + JoinLines(ls[1..])))
          == multiset(ls[0]) + multiset("\n") + multiset(JoinLines(ls[1..]));
    }
  }

  /** The text after the final line break (all of `s` if it has none). */
  function LastLine(s: string): (r: string)
    ensures NoNewline(r)
    decreases |s|
  {
    if '\n' in s then LastLine(s[1..]) else s
  }

  lemma {:induction false} LastLineAfterBreak(a: string, y: string)
    ensures LastLine(a + ("\n" + y)) == LastLine(y)
    decreases |a|
  {
    var s := a + ("\n" + y);
    assert s[|a|] == '\n';
    if a == [] {
      assert s[1..] == y;
    } else {
      assert s[1..] == a[1..] + ("\n" + y);
      LastLineAfterBreak(a[1..], y);
    }
  }

  /** The last line of the joined text is the last line given, when it has no break. */
  lemma {:induction false} LastLineOfJoin(ls: seq<string>)
    requires |ls| >= 1 && NoNewline(ls[|ls| - 1])
    ensures LastLine(JoinLines(ls)) == ls[|ls| - 1]
    decreases |ls|
  {
    if |ls| > 1 {
      LastLineAfterBreak(ls[0], JoinLines(ls[1..]));
      LastLineOfJoin(ls[1..]);
    }
  }

  // ---------------------------------------------------------------------------
  // The announcement.

  const OutcomePrefix: string := "Outcome: **"

  function UserLine(user: string): string { "**" + user + " rolled a ---**" }
  function TypeLine(rollType: string): string { "**" + rollType + " Roll**" }
  function RolledLine(rolled: string): string { "Rolled: `" + rolled + "`" }
  function TargetLine(target: string): string { "Target: `" + target + "`" }
  function VerdictLine(verdict: string): string { OutcomePrefix + verdict + "**" }

  /** The last line of the announcement for outcome `o`. */
  function OutcomeLine(o: Outcome): (s: string)
    ensures NoNewline(s)
  {
    VerdictLine(Label(o))
  }

  /** The five lines of an announcement with already rendered fields. */
  function Lines(user: string, rollType: string, rolled: string, target: string, verdict: string): (ls: seq<string>)
  {
    [UserLine(user), TypeLine(rollType), RolledLine(rolled), TargetLine(target), VerdictLine(verdict)]
  }

  /** format_discord_roll_message: classify the roll and announce it. The
      announcement reports exactly the outcome the roll earned. */
  function FormatRollMessage(user: string, rollType: string, roll: int, target: int): (m: string)
    requires 1 <= roll <= 100 && target >= 0
    ensures ReadOutcome(m) == Some(Evaluate(roll, target))
  {
    var o := Evaluate(roll, target);
    var ls := Lines(user, rollType, Decimal(roll), Decimal(target), Label(o));
    assert ls[|ls| - 1] == OutcomeLine(o);
    LastLineOfJoin(ls);
    OutcomeLineInjective(o, CriticalSuccess);
    OutcomeLineInjective(o, ExtremeSuccess);
    OutcomeLineInjective(o, HardSuccess);
    OutcomeLineInjective(o, RegularSuccess);
    OutcomeLineInjective(o, Fumble);
    JoinLines(ls)
  }

  // Offsets of the fields: each is the length of the template text before it,
  // counting one character for every line break.

  /** Offset of the roll type: after "**", the user, " rolled a ---**", a break and "**". */
  function RollTypeAt(user: string): nat
  {
    |"**"| + |user| + |" rolled a ---**"| + 1 + |"**"|
  }
  /** Offset of the roll digits: after the roll type, " Roll**", a break and "Rolled: `". */
  function RolledAt(user: string, rollType: string): nat
  {
    RollTypeAt(user) + |rollType| + |" Roll**"| + 1 + |"Rolled: `"|
  }
  /** Offset of the target digits: after the roll digits, "`", a break and "Target: `". */
  function TargetAt(user: string, rollType: string, rolled: string): nat
  {
    RolledAt(user, rollType) + |rolled| + |"`"| + 1 + |"Target: `"|
  }
  /** Offset of the outcome label: after the target digits, "`", a break and "Outcome: **". */
  function LabelAt(user: string, rollType: string, rolled: string, target: string): nat
  {
    TargetAt(user, rollType, rolled) + |target| + |"`"| + 1 + |OutcomePrefix|
  }

  /** Where lines 1 to 4 of five start. */
  lemma LineStarts(ls: seq<string>)
    requires |ls| == 5
    ensures LineStart(ls, 1) == |ls[0]| + 1
    ensures LineStart(ls, 2) == |ls[0]| + |ls[1]| + 2
    ensures LineStart(ls, 3) == |ls[0]| + |ls[1]| + |ls[2]| + 3
    ensures LineStart(ls, 4) == |ls[0]| + |ls[1]| + |ls[2]| + |ls[3]| + 4
  {
    assert LineStart(ls[1..][1..][1..], 1) == |ls[3]| + 1;
    assert LineStart(ls[1..][1..], 1) == |ls[2]| + 1;
    assert LineStart(ls[1..], 1) == |ls[1]| + 1;
  }

  /** Every field occurs verbatim in the joined lines, at a fixed place. */
  lemma TemplateFields(user: string, rollType: string, rolled: string, target: string, verdict: string)
    ensures var m := JoinLines(Lines(user, rollType, rolled, target, verdict));
      && OccursAt(m, user, 2)
      && OccursAt(m, rollType, RollTypeAt(user))
      && OccursAt(m, rolled, RolledAt(user, rollType))
      && OccursAt(m, target, TargetAt(user, rollType, rolled))
      && OccursAt(m, verdict, LabelAt(user, rollType, rolled, target))
  {
    var ls := Lines(user, rollType, rolled, target, verdict);
    var m := JoinLines(ls);
    LineStarts(ls);
    FieldInLine(ls, 0, "**", user, " rolled a ---**");
    FieldInLine(ls, 1, "**", rollType, " Roll**");
    FieldInLine(ls, 2, "Rolled: `", rolled, "`");
    FieldInLine(ls, 3, "Target: `", target, "`");
    FieldInLine(ls, 4, OutcomePrefix, verdict, "**");
  }

  /** A field inside line `i` occurs in the joined text after the line's opening. */
  lemma FieldInLine(ls: seq<string>, i: nat, open: string, field: string, close: string)
    requires i < |ls| && ls[i] == open + field + close
    ensures OccursAt(JoinLines(ls), field, LineStart(ls, i) + |open|)
  {
    OccursInMiddle(open, field, close);
    LineInJoin(ls, i);
    OccursWithin(JoinLines(ls), ls[i], LineStart(ls, i), field, |open|);
  }

  /** The user name, roll type, roll digits, target digits and outcome label all
      appear verbatim in the announcement. */
  lemma MessageFields(user: string, rollType: string, roll: int, target: int)
    requires 1 <= roll <= 100 && target >= 0
    ensures var m := FormatRollMessage(user, rollType, roll, target);
      var rolled, shown := Decimal(roll), Decimal(target);
      && OccursAt(m, user, 2)
      && OccursAt(m, rollType, RollTypeAt(user))
      && OccursAt(m, rolled, RolledAt(user, rollType))
      && OccursAt(m, shown, TargetAt(user, rollType, rolled))
      && OccursAt(m, Label(Evaluate(roll, target)), LabelAt(user, rollType, rolled, shown))
  {
    TemplateFields(user, rollType, Decimal(roll), Decimal(target), Label(Evaluate(roll, target)));
  }

  /** The announcement breaks into exactly five lines when the user name and
      roll type hold no line break. */
  lemma MessageHasFiveLines(user: string, rollType: string, roll: int, target: int)
    requires 1 <= roll <= 100 && target >= 0
    requires NoNewline(user) && NoNewline(rollType)
    ensures CountNewlines(FormatRollMessage(user, rollType, roll, target)) == 4
  {
    var rolled, shown := Decimal(roll), Decimal(target);
    assert NoNewline(rolled) && NoNewline(shown) by {
      assert forall i :: 0 <= i < |rolled| ==> rolled[i] != '\n';
      assert forall i :: 0 <= i < |shown| ==> shown[i] != '\n';
    }
    JoinLinesBreaks(Lines(user, rollType, rolled, shown, Label(Evaluate(roll, target))));
  }

  /** Which outcome an announcement reports, from its last line. */
  function ReadOutcome(m: string): Option<Outcome>
  {
    var last := LastLine(m);
    if last == OutcomeLine(CriticalSuccess) then Some(CriticalSuccess)
    else if last == OutcomeLine(ExtremeSuccess) then Some(ExtremeSuccess)
    else if last == OutcomeLine(HardSuccess) then Some(HardSuccess)
    else if last == OutcomeLine(RegularSuccess) then Some(RegularSuccess)
    else if last == OutcomeLine(Fumble) then Some(Fumble)
    else if last == OutcomeLine(Failure) then Some(Failure)
    else None
  }

  lemma OutcomeLineInjective(a: Outcome, b: Outcome)
    ensures OutcomeLine(a) == OutcomeLine(b) ==> a == b
  {
    if OutcomeLine(a) == OutcomeLine(b) {
      var n := |OutcomePrefix|;
      assert Label(a) == OutcomeLine(a)[n..n + |Label(a)|];
      assert |Label(a)| == |Label(b)|;
      assert Label(b) == OutcomeLine(b)[n..n + |Label(b)|];
      LabelInjective(a, b);
    }
  }
}
