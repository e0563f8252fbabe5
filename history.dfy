/** Display helpers of the workout history screen: the duration of a
    session as clock text, and the label and colour of a set by its type. */
module History {
  import opened Common

  // ---------------------------------------------------------------------
  // formatDuration

  /** `formatDuration`: "0:00" for a missing or zero duration (JavaScript's
      falsy test); otherwise the minutes `floor(seconds / 60)` unpadded, a
      colon, and `seconds % 60` (JavaScript's truncating remainder) padded
      to two characters. */
  function FormatDuration(seconds: Option<int>): (r: string)
    ensures seconds.None? || seconds.value == 0 ==> r == "0:00"
  {
    if seconds.None? || seconds.value == 0 then "0:00"
    else
      var v := seconds.value;
      IntToString(v / 60) + ":" + PadZeros(IntToString(JsRem(v, 60)), 2)
  }

  /** The text of a non-negative duration reads back as that duration: the
      minutes field is one or more digits and the seconds field two digits
      below 60. */
  lemma FormatDurationRoundTrip(s: nat)
    ensures ReadClock(FormatDuration(Some(s)), 1) == Some(s)
  {
    if s == 0 {
      ZeroDurationReadsBack();
    } else {
      PositiveDurationText(s);
      ClockRoundTrip(s / 60, s % 60, 1);
    }
  }

  lemma ZeroDurationReadsBack()
    ensures ReadClock("0:00", 1) == Some(0)
  {
    assert ParseNat("0") == Some(0);
    assert ParseNat("00") == Some(0) by {
      assert "00"[..1] == "0";
    }
    ReadClockOf("0", "00", 1, 0, 0);
    assert "0" + ":" + "00" == "0:00";
  }

  lemma PositiveDurationText(s: nat)
    requires s > 0
    ensures FormatDuration(Some(s)) == PadZeros(NatToString(s / 60), 1) + ":" + PadZeros(NatToString(s % 60), 2)
  {
  }

  /** Distinct non-negative durations are shown as distinct texts. */
  lemma FormatDurationInjective(a: nat, b: nat)
    ensures FormatDuration(Some(a)) == FormatDuration(Some(b)) <==> a == b
  {
    FormatDurationRoundTrip(a);
    FormatDurationRoundTrip(b);
  }

  /** A negative duration is printed with JavaScript's operators as they are:
      the minutes round down while the remainder keeps the sign of the
      dividend, so -65 seconds shows as "-2:-5". */
  lemma FormatDurationNegative()
    ensures FormatDuration(Some(-65)) == "-2:-5"
  {
    assert -65 / 60 == -2;
    assert JsRem(-65, 60) == -5;
    assert NatToString(2) == "2" && NatToString(5) == "5";
  }

  // ---------------------------------------------------------------------
  // getSetTypeLabel and getSetTypeColor

  /** The letter a set type is marked with: warmup, failure, PR and dropset
      have one; every other type string, "normal" included, has none. */
  function TypeLetter(setType: string): (p: Option<char>)
    ensures p.Some? <==> setType in {"warmup", "failure", "PR", "dropset"}
    ensures p.Some? ==> p.value in ['W', 'F', 'P', 'D'] && !IsDigit(p.value)
  {
    if setType == "warmup" then Some('W')
    else if setType == "failure" then Some('F')
    else if setType == "PR" then Some('P')
    else if setType == "dropset" then Some('D')
    else None
  }

  /** The four marked types have four different letters. */
  lemma TypeLettersDistinct(t1: string, t2: string)
    requires TypeLetter(t1).Some? && TypeLetter(t2).Some?
    ensures TypeLetter(t1) == TypeLetter(t2) <==> t1 == t2
  {
  }

  /** `getSetTypeLabel`: sets are numbered from 1 in display order, with the
      type's letter in front when it has one. The bare-number case returns a
      number in the source, which the screen renders as the same text. */
  function GetSetTypeLabel(setType: string, index: nat): (r: string)
    ensures |r| >= 1
    ensures IsDigit(r[0]) <==> TypeLetter(setType).None?
  {
    var num := NatToString(index + 1);
    match TypeLetter(setType)
    case Some(p) => [p] + num
    case None => num
  }

  /** What a label says: the type letter, if any, and the zero-based index. */
  datatype ParsedLabel = ParsedLabel(letter: Option<char>, index: nat)

  function ReadLabel(r: string): (p: Option<ParsedLabel>)
    ensures p.Some? ==> |r| >= 1
  {
    if |r| == 0 then None
    else
      var letter := if IsDigit(r[0]) then None else Some(r[0]);
      var digits := if IsDigit(r[0]) then r else r[1..];
      match ParseNat(digits)
      case Some(n) => if n >= 1 then Some(ParsedLabel(letter, n - 1)) else None
      case None => None
  }

  /** A label reads back as the type's letter and the set's index. */
  lemma LabelRoundTrip(setType: string, index: nat)
    ensures ReadLabel(GetSetTypeLabel(setType, index)) == Some(ParsedLabel(TypeLetter(setType), index))
  {
    var num := NatToString(index + 1);
    NatToStringRoundTrip(index + 1);
    if TypeLetter(setType).Some? {
      assert ([TypeLetter(setType).value] + num)[1..] == num;
    }
  }

  /** Two sets get the same label exactly when their types carry the same
      letter (or none) and they sit at the same position. */
  lemma LabelsDistinct(t1: string, i1: nat, t2: string, i2: nat)
    ensures GetSetTypeLabel(t1, i1) == GetSetTypeLabel(t2, i2)
            <==> TypeLetter(t1) == TypeLetter(t2) && i1 == i2
  {
    LabelRoundTrip(t1, i1);
    LabelRoundTrip(t2, i2);
  }

  /** The colour of plain sets: "normal" and any unknown type. */
  const PlainColor := "#3B82F6"

  /** `getSetTypeColor`. */
  function GetSetTypeColor(setType: string): (c: string)
    ensures c == PlainColor <==> TypeLetter(setType).None?
  {
    if setType == "warmup" then "#FFA500"
    else if setType == "failure" then "#FF4444"
    else if setType == "PR" then "#FFD700"
    else if setType == "dropset" then "#9B59B6"
    else PlainColor
  }

  /** Colours and letters classify set types alike: two types share a colour
      exactly when they share a letter, so each marked type has its own
      colour and every plain type is blue. */
  lemma ColorMatchesLetter(t1: string, t2: string)
    ensures GetSetTypeColor(t1) == GetSetTypeColor(t2) <==> TypeLetter(t1) == TypeLetter(t2)
  {
  }
}
