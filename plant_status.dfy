/**
 * The watering-status calculator: given a plant and the current instant, is it
 * healthy, due soon or overdue, and how long until (or since) it needs water.
 */
module PlantStatus {
  import opened Wrappers
  import opened Text
  import opened PlantModel

  /** 1000 * 60 * 60 */
  const MillisecondsPerHour: nat := 3_600_000
  /** 1000 * 60 * 60 * 24 */
  const MillisecondsPerDay: nat := 86_400_000

  const LessThanOneHour: string := "Less than 1 hour"

  datatype StatusKind = Healthy | DueSoon | Overdue

  /** The derived status of a plant; never stored. */
  datatype StatusInfo = StatusInfo(kind: StatusKind, statusLabel: string, countdownLabel: string)

  function DayWord(days: nat): string {
    if days == 1 then "day" else "days"
  }

  function HourWord(hours: nat): string {
    if hours == 1 then "hour" else "hours"
  }

  /** "H hour(s)" */
  function HoursText(hours: nat): string {
    NatToDecimal(hours) + " " + HourWord(hours)
  }

  /** "D day(s), " */
  function DaysText(days: nat): string {
    NatToDecimal(days) + " " + DayWord(days) + ", "
  }

  /**
   * A non-negative duration as "D day(s), H hour(s)", "H hour(s)" or "Less than 1 hour".
   * Whole hours are counted first and then split into days and the remaining hours.
   */
  function FormatTimeRemaining(milliseconds: nat): (r: string)
    ensures r == LessThanOneHour <==> milliseconds < MillisecondsPerHour
  {
    FormatWholeHours(milliseconds / MillisecondsPerHour)
  }

  /** The text for a number of whole hours: whole days first, then the hours left over. */
  function FormatWholeHours(totalHours: nat): (r: string)
    ensures r == LessThanOneHour <==> totalHours == 0
  {
    var days := totalHours / 24;
    var hours := totalHours % 24;
    if days > 0 then
      assert (DaysText(days) + HoursText(hours))[0] == NatToDecimal(days)[0];
      DaysText(days) + HoursText(hours)
    else if hours > 0 then
      assert HoursText(hours)[0] == NatToDecimal(hours)[0];
      HoursText(hours)
    else LessThanOneHour
  }

  function StatusLabel(kind: StatusKind): string {
    match kind
    case Overdue => "Overdue"
    case DueSoon => "Due Soon"
    case Healthy => "Healthy"
  }

  /** Milliseconds from `now` until the plant's next watering is due; negative once it has passed. */
  function TimeUntilWatering(plant: Plant, now: int): int {
    plant.lastWatered + plant.intervalDays * MillisecondsPerDay - now
  }

  function Abs(x: int): nat {
    if x < 0 then -x else x
  }

  function GetPlantStatus(plant: Plant, now: int): (r: StatusInfo)
    ensures r.kind == Overdue <==> TimeUntilWatering(plant, now) < 0
    ensures r.kind == DueSoon <==> 0 <= TimeUntilWatering(plant, now) <= MillisecondsPerDay
    ensures r.kind == Healthy <==> MillisecondsPerDay < TimeUntilWatering(plant, now)
    ensures r.statusLabel == StatusLabel(r.kind)
    ensures r.countdownLabel == FormatTimeRemaining(Abs(TimeUntilWatering(plant, now)))
  {
    var timeUntilWatering := TimeUntilWatering(plant, now);
    if timeUntilWatering < 0 then
      StatusInfo(Overdue, "Overdue", FormatTimeRemaining(-timeUntilWatering))
    else if timeUntilWatering <= MillisecondsPerDay then
      StatusInfo(DueSoon, "Due Soon", FormatTimeRemaining(timeUntilWatering))
    else
      StatusInfo(Healthy, "Healthy", FormatTimeRemaining(timeUntilWatering))
  }

  /** The three labels differ, so the label alone tells the status kind. */
  lemma StatusLabelDeterminesKind(a: StatusKind, b: StatusKind)
    ensures StatusLabel(a) == StatusLabel(b) <==> a == b
  {
    if a != b {
      assert StatusLabel(a)[0] != StatusLabel(b)[0] || |StatusLabel(a)| != |StatusLabel(b)|;
    }
  }

  function StatusRank(kind: StatusKind): nat {
    match kind
    case Healthy => 0
    case DueSoon => 1
    case Overdue => 2
  }

  /** As time passes, a plant only moves from healthy towards overdue, never back. */
  lemma StatusMonotoneInTime(plant: Plant, earlier: int, later: int)
    requires earlier <= later
    ensures StatusRank(GetPlantStatus(plant, earlier).kind) <= StatusRank(GetPlantStatus(plant, later).kind)
  {
  }

  /** Counting whole hours and then whole days of them is counting whole days. */
  lemma DaysOfHours(milliseconds: nat)
    ensures milliseconds / MillisecondsPerHour / 24 == milliseconds / MillisecondsPerDay
  {
    var totalHours := milliseconds / MillisecondsPerHour;
    var days := totalHours / 24;
    assert milliseconds == MillisecondsPerHour * totalHours + milliseconds % MillisecondsPerHour;
    assert totalHours == 24 * days + totalHours % 24;
    assert milliseconds == MillisecondsPerDay * days
      + (MillisecondsPerHour * (totalHours % 24) + milliseconds % MillisecondsPerHour);
    assert 0 <= MillisecondsPerHour * (totalHours % 24) + milliseconds % MillisecondsPerHour < MillisecondsPerDay;
  }

  /** At least a day: "D day(s), H hour(s)" with D whole days and H in [0, 23] the whole hours left over. */
  lemma FormatDays(milliseconds: nat)
    requires milliseconds >= MillisecondsPerDay
    ensures var days := milliseconds / MillisecondsPerDay;
            var hours := milliseconds / MillisecondsPerHour % 24;
            days >= 1 && hours < 24 &&
            FormatTimeRemaining(milliseconds)
              == NatToDecimal(days) + " " + DayWord(days) + ", " + NatToDecimal(hours) + " " + HourWord(hours)
  {
    DaysOfHours(milliseconds);
  }

  /** Between an hour and a day: "H hour(s)" with H the whole hours. */
  lemma FormatHours(milliseconds: nat)
    requires MillisecondsPerHour <= milliseconds < MillisecondsPerDay
    ensures var hours := milliseconds / MillisecondsPerHour;
            1 <= hours < 24 && FormatTimeRemaining(milliseconds) == NatToDecimal(hours) + " " + HourWord(hours)
  {
    var hours := milliseconds / MillisecondsPerHour;
    assert 1 <= hours < 24 by {
      DaysOfHours(milliseconds);
    }
    assert hours / 24 == 0 && hours % 24 == hours;
  }

  /** Under an hour: the fixed text. */
  lemma FormatUnderAnHour(milliseconds: nat)
    requires milliseconds < MillisecondsPerHour
    ensures FormatTimeRemaining(milliseconds) == LessThanOneHour
  {
    assert milliseconds / MillisecondsPerHour == 0;
  }

  /** Each unit word is singular exactly when its count is 1, independently of the other. */
  lemma Pluralisation(count: nat)
    ensures DayWord(count) == "day" <==> count == 1
    ensures HourWord(count) == "hour" <==> count == 1
  {
  }

  /** The reference durations: 0, one hour, 25 hours and 48 hours. */
  lemma FormatExamples()
    ensures FormatTimeRemaining(0) == "Less than 1 hour"
    ensures FormatTimeRemaining(3600000) == "1 hour"
    ensures FormatTimeRemaining(90000000) == "1 day, 1 hour"
    ensures FormatTimeRemaining(172800000) == "2 days, 0 hours"
  {
    FormatOneHour();
    FormatOneDayOneHour();
    FormatTwoDays();
  }

  lemma FormatOneHour()
    ensures FormatTimeRemaining(3600000) == "1 hour"
  {
    assert NatToDecimal(1) == "1";
    assert 3600000 / MillisecondsPerHour == 1;
    assert FormatWholeHours(1) == HoursText(1) == "1 hour";
  }

  lemma FormatOneDayOneHour()
    ensures FormatTimeRemaining(90000000) == "1 day, 1 hour"
  {
    assert NatToDecimal(1) == "1";
    assert 90000000 / MillisecondsPerHour == 25;
    assert FormatWholeHours(25) == DaysText(1) + HoursText(1);
    assert DaysText(1) == "1 day, " && HoursText(1) == "1 hour";
  }

  lemma FormatTwoDays()
    ensures FormatTimeRemaining(172800000) == "2 days, 0 hours"
  {
    assert NatToDecimal(0) == "0" && NatToDecimal(2) == "2";
    assert 172800000 / MillisecondsPerHour == 48;
    assert FormatWholeHours(48) == DaysText(2) + HoursText(0);
    assert DaysText(2) == "2 days, " && HoursText(0) == "0 hours";
  }

  // Reading a countdown label back: the partner of FormatTimeRemaining.

  /** The number at the start of `s` and what follows it. */
  function ReadNumeral(s: string): Option<(nat, string)> {
    var digits := DigitPrefix(s);
    if digits == [] then None else Some((DigitsValue(digits), s[|digits|..]))
  }

  predicate IsHourUnit(s: string) {
    s == " hour" || s == " hours"
  }

  /** The length of a " day, " or " days, " separator at the start of `s`, or 0 if there is none. */
  function DaySeparatorLength(s: string): (n: nat)
    ensures n <= |s|
  {
    if |s| >= 7 && s[..7] == " days, " then 7
    else if |s| >= 6 && s[..6] == " day, " then 6
    else 0
  }

  /** The whole hours a countdown label stands for, or None if it is not one. */
  function ReadCountdown(countdown: string): Option<nat> {
    if countdown == LessThanOneHour then Some(0)
    else match ReadNumeral(countdown)
      case None => None
      case Some((n, rest)) =>
        if IsHourUnit(rest) then Some(n)
        else
          var skip := DaySeparatorLength(rest);
          if skip == 0 then None
          else match ReadNumeral(rest[skip..])
            case None => None
            case Some((h, tail)) => if IsHourUnit(tail) then Some(24 * n + h) else None
  }

  lemma ReadNumeralOf(n: nat, rest: string)
    requires rest == [] || !IsDigit(rest[0])
    ensures ReadNumeral(NatToDecimal(n) + rest) == Some((n, rest))
  {
    var d := NatToDecimal(n);
    DigitPrefixOfNumeral(d, rest);
    DigitsValueOfDecimal(n);
    assert (d + rest)[|d|..] == rest;
  }

  lemma ReadHoursText(hours: nat)
    ensures ReadNumeral(HoursText(hours)) == Some((hours, " " + HourWord(hours)))
    ensures HoursText(hours) != LessThanOneHour
  {
    assert HoursText(hours) == NatToDecimal(hours) + (" " + HourWord(hours));
    ReadNumeralOf(hours, " " + HourWord(hours));
    assert HoursText(hours)[0] == NatToDecimal(hours)[0];
  }

  /** One step of ReadCountdown: a number, a day separator, a number and an hour unit. */
  lemma ReadCountdownOfDays(countdown: string, days: nat, rest: string, hours: nat, tail: string)
    requires countdown != LessThanOneHour && ReadNumeral(countdown) == Some((days, rest))
    requires !IsHourUnit(rest) && DaySeparatorLength(rest) != 0
    requires ReadNumeral(rest[DaySeparatorLength(rest)..]) == Some((hours, tail)) && IsHourUnit(tail)
    ensures ReadCountdown(countdown) == Some(24 * days + hours)
  {
  }

  lemma HourUnitOfWord(hours: nat)
    ensures IsHourUnit(" " + HourWord(hours))
  {
    if hours == 1 { assert " " + HourWord(hours) == " hour"; } else { assert " " + HourWord(hours) == " hours"; }
  }

  lemma ReadDaySeparator(days: nat, tail: string)
    ensures var sep := " " + DayWord(days) + ", ";
            DaySeparatorLength(sep + tail) == |sep| && (sep + tail)[|sep|..] == tail
            && !IsHourUnit(sep + tail)
  {
    var sep := " " + DayWord(days) + ", ";
    var rest := sep + tail;
    assert rest[..|sep|] == sep;
    if days == 1 {
      assert rest[..6] == " day, ";
      assert |rest| >= 7 ==> rest[..7][4] == ',';
    } else {
      assert rest[..7] == " days, ";
    }
    assert rest[1] == 'd';
  }

  lemma ReadDaysAndHours(days: nat, hours: nat)
    ensures ReadCountdown(DaysText(days) + HoursText(hours)) == Some(24 * days + hours)
  {
    var sep := " " + DayWord(days) + ", ";
    var text := DaysText(days) + HoursText(hours);
    var rest := sep + HoursText(hours);
    assert text == NatToDecimal(days) + rest;
    ReadNumeralOf(days, rest);
    assert text[0] == NatToDecimal(days)[0];
    assert text != LessThanOneHour;
    ReadDaySeparator(days, HoursText(hours));
    var skip := DaySeparatorLength(rest);
    assert skip == |sep| && !IsHourUnit(rest);
    ReadHoursText(hours);
    assert ReadNumeral(rest[skip..]) == Some((hours, " " + HourWord(hours)));
    HourUnitOfWord(hours);
    ReadCountdownOfDays(text, days, rest, hours, " " + HourWord(hours));
  }

  /** The text for a number of whole hours reads back as that number. */
  lemma ReadWholeHours(totalHours: nat)
    ensures ReadCountdown(FormatWholeHours(totalHours)) == Some(totalHours)
  {
    var days := totalHours / 24;
    var hours := totalHours % 24;
    assert totalHours == 24 * days + hours;
    if days > 0 {
      assert FormatWholeHours(totalHours) == DaysText(days) + HoursText(hours);
      ReadDaysAndHours(days, hours);
    } else if hours > 0 {
      assert FormatWholeHours(totalHours) == HoursText(hours);
      ReadHoursText(hours);
    }
  }

  /** The label gives back the duration's whole hours: formatting loses only the minutes and below. */
  lemma ReadFormattedCountdown(milliseconds: nat)
    ensures ReadCountdown(FormatTimeRemaining(milliseconds)) == Some(milliseconds / MillisecondsPerHour)
  {
    ReadWholeHours(milliseconds / MillisecondsPerHour);
  }

  /** Two durations get the same label exactly when they have the same whole number of hours. */
  lemma FormatDeterminesHours(a: nat, b: nat)
    ensures FormatTimeRemaining(a) == FormatTimeRemaining(b) <==> a / MillisecondsPerHour == b / MillisecondsPerHour
  {
    ReadFormattedCountdown(a);
    ReadFormattedCountdown(b);
  }
}
