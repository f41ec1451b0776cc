/** The work-week calculator: labels a date with a two-digit year and a week number, weeks
    running from Sunday to Saturday and week 1 holding 1 January. */
module WorkWeek {

  predicate IsLeap(y: nat) {
    y % 400 == 0 || (y % 4 == 0 && y % 100 != 0)
  }

  function DaysIn(y: nat): nat {
    if IsLeap(y) then 366 else 365
  }

  /** Days before 1 January of year `y` of the proleptic Gregorian calendar. */
  function DaysBefore(y: nat): nat
    requires y >= 1
  {
    if y == 1 then 0 else DaysBefore(y - 1) + DaysIn(y - 1)
  }

  predicate IsDate(y: nat, doy: nat) {
    y >= 1 && 1 <= doy <= DaysIn(y)
  }

  /** Day number, 1 on 1 January of year 1, a Monday: the remainder by 7 is the weekday with
      Sunday as 0, the quotient the Sunday-to-Saturday week. */
  function Day(y: nat, doy: nat): nat
    requires y >= 1
  {
    DaysBefore(y) + doy
  }

  function Week(y: nat, doy: nat): nat
    requires y >= 1
  {
    Day(y, doy) / 7
  }

  datatype Label = Label(yr: nat, ww: nat)

  function TwoDigits(l: Label): Label {
    Label(l.yr % 100, l.ww)
  }

  /** The leap test of the calculator, made on the two-digit year. */
  predicate TwoDigitLeap(yr: nat) {
    yr % 400 == 0 || (yr % 4 == 0 && yr % 100 != 0)
  }

  /** The days the calculator gives to year `y`. */
  function CountedDays(y: nat): nat {
    if TwoDigitLeap(y % 100) then 366 else 365
  }

  /** convert_ww for day `doy` of year `y`. */
  function ConvertWw(y: nat, doy: nat): Label
    requires IsDate(y, doy)
  {
    var yr := y % 100;
    var dow1 := Day(y, 1) % 7;
    var yearDays := CountedDays(y);
    var shifted := doy - 1 + dow1;
    var ww := shifted / 7 + 1;
    var wd := shifted % 7;
    var weekDays := yearDays + dow1 - shifted + wd;
    if weekDays < 7 then Label(yr + 1, 1) else Label(yr, ww)
  }

  /** What the label means: a week that holds 1 January of the next year is its week 1, any
      other week is counted from the one that holds 1 January of its own year. */
  function WeekLabel(y: nat, doy: nat): Label
    requires IsDate(y, doy)
  {
    YearSpan(y, doy);
    LabelOf(y, Week(y, 1), Week(y, doy), Week(y + 1, 1))
  }

  function LabelOf(y: nat, first: nat, week: nat, next: nat): Label
    requires first <= week
  {
    if week == next then Label(y + 1, 1) else Label(y, week - first + 1)
  }

  /** The week of the date also holds 1 January of the next year. */
  predicate InNewYearWeek(y: nat, doy: nat)
    requires IsDate(y, doy)
  {
    Week(y, doy) == Week(y + 1, 1)
  }

  /** The years whose last week is mislabelled. */
  predicate BadYear(y: nat) {
    y % 100 == 99 || y % 400 == 100
  }

  /** Leap days up to a year, counted by quotients. */
  function LeapDays(y: nat): int {
    y / 4 - y / 100 + y / 400
  }

  lemma LeapDaysStep(y: nat)
    requires y >= 1
    ensures LeapDays(y) == LeapDays(y - 1) + if IsLeap(y) then 1 else 0
  {
    QuotientSteps(y, 4);
    QuotientSteps(y, 100);
    QuotientSteps(y, 400);
    Divisors(y);
  }

  lemma {:induction false} DaysBeforeClosed(y: nat)
    requires y >= 1
    ensures DaysBefore(y) == 365 * (y - 1) + LeapDays(y - 1)
  {
    if y > 1 {
      DaysBeforeClosed(y - 1);
      LeapDaysStep(y - 1);
    }
  }

  lemma Divisors(y: nat)
    ensures y % 400 == 0 ==> y % 100 == 0
    ensures y % 100 == 0 ==> y % 4 == 0
  {
    if y % 400 == 0 {
      assert y == 100 * (4 * (y / 400));
    }
    if y % 100 == 0 {
      assert y == 4 * (25 * (y / 100));
    }
  }

  lemma QuotientSteps(y: nat, m: nat)
    requires y >= 1 && (m == 4 || m == 100 || m == 400)
    ensures y / m == (y - 1) / m + if y % m == 0 then 1 else 0
  {
  }

  /** The two-digit leap test is the Gregorian rule except in the centuries that are not leap
      years. */
  lemma LeapTestExact(y: nat)
    ensures TwoDigitLeap(y % 100) == IsLeap(y) <==> !(y % 100 == 0 && y % 400 != 0)
  {
    assert (y % 100) % 4 == y % 4;
    assert y % 400 == 0 ==> y % 100 == 0;
  }

  /** A cycle of 400 years has a whole number of weeks. */
  lemma CycleOfWeeks(k: nat, c: nat)
    requires 1 <= c <= 400
    ensures DaysBefore(400 * k + c) == 7 * (20871 * k) + DaysBefore(c)
  {
    DaysBeforeClosed(400 * k + c);
    DaysBeforeClosed(c);
    assert (400 * k + c - 1) / 4 == 100 * k + (c - 1) / 4;
    assert (400 * k + c - 1) / 100 == 4 * k + (c - 1) / 100;
    assert (400 * k + c - 1) / 400 == k + (c - 1) / 400;
  }

  lemma MultipleDrops(q: int, r: int)
    ensures (7 * q + r) % 7 == r % 7
    ensures (7 * q + r) / 7 == q + r / 7
  {
  }

  lemma CycleWeekday(k: nat, c: nat)
    requires 1 <= c <= 400
    ensures Day(400 * k + c, 1) % 7 == Day(c, 1) % 7
  {
    CycleOfWeeks(k, c);
    MultipleDrops(20871 * k, DaysBefore(c) + 1);
  }

  /** 1 January of a century that is not a leap year is a Friday, Wednesday or Monday. */
  lemma CenturyWeekday(k: nat, c: nat)
    requires c == 100 || c == 200 || c == 300
    ensures Day(400 * k + c, 1) % 7 == if c == 100 then 5 else if c == 200 then 3 else 1
  {
    CycleWeekday(k, c);
    FirstCenturies(c);
  }

  lemma FirstCenturies(c: nat)
    requires c == 100 || c == 200 || c == 300
    ensures Day(c, 1) == if c == 100 then 36160 else if c == 200 then 72684 else 109208
  {
    DaysBeforeClosed(c);
    var e := c - 1;
    assert e / 4 == c / 4 - 1 && e / 100 == c / 100 - 1 && e / 400 == 0;
  }

  lemma FridayCentury(y: nat)
    requires y % 100 == 0 && y % 400 != 0
    ensures Day(y, 1) % 7 == 5 <==> y % 400 == 100
  {
    CenturyResidue(y, y / 100, y / 400);
    CenturyWeekday(y / 400, y % 400);
  }

  lemma CenturyResidue(y: nat, q: nat, k: nat)
    requires y == 100 * q && k == y / 400 && y % 400 != 0
    ensures y % 400 == 100 || y % 400 == 200 || y % 400 == 300
  {
  }

  /** Weeks are counted by the shifted day of the year. */
  lemma WeekOfYear(y: nat, doy: nat)
    requires y >= 1
    ensures Week(y, doy) == Day(y, 1) / 7 + (doy - 1 + Day(y, 1) % 7) / 7
  {
  }

  lemma NewYearOfYear(y: nat)
    requires y >= 1
    ensures Week(y + 1, 1) == Day(y, 1) / 7 + (DaysIn(y) + Day(y, 1) % 7) / 7
  {
  }

  /** The remaining-days test asks whether the day lies in the week that a year of `days` days
      starting on weekday `dow1` shares with the next. */
  lemma RemainingDays(dow1: nat, days: nat, shifted: nat)
    requires shifted < days + dow1
    ensures days + dow1 - shifted + shifted % 7 < 7 <==> shifted / 7 == (days + dow1) / 7
  {
  }

  /** A day too many moves that week only when 1 January is a Friday. */
  lemma OneDayTooMany(dow1: nat)
    requires dow1 < 7
    ensures (366 + dow1) / 7 == (365 + dow1) / 7 + if dow1 == 5 then 1 else 0
  {
  }

  /** Wrongly counting a leap day moves the end of the year by a week only in years that are
      100 past a multiple of 400. */
  lemma YearEndTest(y: nat)
    requires y >= 1
    ensures (CountedDays(y) + Day(y, 1) % 7) / 7 ==
            (DaysIn(y) + Day(y, 1) % 7) / 7 + if y % 400 == 100 then 1 else 0
  {
    var dow1 := Day(y, 1) % 7;
    OneDayTooMany(dow1);
    CountedYear(y);
    if CountedDays(y) != DaysIn(y) {
      FridayCentury(y);
    }
  }

  lemma CountedYear(y: nat)
    ensures (CountedDays(y) == DaysIn(y) && y % 400 != 100) ||
            (CountedDays(y) == 366 && DaysIn(y) == 365 && y % 100 == 0 && y % 400 != 0)
  {
    LeapTestExact(y);
    if y % 400 == 100 {
      assert y == 100 * (4 * (y / 400) + 1);
    }
  }

  /** The calculator's label by weeks, with the days it counts in the year. */
  lemma CountedLabel(y: nat, doy: nat)
    requires IsDate(y, doy)
    ensures var dow1 := Day(y, 1) % 7;
            var week := (doy - 1 + dow1) / 7;
            ConvertWw(y, doy) ==
            if week == (CountedDays(y) + dow1) / 7 then Label(y % 100 + 1, 1)
            else Label(y % 100, week + 1)
  {
    LeapTestExact(y);
    var dow1 := Day(y, 1) % 7;
    RemainingDays(dow1, CountedDays(y), doy - 1 + dow1);
  }

  /** The calculator recognizes the week shared with the next year, except in years that are
      100 past a multiple of 400, whose last week it never recognizes. */
  lemma NewYearWeekTest(y: nat, doy: nat)
    requires IsDate(y, doy)
    ensures Week(y, 1) <= Week(y, doy)
    ensures ConvertWw(y, doy) ==
            CodeLabel(y % 100, y % 400 == 100, Week(y, 1), Week(y, doy), Week(y + 1, 1))
  {
    CountedLabel(y, doy);
    WeekOfYear(y, doy);
    WeekOfYear(y, 1);
    NewYearOfYear(y);
    YearEndTest(y);
  }

  function CodeLabel(yr: nat, missed: bool, first: nat, week: nat, next: nat): Label
    requires first <= week
  {
    if missed then Label(yr, week - first + 1) else LabelOf(yr, first, week, next)
  }

  lemma NextTwoDigits(y: nat)
    ensures y % 400 == 100 ==> y % 100 == 0
    ensures (y + 1) % 100 == if y % 100 == 99 then 0 else y % 100 + 1
  {
  }

  /** The label is the meant one exactly outside the New Year weeks of the bad years; there
      the year rolls over to 100, or the week is not recognized. */
  lemma LabelExact(y: nat, doy: nat)
    requires IsDate(y, doy)
    ensures ConvertWw(y, doy) == TwoDigits(WeekLabel(y, doy)) <==> !(InNewYearWeek(y, doy) && BadYear(y))
  {
    NewYearWeekTest(y, doy);
    NextTwoDigits(y);
  }

  /** The week number is always between 1 and 53. */
  lemma WeekNumberRange(y: nat, doy: nat)
    requires IsDate(y, doy)
    ensures 1 <= ConvertWw(y, doy).ww <= 53
  {
  }

  /** New Year weeks are 52 or 53 apart, and the weeks of a year lie between them. */
  lemma YearSpan(y: nat, doy: nat)
    requires IsDate(y, doy)
    ensures Week(y, 1) <= Week(y, doy) <= Week(y + 1, 1)
    ensures 52 <= Week(y + 1, 1) - Week(y, 1) <= 53
  {
  }

  /** Dates of one week lie in one year or in two consecutive ones, around New Year. */
  lemma SameWeekYears(y1: nat, d1: nat, y2: nat, d2: nat)
    requires IsDate(y1, d1) && IsDate(y2, d2) && y1 < y2 && Week(y1, d1) == Week(y2, d2)
    ensures y2 == y1 + 1 && InNewYearWeek(y1, d1) && Week(y2, d2) == Week(y2, 1)
  {
    if y2 > y1 + 1 {
      YearsApart(y1, y2);
    }
  }

  lemma {:induction false} YearsApart(y1: nat, y2: nat)
    requires 1 <= y1 && y1 + 2 <= y2
    ensures DaysBefore(y2) >= DaysBefore(y1) + DaysIn(y1) + 365
  {
    if y2 > y1 + 2 {
      YearsApart(y1, y2 - 1);
    }
  }

  /** Any two dates of one Sunday-to-Saturday week get the same label, over New Year too,
      unless they lie on either side of the New Year that ends a bad year. */
  lemma SameWeekSameLabel(y1: nat, d1: nat, y2: nat, d2: nat)
    requires IsDate(y1, d1) && IsDate(y2, d2) && y1 <= y2 && Week(y1, d1) == Week(y2, d2)
    ensures ConvertWw(y1, d1) == ConvertWw(y2, d2) <==> !(y1 < y2 && BadYear(y1))
  {
    NewYearWeekTest(y1, d1);
    NewYearWeekTest(y2, d2);
    if y1 < y2 {
      SameWeekYears(y1, d1, y2, d2);
      NewYearOfYear(y2);
      WeekOfYear(y2, 1);
      NextTwoDigits(y1);
    }
  }

  /** Labels that disagree within a week, around the year 2100 and its like in other cycles:
      31 December 2099 is labelled 100.01 and 1 January 2100 is labelled 00.01, 31 December
      2100 is labelled 00.53 and 1 January 2101 is labelled 01.01. */
  lemma SplitWeeks(k: nat, c: nat)
    requires c == 99 || c == 100
    ensures var y := 400 * k + c;
            && IsDate(y, 365) && IsDate(y + 1, 1) && Week(y, 365) == Week(y + 1, 1)
            && ConvertWw(y, 365) != ConvertWw(y + 1, 1)
  {
    var y := 400 * k + c;
    CycleResidues(k, c);
    CenturyWeekday(k, 100);
    FridayYearEnd(Day(400 * k + 100, 1));
    SameWeekSameLabel(y, 365, y + 1, 1);
  }

  lemma FridayYearEnd(j: nat)
    requires j >= 1 && j % 7 == 5
    ensures j / 7 == (j - 1) / 7 && (j + 364) / 7 == (j + 365) / 7
  {
  }

  lemma CycleResidues(k: nat, c: nat)
    requires c == 99 || c == 100
    ensures var y := 400 * k + c; y % 400 == c && y % 100 == c % 100 && !IsLeap(y)
  {
  }

  datatype Date = Date(y: nat, doy: nat)

  /** The date seven days later. */
  function WeekLater(y: nat, d: nat): (w: Date)
    requires IsDate(y, d)
    ensures IsDate(w.y, w.doy) && Day(w.y, w.doy) == Day(y, d) + 7 && Week(w.y, w.doy) == Week(y, d) + 1
  {
    if d + 7 <= DaysIn(y) then Date(y, d + 7) else Date(y + 1, d + 7 - DaysIn(y))
  }

  /** The labels that may follow a label. */
  function Successors(l: Label): set<Label> {
    {Label(l.yr, l.ww + 1), Label(l.yr + 1, 1)}
  }

  function TwoDigitSuccessors(l: Label): set<Label> {
    {Label(l.yr, l.ww + 1), Label((l.yr + 1) % 100, 1)}
  }

  /** One week on, the meant label counts up, or starts the next year. */
  lemma NextWeekMeant(y: nat, d: nat)
    requires IsDate(y, d)
    ensures var w := WeekLater(y, d); WeekLabel(w.y, w.doy) in Successors(WeekLabel(y, d))
  {
    var w := WeekLater(y, d);
    YearSpan(w.y, w.doy);
    YearSpan(y, d);
  }

  lemma StepInYear(yr: nat, missed: bool, first: nat, week: nat, next: nat)
    requires first <= week < next && yr < 100 && (missed ==> yr == 0)
    ensures CodeLabel(yr, missed, first, week + 1, next) in TwoDigitSuccessors(CodeLabel(yr, missed, first, week, next))
            <==> !(week + 1 == next && yr == 99)
  {
  }

  lemma StepIntoYear(yr: nat, missed: bool, first: nat, week: nat, next: nat, missed': bool, next': nat)
    requires first + 52 <= next && next - 1 <= week <= next && next + 52 <= next'
    requires yr < 100 && (missed ==> yr == 0)
    ensures CodeLabel((yr + 1) % 100, missed', next, week + 1, next')
              in TwoDigitSuccessors(CodeLabel(yr, missed, first, week, next))
            <==> !(week == next && (yr == 99 || missed))
  {
  }

  /** The two steps by the weeks of 1 January of this year, the next, and the one after the
      date's, a week later. */
  lemma NextWeekCode(y: nat, y': nat, first: nat, week: nat, next: nat, next': nat)
    requires y' == y ==> first <= week < next == next'
    requires y' != y ==> y' == y + 1 && first + 52 <= next && next - 1 <= week <= next && next + 52 <= next'
    ensures CodeLabel(y' % 100, y' % 400 == 100, if y' == y then first else next, week + 1, next')
              in TwoDigitSuccessors(CodeLabel(y % 100, y % 400 == 100, first, week, next))
            <==> !(week == next && BadYear(y)) && !(week + 1 == next' && y' % 100 == 99)
  {
    NextTwoDigits(y);
    if y' == y {
      StepInYear(y % 100, y % 400 == 100, first, week, next);
    } else {
      StepIntoYear(y % 100, y % 400 == 100, first, week, next, y' % 400 == 100, next');
    }
  }

  /** One week on, the calculator's label counts up, or starts the next two-digit year, exactly
      when the first date is not in a bad New Year week and the second not in one that ends a
      year 99. */
  lemma NextWeekLabel(y: nat, d: nat)
    requires IsDate(y, d)
    ensures var w := WeekLater(y, d);
            ConvertWw(w.y, w.doy) in TwoDigitSuccessors(ConvertWw(y, d)) <==>
            !(InNewYearWeek(y, d) && BadYear(y)) && !(InNewYearWeek(w.y, w.doy) && w.y % 100 == 99)
  {
    var w := WeekLater(y, d);
    NewYearWeekTest(y, d);
    NewYearWeekTest(w.y, w.doy);
    YearSpan(y, d);
    YearSpan(w.y, w.doy);
    NextWeekCode(y, w.y, Week(y, 1), Week(y, d), Week(y + 1, 1), Week(w.y + 1, 1));
  }

  /** Different weeks are meant to have different labels. */
  lemma MeantLabelsDiffer(y1: nat, d1: nat, y2: nat, d2: nat)
    requires IsDate(y1, d1) && IsDate(y2, d2) && WeekLabel(y1, d1) == WeekLabel(y2, d2)
    ensures Week(y1, d1) == Week(y2, d2)
  {
  }
}
