/**
 The time stamp of a log line: seconds since 1970 turned into a civil date and a
 time of day, and printed. The calendar it must agree with is defined here on its
 own, month by month.
 */
module CivilDate {

  datatype Date = Date(y: nat, m: nat, d: nat)

  datatype Time = Time(hh: nat, mm: nat, ss: nat)

  // ---- The calendar -----------------------------------------------------------

  predicate IsLeap(y: nat) {
    y % 4 == 0 && (y % 100 != 0 || y % 400 == 0)
  }

  function DaysIn(y: nat, m: nat): nat {
    if m == 2 then (if IsLeap(y) then 29 else 28)
    else if m in {4, 6, 9, 11} then 30
    else 31
  }

  predicate IsDate(t: Date) {
    1 <= t.m <= 12 && 1 <= t.d <= DaysIn(t.y, t.m)
  }

  function NextDay(t: Date): Date {
    if t.d < DaysIn(t.y, t.m) then t.(d := t.d + 1)
    else if t.m < 12 then Date(t.y, t.m + 1, 1)
    else Date(t.y + 1, 1, 1)
  }

  const EPOCH: Date := Date(1970, 1, 1)

  /** The date `n` days after the epoch, by counting. */
  function DateAfter(n: nat): Date {
    if n == 0 then EPOCH else NextDay(DateAfter(n - 1))
  }

  predicate Before(a: Date, b: Date) {
    a.y < b.y || (a.y == b.y && (a.m < b.m || (a.m == b.m && a.d < b.d)))
  }

  // ---- The arithmetic ---------------------------------------------------------

  /** The year of an era that day `doe` falls in; years start in March. */
  function YearOfEra(doe: nat): nat
    requires doe < 146_097
  {
    (doe - doe / 1460 + doe / 36_524 - doe / 146_096) / 365
  }

  /** The days of an era before its year `yoe`. */
  function YearStart(yoe: nat): nat {
    365 * yoe + yoe / 4 - yoe / 100
  }

  /** The days of a March-based year before its month `mp`. */
  function MonthStart(mp: nat): nat {
    (153 * mp + 2) / 5
  }

  /** The date of day `doy` of the March-based year `year`. */
  function DateInYear(year: nat, doy: nat): Date
    requires doy <= 365
  {
    MonthBounds(doy);
    var mp := (5 * doy + 2) / 153;
    var d := doy - MonthStart(mp) + 1;
    var m := if mp < 10 then mp + 3 else mp - 9;
    Date(if m <= 2 then year + 1 else year, m, d)
  }

  /** The date of day `doe` of era `era`, a span of 400 years. */
  function InEra(era: nat, doe: nat): Date
    requires doe < 146_097
  {
    var yoe := YearOfEra(doe);
    YearBounds(doe);
    DateInYear(yoe + era * 400, doe - YearStart(yoe))
  }

  /** The date of a day count since the epoch. */
  function Civil(days: nat): Date {
    var z := days + 719_468;
    InEra(z / 146_097, z % 146_097)
  }

  function TimeOfDay(secs: nat): Time {
    var rem := secs % 86_400;
    Time(rem / 3600, (rem % 3600) / 60, rem % 60)
  }

  // ---- Its bounds -------------------------------------------------------------

  /** `YearOfEra` finds the year whose days contain `doe`; the last year ends with the era. */
  lemma YearBounds(doe: nat)
    requires doe < 146_097
    ensures var yoe := YearOfEra(doe);
      && yoe < 400
      && YearStart(yoe) <= doe
      && doe < (if yoe == 399 then 146_097 else YearStart(yoe + 1))
  {
    var (c, q, t, s) := Parts(doe);
    YearFromParts(doe, c, q, t, s);
    YearStartFromParts(c, q, t);
    if t < 3 {
      YearStartFromParts(c, q, t + 1);
    } else if q < 24 {
      YearStartFromParts(c, q + 1, 0);
    } else if c < 3 {
      YearStartFromParts(c + 1, 0, 0);
    }
  }

  /** Centuries, leap cycles of the century, years of the cycle, and days of the year of cycle. */
  function Parts(doe: nat): (p: (nat, nat, nat, nat))
    requires doe < 146_097
    ensures p.0 < 4 && p.1 < 25 && p.2 < 4 && 365 * p.2 <= p.3
    ensures doe == 36_524 * p.0 + 1461 * p.1 + p.3
    ensures p.2 < 3 ==> p.3 < 365 * (p.2 + 1)
    ensures p.3 <= 1460
    ensures p.3 == 1460 && p.1 == 24 ==> p.0 == 3
  {
    var c := if doe == 146_096 then 3 else doe / 36_524;
    var r := doe - 36_524 * c;
    var q := if r == 36_524 then 24 else r / 1461;
    var s := r - 1461 * q;
    (c, q, if s == 1460 then 3 else s / 365, s)
  }

  lemma YearFromParts(doe: nat, c: nat, q: nat, t: nat, s: nat)
    requires doe < 146_097 && Parts(doe) == (c, q, t, s)
    ensures YearOfEra(doe) == 100 * c + 4 * q + t
  {
    var carry := if 24 * c + q + s >= 1460 then 1 else 0;
    assert doe / 1460 == 25 * c + q + carry;
    assert doe / 36_524 - doe / 146_096 == c;
    assert doe - doe / 1460 + doe / 36_524 - doe / 146_096 == 365 * (100 * c + 4 * q) + s - carry;
    assert 365 * t <= s - carry < 365 * (t + 1);
  }

  lemma YearStartFromParts(c: nat, q: nat, t: nat)
    requires c < 4 && q < 25 && t < 4
    ensures YearStart(100 * c + 4 * q + t) == 36_524 * c + 1461 * q + 365 * t
  {
    var y := 100 * c + 4 * q + t;
    assert y / 4 == 25 * c + q;
    assert y / 100 == c;
  }

  lemma MonthBounds(doy: nat)
    requires doy <= 365
    ensures var mp := (5 * doy + 2) / 153;
      mp <= 11 && MonthStart(mp) <= doy < MonthStart(mp + 1)
  {
  }

  // ---- The arithmetic follows the calendar ------------------------------------

  function YearEnd(yoe: nat): nat {
    if yoe == 399 then 146_097 else YearStart(yoe + 1)
  }

  lemma YearStartGrows(a: nat, b: nat)
    requires a < b < 400
    ensures YearEnd(a) <= YearStart(b)
  {
    assert YearStart(a + 1) <= YearStart(b);
  }

  lemma YearIsUnique(doe: nat, yoe: nat)
    requires doe < 146_097 && yoe < 400 && YearStart(yoe) <= doe < YearEnd(yoe)
    ensures YearOfEra(doe) == yoe
  {
    YearBounds(doe);
    var found := YearOfEra(doe);
    if found < yoe {
      YearStartGrows(found, yoe);
    } else if yoe < found {
      YearStartGrows(yoe, found);
    }
  }

  lemma LeapRepeatsOnce(y: nat)
    ensures IsLeap(y + 400) == IsLeap(y)
  {
    assert (y + 400) % 4 == y % 4;
    assert (y + 400) % 100 == y % 100;
    assert (y + 400) % 400 == y % 400;
  }

  lemma {:induction false} LeapRepeats(y: nat, era: nat)
    ensures IsLeap(y + 400 * era) == IsLeap(y)
  {
    if era > 0 {
      LeapRepeats(y, era - 1);
      LeapRepeatsOnce(y + 400 * (era - 1));
    }
  }

  /** A year that starts in March is as long as the February it ends with. */
  lemma YearLength(yoe: nat)
    requires yoe < 400
    ensures YearEnd(yoe) - YearStart(yoe) == if IsLeap(yoe + 1) then 366 else 365
  {
  }

  lemma MonthIsUnique(doy: nat, mp: nat)
    requires doy <= 365 && mp <= 11 && MonthStart(mp) <= doy < MonthStart(mp + 1)
    ensures (5 * doy + 2) / 153 == mp
  {
  }

  lemma MonthLength(y: nat, mp: nat)
    requires mp <= 11
    ensures var len := MonthStart(mp + 1) - MonthStart(mp);
      if mp < 10 then DaysIn(y, mp + 3) == len
      else if mp == 10 then DaysIn(y, 1) == len
      else MonthStart(11) == 337 && DaysIn(y, 2) == if IsLeap(y) then 29 else 28
  {
    if mp == 0 {} else if mp == 1 {} else if mp == 2 {} else if mp == 3 {} else if mp == 4 {} else if mp == 5 {}
    else if mp == 6 {} else if mp == 7 {} else if mp == 8 {} else if mp == 9 {} else if mp == 10 {} else {}
  }

  lemma NextInMonth(y: nat, doy: nat, mp: nat)
    requires mp <= 11 && MonthStart(mp) <= doy && doy + 1 < MonthStart(mp + 1) && doy < 365
    requires mp == 11 ==> doy + 1 < 365 || IsLeap(y + 1)
    ensures IsDate(DateInYear(y, doy)) && NextDay(DateInYear(y, doy)) == DateInYear(y, doy + 1)
  {
    MonthIsUnique(doy, mp);
    MonthIsUnique(doy + 1, mp);
    MonthLength(if mp < 10 then y else y + 1, mp);
  }

  lemma NextInNewMonth(y: nat, doy: nat, mp: nat)
    requires mp < 11 && MonthStart(mp) <= doy && doy + 1 == MonthStart(mp + 1)
    ensures IsDate(DateInYear(y, doy)) && NextDay(DateInYear(y, doy)) == DateInYear(y, doy + 1)
  {
    MonthIsUnique(doy, mp);
    MonthIsUnique(doy + 1, mp + 1);
    MonthLength(if mp < 10 then y else y + 1, mp);
  }

  lemma NextInNewYear(y: nat, doy: nat)
    requires doy + 1 == if IsLeap(y + 1) then 366 else 365
    ensures IsDate(DateInYear(y, doy)) && NextDay(DateInYear(y, doy)) == DateInYear(y + 1, 0)
  {
    MonthLength(y + 1, 11);
    MonthIsUnique(doy, 11);
  }

  /** Inside a March-based year of `len` days, the arithmetic walks through the calendar. */
  lemma NextInYear(y: nat, doy: nat, len: nat)
    requires len == (if IsLeap(y + 1) then 366 else 365) && doy < len
    ensures IsDate(DateInYear(y, doy))
    ensures NextDay(DateInYear(y, doy)) ==
      if doy + 1 < len then DateInYear(y, doy + 1) else DateInYear(y + 1, 0)
  {
    MonthBounds(doy);
    var mp := (5 * doy + 2) / 153;
    if doy + 1 == len {
      NextInNewYear(y, doy);
    } else if doy + 1 < MonthStart(mp + 1) {
      NextInMonth(y, doy, mp);
    } else {
      NextInNewMonth(y, doy, mp);
    }
  }

  lemma InEraIsInYear(era: nat, doe: nat, yoe: nat)
    requires doe < 146_097 && yoe < 400 && YearStart(yoe) <= doe < YearEnd(yoe)
    ensures doe - YearStart(yoe) <= 365
    ensures InEra(era, doe) == DateInYear(yoe + era * 400, doe - YearStart(yoe))
  {
    YearIsUnique(doe, yoe);
  }

  /** The calendar step inside an era, on the dates of its years. */
  lemma StepInYear(era: nat, yoe: nat, doy: nat)
    requires yoe < 400 && YearStart(yoe) + doy < YearEnd(yoe)
    ensures doy <= 365 && IsDate(DateInYear(yoe + era * 400, doy))
    ensures YearStart(yoe) + doy + 1 < YearEnd(yoe) ==>
      doy + 1 <= 365 && NextDay(DateInYear(yoe + era * 400, doy)) == DateInYear(yoe + era * 400, doy + 1)
    ensures YearStart(yoe) + doy + 1 == YearEnd(yoe) ==>
      NextDay(DateInYear(yoe + era * 400, doy)) == DateInYear(yoe + era * 400 + 1, 0)
  {
    YearLength(yoe);
    LeapRepeats(yoe + 1, era);
    NextInYear(yoe + era * 400, doy, YearEnd(yoe) - YearStart(yoe));
  }

  lemma InEraIsDate(era: nat, doe: nat)
    requires doe < 146_097
    ensures IsDate(InEra(era, doe))
  {
    hide InEra, DateInYear, NextDay, IsDate;
    YearBounds(doe);
    var yoe := YearOfEra(doe);
    InEraIsInYear(era, doe, yoe);
    StepInYear(era, yoe, doe - YearStart(yoe));
  }

  /** `next` leads from `a` to `b`; keeps the rules of the calendar out of arithmetic proofs. */
  predicate Follows(next: Date -> Date, a: Date, b: Date) {
    next(a) == b
  }

  lemma FollowsInYear(era: nat, yoe: nat, doy: nat)
    requires yoe < 400 && YearStart(yoe) + doy + 1 < YearEnd(yoe)
    ensures doy + 1 <= 365
    ensures Follows(NextDay, DateInYear(yoe + era * 400, doy), DateInYear(yoe + era * 400, doy + 1))
  {
    StepInYear(era, yoe, doy);
  }

  lemma Rename(next: Date -> Date, a: Date, b: Date, a': Date, b': Date)
    requires a' == a && b' == b && Follows(next, a, b)
    ensures Follows(next, a', b')
  {
  }

  /** Days of one year, by their place in the era and by their place in the year. */
  lemma DayInYear(era: nat, yoe: nat, doy: nat)
    requires yoe < 400 && YearStart(yoe) + doy < YearEnd(yoe) <= 146_097
    ensures doy <= 365 && InEra(era, YearStart(yoe) + doy) == DateInYear(yoe + era * 400, doy)
  {
    hide InEra, DateInYear;
    InEraIsInYear(era, YearStart(yoe) + doy, yoe);
  }

  lemma NextSameYear(era: nat, yoe: nat, doy: nat)
    requires yoe < 400 && YearStart(yoe) + doy + 1 < YearEnd(yoe) <= 146_097
    ensures Follows(NextDay, InEra(era, YearStart(yoe) + doy), InEra(era, YearStart(yoe) + (doy + 1)))
  {
    hide InEra, DateInYear, NextDay;
    var y := yoe + era * 400;
    DayInYear(era, yoe, doy);
    DayInYear(era, yoe, doy + 1);
    FollowsInYear(era, yoe, doy);
    Rename(NextDay, DateInYear(y, doy), DateInYear(y, doy + 1),
      InEra(era, YearStart(yoe) + doy), InEra(era, YearStart(yoe) + (doy + 1)));
  }

  lemma FirstOfYear(era: nat, yoe: nat)
    requires yoe < 400
    ensures YearStart(yoe) < YearEnd(yoe) <= 146_097
    ensures InEra(era, YearStart(yoe)) == DateInYear(yoe + era * 400, 0)
  {
    YearLength(yoe);
    InEraIsInYear(era, YearStart(yoe), yoe);
  }

  lemma LastOfYear(era: nat, doe: nat, yoe: nat)
    requires yoe < 400 && YearStart(yoe) <= doe && doe + 1 == YearEnd(yoe) <= 146_097
    ensures NextDay(InEra(era, doe)) == DateInYear(yoe + era * 400 + 1, 0)
  {
    hide InEra, DateInYear, NextDay;
    StepInYear(era, yoe, doe - YearStart(yoe));
    InEraIsInYear(era, doe, yoe);
  }

  lemma NextNewYear(era: nat, doe: nat, yoe: nat)
    requires yoe < 399 && YearStart(yoe) <= doe && doe + 1 == YearEnd(yoe) < 146_097
    ensures NextDay(InEra(era, doe)) == InEra(era, doe + 1)
  {
    hide InEra, DateInYear, NextDay;
    LastOfYear(era, doe, yoe);
    FirstOfYear(era, yoe + 1);
  }

  lemma NextNewEra(era: nat)
    ensures NextDay(InEra(era, 146_096)) == InEra(era + 1, 0)
  {
    hide InEra, DateInYear, NextDay;
    YearIsUnique(146_096, 399);
    LastOfYear(era, 146_096, 399);
    FirstOfYear(era + 1, 0);
  }

  lemma NextInEra(era: nat, doe: nat)
    requires doe + 1 < 146_097
    ensures NextDay(InEra(era, doe)) == InEra(era, doe + 1)
  {
    hide InEra, NextDay;
    YearBounds(doe);
    var yoe := YearOfEra(doe);
    if doe + 1 < YearEnd(yoe) {
      NextSameYear(era, yoe, doe - YearStart(yoe));
    } else {
      NextNewYear(era, doe, yoe);
    }
  }

  lemma CivilEpoch()
    ensures Civil(0) == EPOCH
  {
    assert 719_468 / 146_097 == 4 && 719_468 % 146_097 == 135_080;
    assert YearStart(369) == 134_774 && YearEnd(369) == 135_139;
    InEraIsInYear(4, 135_080, 369);
    assert MonthStart(10) == 306;
  }

  lemma NextAcrossEras(z: nat, era: nat, doe: nat, era': nat, doe': nat)
    requires doe < 146_097 && doe' < 146_097
    requires z == 146_097 * era + doe && z + 1 == 146_097 * era' + doe'
    ensures NextDay(InEra(era, doe)) == InEra(era', doe')
  {
    if doe + 1 < 146_097 {
      assert era' == era;
      NextInEra(era, doe);
    } else {
      assert era' == era + 1;
      NextNewEra(era);
    }
  }

  lemma CivilInEra(days: nat) returns (era: nat, doe: nat)
    ensures doe < 146_097 && days + 719_468 == 146_097 * era + doe && Civil(days) == InEra(era, doe)
  {
    era, doe := (days + 719_468) / 146_097, (days + 719_468) % 146_097;
  }

  /** Each following day is the next day of the calendar. */
  lemma CivilStep(days: nat)
    ensures NextDay(Civil(days)) == Civil(days + 1)
  {
    hide Civil, InEra, NextDay;
    var era, doe := CivilInEra(days);
    var era', doe' := CivilInEra(days + 1);
    NextAcrossEras(days + 719_468, era, doe, era', doe');
  }

  lemma CivilIsDate(days: nat)
    ensures IsDate(Civil(days))
  {
    InEraIsDate((days + 719_468) / 146_097, (days + 719_468) % 146_097);
  }

  /** A walk through the calendar, one day at a time. */
  ghost predicate Walks(f: nat -> Date) {
    forall n: nat :: IsDate(f(n)) && f(n + 1) == NextDay(f(n))
  }

  lemma {:induction false} WalkIsCounting(f: nat -> Date, n: nat)
    requires Walks(f) && f(0) == EPOCH
    ensures f(n) == DateAfter(n)
  {
    if n > 0 {
      WalkIsCounting(f, n - 1);
      assert f(n - 1 + 1) == NextDay(f(n - 1));
    }
  }

  lemma {:induction false} WalkGrows(f: nat -> Date, a: nat, b: nat)
    requires Walks(f) && a < b
    ensures Before(f(a), f(b))
    decreases b - a
  {
    assert f(a + 1) == NextDay(f(a));
    if a + 1 < b {
      WalkGrows(f, a + 1, b);
    }
  }

  lemma CivilWalks()
    ensures Walks(Civil)
  {
    forall n: nat ensures IsDate(Civil(n)) && Civil(n + 1) == NextDay(Civil(n)) {
      CivilStep(n);
      CivilIsDate(n);
    }
  }

  /**
   For every day count the arithmetic gives the date found by counting days from 1970-01-01,
   so later days are later dates.
   */
  lemma CivilIsCounting(a: nat, b: nat)
    ensures Civil(a) == DateAfter(a) && IsDate(Civil(a))
    ensures a < b ==> Before(Civil(a), Civil(b))
  {
    CivilWalks();
    CivilEpoch();
    WalkIsCounting(Civil, a);
    if a < b {
      WalkGrows(Civil, a, b);
    }
  }

  /** A second count splits into its day and its time of day, each field in range. */
  lemma TimeIsExact(secs: nat)
    ensures var t := TimeOfDay(secs);
      && t.hh < 24 && t.mm < 60 && t.ss < 60
      && secs == 86_400 * (secs / 86_400) + 3600 * t.hh + 60 * t.mm + t.ss
  {
  }
}

/** The printed stamp `YYYY-MM-DD HH:MM:SS`. */
module TimeStamp {
  import opened CivilDate
  import opened Decimal

  function DateText(t: Date): string {
    Padded(t.y, 4) + ("-" + (Padded(t.m, 2) + ("-" + Padded(t.d, 2))))
  }

  function TimeText(t: Time): string {
    Padded(t.hh, 2) + (":" + (Padded(t.mm, 2) + (":" + Padded(t.ss, 2))))
  }

  function Stamp(secs: nat): string {
    DateText(Civil(secs / 86_400)) + (" " + TimeText(TimeOfDay(secs)))
  }

  /** The field of digits at `at` stands for `n`. */
  predicate Reads(text: string, at: nat, width: nat, n: nat) {
    at + width <= |text| && AllDigits(text[at..at + width]) && Value(text[at..at + width]) == n
  }

  /** The text is laid out as `YYYY-MM-DD hh:mm:ss`, with more digits for the year where it needs them. */
  predicate Laid(text: string, c: Date, u: Time) {
    var w := |text| - 15;
    && w >= 4 && (c.y <= 9999 ==> w == 4)
    && Reads(text, 0, w, c.y) && text[w] == '-' && Reads(text, w + 1, 2, c.m) && text[w + 3] == '-' && Reads(text, w + 4, 2, c.d)
    && text[w + 6] == ' ' && Reads(text, w + 7, 2, u.hh) && text[w + 9] == ':' && Reads(text, w + 10, 2, u.mm)
    && text[w + 12] == ':' && Reads(text, w + 13, 2, u.ss)
  }

  lemma Pieces(y: string, m: string, d: string, hh: string, mm: string, ss: string)
    requires |m| == |d| == |hh| == |mm| == |ss| == 2
    ensures var t := y + ("-" + (m + ("-" + d))) + (" " + (hh + (":" + (mm + (":" + ss)))));
      var w := |y|;
      && |t| == w + 15 && t[0..w] == y && t[w + 1..w + 3] == m && t[w + 4..w + 6] == d
      && t[w + 7..w + 9] == hh && t[w + 10..w + 12] == mm && t[w + 13..w + 15] == ss
      && t[w] == '-' && t[w + 3] == '-' && t[w + 6] == ' ' && t[w + 9] == ':' && t[w + 12] == ':'
  {
  }

  lemma TwoDigits(n: nat)
    requires n < 100
    ensures var s := Padded(n, 2); |s| == 2 && AllDigits(s) && Value(s) == n
  {
    Widths();
    PaddedReads(n, 2);
  }

  lemma TextsAreLaid(c: Date, u: Time)
    requires c.m < 100 && c.d < 100 && u.hh < 24 && u.mm < 60 && u.ss < 60
    ensures Laid(DateText(c) + (" " + TimeText(u)), c, u)
  {
    hide Padded, Value, AllDigits;
    Widths();
    PaddedReads(c.y, 4);
    TwoDigits(c.m);
    TwoDigits(c.d);
    TwoDigits(u.hh);
    TwoDigits(u.mm);
    TwoDigits(u.ss);
    Pieces(Padded(c.y, 4), Padded(c.m, 2), Padded(c.d, 2), Padded(u.hh, 2), Padded(u.mm, 2), Padded(u.ss, 2));
  }

  lemma DatesAreShort(c: Date)
    requires IsDate(c)
    ensures c.m < 100 && c.d < 100
  {
  }

  lemma StampIsLaid(secs: nat)
    ensures Laid(Stamp(secs), Civil(secs / 86_400), TimeOfDay(secs))
  {
    hide Civil, DateAfter, DateText, TimeText, TimeOfDay, Laid, IsDate;
    CivilIsCounting(secs / 86_400, secs / 86_400);
    TimeIsExact(secs);
    DatesAreShort(Civil(secs / 86_400));
    TextsAreLaid(Civil(secs / 86_400), TimeOfDay(secs));
  }

  /**
   Every field of a stamp can be read back: year, month and day of the date of its second, hour, minute and second of
   its time, each in its place and with its separators between.
   */
  lemma StampReadsBack(secs: nat)
    ensures var t, c, u := Stamp(secs), Civil(secs / 86_400), TimeOfDay(secs);
      var w := |t| - 15;
      && w >= 4 && (c.y <= 9999 ==> w == 4)
      && Reads(t, 0, w, c.y) && Reads(t, w + 1, 2, c.m) && Reads(t, w + 4, 2, c.d)
      && Reads(t, w + 7, 2, u.hh) && Reads(t, w + 10, 2, u.mm) && Reads(t, w + 13, 2, u.ss)
      && t[w] == t[w + 3] == '-' && t[w + 6] == ' ' && t[w + 9] == t[w + 12] == ':'
  {
    hide Stamp, Reads, Civil, TimeOfDay;
    StampIsLaid(secs);
  }

  /** So no two seconds have one stamp, in whatever year. */
  lemma StampsAreDistinct(a: nat, b: nat)
    requires a != b
    ensures Stamp(a) != Stamp(b)
  {
    hide Stamp, Reads, Civil, DateAfter, TimeOfDay, IsDate;
    if Stamp(a) == Stamp(b) {
      StampReadsBack(a);
      StampReadsBack(b);
      SameFields(Stamp(a), Civil(a / 86_400), Civil(b / 86_400), TimeOfDay(a), TimeOfDay(b));
      DaysAreDistinct(a / 86_400, b / 86_400);
      TimeIsExact(a);
      TimeIsExact(b);
    }
  }

  lemma DaysAreDistinct(a: nat, b: nat)
    requires Civil(a) == Civil(b)
    ensures a == b
  {
    hide Civil, DateAfter, IsDate;
    if a < b {
      CivilIsCounting(a, b);
    } else if b < a {
      CivilIsCounting(b, a);
    }
  }

  lemma SameFields(t: string, c: Date, c': Date, u: Time, u': Time)
    requires |t| >= 15 && Reads(t, 0, |t| - 15, c.y) && Reads(t, 0, |t| - 15, c'.y)
    requires var w := |t| - 15;
      && Reads(t, w + 1, 2, c.m) && Reads(t, w + 4, 2, c.d) && Reads(t, w + 7, 2, u.hh)
      && Reads(t, w + 10, 2, u.mm) && Reads(t, w + 13, 2, u.ss)
      && Reads(t, w + 1, 2, c'.m) && Reads(t, w + 4, 2, c'.d) && Reads(t, w + 7, 2, u'.hh)
      && Reads(t, w + 10, 2, u'.mm) && Reads(t, w + 13, 2, u'.ss)
    ensures c == c' && u == u'
  {
  }

  /** A field of `k` digits decides the order of two texts, or leaves it to the rest. */
  lemma FieldFirst(a: nat, b: nat, k: nat, x: string, y: string)
    requires k > 0 && a < Pow10(k) && b < Pow10(k)
    requires a < b || (a == b && TextBefore(x, y))
    ensures TextBefore(Padded(a, k) + x, Padded(b, k) + y)
  {
    if a < b {
      PaddedOrder(a, b, k);
    }
    BeforeByPrefix(Padded(a, k), Padded(b, k), x, y);
  }

  lemma Widths()
    ensures Pow10(2) == 100 && Pow10(4) == 10_000
  {
    assert Pow10(1) == 10;
    assert Pow10(3) == 1000;
  }

  lemma DateTextOrder(a: Date, b: Date)
    requires IsDate(a) && IsDate(b) && Before(a, b) && b.y <= 9999
    ensures TextBefore(DateText(a), DateText(b))
  {
    Widths();
    var da, db := Padded(a.d, 2), Padded(b.d, 2);
    if a.y == b.y {
      if a.m == b.m {
        PaddedOrder(a.d, b.d, 2);
        BeforeByPrefix("-", "-", da, db);
      }
      FieldFirst(a.m, b.m, 2, "-" + da, "-" + db);
      BeforeByPrefix("-", "-", Padded(a.m, 2) + ("-" + da), Padded(b.m, 2) + ("-" + db));
    }
    FieldFirst(a.y, b.y, 4, "-" + (Padded(a.m, 2) + ("-" + da)), "-" + (Padded(b.m, 2) + ("-" + db)));
  }

  predicate Earlier(a: Time, b: Time) {
    a.hh < b.hh || (a.hh == b.hh && (a.mm < b.mm || (a.mm == b.mm && a.ss < b.ss)))
  }

  lemma TimeTextOrder(a: Time, b: Time)
    requires b.hh < 24 && a.mm < 60 && b.mm < 60 && a.ss < 60 && b.ss < 60 && Earlier(a, b)
    ensures TextBefore(TimeText(a), TimeText(b))
  {
    Widths();
    var sa, sb := Padded(a.ss, 2), Padded(b.ss, 2);
    if a.hh == b.hh {
      if a.mm == b.mm {
        PaddedOrder(a.ss, b.ss, 2);
        BeforeByPrefix(":", ":", sa, sb);
      }
      FieldFirst(a.mm, b.mm, 2, ":" + sa, ":" + sb);
      BeforeByPrefix(":", ":", Padded(a.mm, 2) + (":" + sa), Padded(b.mm, 2) + (":" + sb));
    }
    FieldFirst(a.hh, b.hh, 2, ":" + (Padded(a.mm, 2) + (":" + sa)), ":" + (Padded(b.mm, 2) + (":" + sb)));
  }

  lemma EarlierSameDay(a: nat, b: nat)
    requires a < b && a / 86_400 == b / 86_400
    ensures Earlier(TimeOfDay(a), TimeOfDay(b))
  {
    TimeIsExact(a);
    TimeIsExact(b);
  }

  /** Up to the year 9999 the stamps of later seconds are later as texts. */
  lemma StampsAreOrdered(a: nat, b: nat)
    requires a < b && Civil(b / 86_400).y <= 9999
    ensures TextBefore(Stamp(a), Stamp(b))
  {
    var ta, tb := " " + TimeText(TimeOfDay(a)), " " + TimeText(TimeOfDay(b));
    CivilIsCounting(a / 86_400, b / 86_400);
    CivilIsCounting(b / 86_400, b / 86_400);
    if a / 86_400 < b / 86_400 {
      DateTextOrder(Civil(a / 86_400), Civil(b / 86_400));
    } else {
      EarlierSameDay(a, b);
      TimeIsExact(a);
      TimeIsExact(b);
      TimeTextOrder(TimeOfDay(a), TimeOfDay(b));
      BeforeByPrefix(" ", " ", TimeText(TimeOfDay(a)), TimeText(TimeOfDay(b)));
    }
    BeforeByPrefix(DateText(Civil(a / 86_400)), DateText(Civil(b / 86_400)), ta, tb);
  }

  const LAST_DAY: nat := 2_932_896

  lemma LastDays()
    ensures Civil(LAST_DAY) == Date(9999, 12, 31)
    ensures Civil(LAST_DAY + 1) == Date(10_000, 1, 1)
  {
    var z := LAST_DAY + 719_468;
    assert z / 146_097 == 24 && z % 146_097 == 146_036 && (z + 1) / 146_097 == 24 && (z + 1) % 146_097 == 146_037;
    assert YearStart(399) == 145_731;
    InEraIsInYear(24, 146_036, 399);
    InEraIsInYear(24, 146_037, 399);
    assert MonthStart(9) == 275 && MonthStart(10) == 306;
  }

  lemma HeadsDecide(a: nat, b: nat)
    requires Padded(Civil(a / 86_400).y, 4)[0] > Padded(Civil(b / 86_400).y, 4)[0]
    ensures !TextBefore(Stamp(a), Stamp(b))
  {
    FirstCharDecides(Stamp(a), Stamp(b));
  }

  lemma Heads()
    ensures Padded(9999, 4)[0] == '9' && Padded(10_000, 4)[0] == '1'
  {
    assert Digits(9999) == "9999" && Digits(10_000) == "10000";
  }

  const LAST_SECOND: nat := 86_400 * LAST_DAY + 86_399

  /** After the last second of the year 9999 the order of the texts is not the order of the seconds. */
  lemma FiveDigitYearsAreOutOfOrder()
    ensures !TextBefore(Stamp(LAST_SECOND), Stamp(LAST_SECOND + 1))
    ensures Civil(LAST_SECOND / 86_400) == Date(9999, 12, 31) && Civil((LAST_SECOND + 1) / 86_400) == Date(10_000, 1, 1)
  {
    LastDays();
    Heads();
    assert LAST_SECOND / 86_400 == LAST_DAY && (LAST_SECOND + 1) / 86_400 == LAST_DAY + 1;
    HeadsDecide(LAST_SECOND, LAST_SECOND + 1);
  }

  lemma FirstCharDecides(a: string, b: string)
    requires a != "" && b != "" && a[0] > b[0]
    ensures !TextBefore(a, b)
  {
    forall i: nat | i < |a| && i < |b| ensures !DiffersAt(a, b, i) {
      if i > 0 {
        assert a[..i][0] != b[..i][0];
      }
    }
  }

  /** Up to second `n` every later second has a later text. */
  ghost predicate SortedUpTo(n: nat) {
    forall a: nat, b: nat :: a < b <= n ==> TextBefore(Stamp(a), Stamp(b))
  }

  lemma YearsUpTo(b: nat)
    requires b <= LAST_SECOND
    ensures Civil(b / 86_400).y <= 9999
  {
    assert b / 86_400 <= LAST_DAY;
    LastDays();
    if b / 86_400 < LAST_DAY { CivilIsCounting(b / 86_400, LAST_DAY); }
  }

  /** The texts sort as the times they stand for exactly up to the last second of the year 9999. */
  lemma StampsSortExactly(n: nat)
    ensures SortedUpTo(n) <==> n <= LAST_SECOND
  {
    if n <= LAST_SECOND {
      forall a: nat, b: nat | a < b <= n ensures TextBefore(Stamp(a), Stamp(b)) {
        YearsUpTo(b);
        StampsAreOrdered(a, b);
      }
    } else {
      FiveDigitYearsAreOutOfOrder();
    }
  }
}
