/** Dates changed in place with setDate, setMonth and setHours (section 21.4.4 of ECMA-262), the
    billing windows and the expiry cutoffs built with them. Days are counted from 1 January 1970,
    months are counted as 12 * year + month with January as month 0, every day has 86400 seconds. */
module Calendar {

  const DAY_MS := 86400000

  // ---- Day numbers (section 21.4.1 of ECMA-262) ---------------------------------------

  predicate Leap(y: int) { y % 4 == 0 && (y % 100 != 0 || y % 400 == 0) }

  function DayFromYear(y: int): int {
    365 * (y - 1970) + (y - 1969) / 4 - (y - 1901) / 100 + (y - 1601) / 400
  }

  /** The number of days before month `m` of a common year. */
  function DaysBefore(m: int): int
    requires 0 <= m < 12
  {
    [0, 31, 59, 90, 120, 151, 181, 212, 243, 273, 304, 334][m]
  }

  /** The day number of the first day of month `k`. */
  function First(k: int): int {
    DayFromYear(k / 12) + DaysBefore(k % 12) + if k % 12 > 1 && Leap(k / 12) then 1 else 0
  }

  /** The length of month `k`. */
  function Len(k: int): (n: int)
    ensures 28 <= n <= 31
  {
    if k % 12 == 1 then (if Leap(k / 12) then 29 else 28)
    else if k % 12 in {3, 5, 8, 10} then 30
    else 31
  }

  /** MakeDay: any date within a month counts on from its first day, over the month's end or before
      its beginning. */
  function MakeDay(k: int, date: int): int { First(k) + date - 1 }

  lemma FourYears(y: int)
    ensures (y - 1968) / 4 - (y - 1969) / 4 == (if y % 4 == 0 then 1 else 0)
  {
  }

  lemma Century(y: int)
    ensures (y - 1900) / 100 - (y - 1901) / 100 == (if y % 100 == 0 then 1 else 0)
  {
  }

  lemma FourCenturies(y: int)
    ensures (y - 1600) / 400 - (y - 1601) / 400 == (if y % 400 == 0 then 1 else 0)
  {
  }

  lemma LeapRule(y: int)
    ensures y % 400 == 0 ==> y % 100 == 0
    ensures y % 100 == 0 ==> y % 4 == 0
  {
    assert y % 100 == 0 ==> y == 4 * (25 * (y / 100));
    assert y % 400 == 0 ==> y == 100 * (4 * (y / 400));
  }

  lemma YearLength(y: int)
    ensures DayFromYear(y + 1) - DayFromYear(y) == if Leap(y) then 366 else 365
  {
    FourYears(y);
    Century(y);
    FourCenturies(y);
    LeapRule(y);
  }

  /** The months follow each other without gap or overlap. */
  lemma FirstNext(k: int)
    ensures First(k + 1) == First(k) + Len(k)
  {
    if k % 12 == 11 {
      YearLength(k / 12);
      assert (k + 1) / 12 == k / 12 + 1 && (k + 1) % 12 == 0;
    } else {
      assert (k + 1) / 12 == k / 12 && (k + 1) % 12 == k % 12 + 1;
    }
  }

  /** Stretches laid end to end: the end of an earlier one is not after the start of a later one. */
  lemma {:induction false} EndToEnd(start: int -> int, length: int -> int, a: int, b: int)
    requires a < b
    requires forall k :: start(k + 1) == start(k) + length(k) && length(k) >= 0
    ensures start(a) + length(a) <= start(b)
    decreases b - a
  {
    assert start(b - 1 + 1) == start(b - 1) + length(b - 1);
    if a < b - 1 { EndToEnd(start, length, a, b - 1); }
  }

  lemma FirstIncreases(a: int, b: int)
    requires a < b
    ensures First(a) + Len(a) <= First(b)
  {
    var start, length := (k: int) => First(k), (k: int) => Len(k);
    forall k ensures start(k + 1) == start(k) + length(k) && length(k) >= 0 { FirstNext(k); }
    EndToEnd(start, length, a, b);
  }

  // ---- Civil dates --------------------------------------------------------------------

  /** Day `date` of month `month`. */
  datatype Civil = Civil(month: int, date: int)

  predicate IsDate(c: Civil) { 1 <= c.date <= Len(c.month) }

  /** Walk month by month to the month the date falls in. */
  function Normalize(k: int, date: int): (c: Civil)
    ensures IsDate(c)
    decreases if date < 1 then 1 - date else date
  {
    if date < 1 then
      if date + Len(k - 1) >= 1 then Civil(k - 1, date + Len(k - 1)) else Normalize(k - 1, date + Len(k - 1))
    else if date > Len(k) then Normalize(k + 1, date - Len(k))
    else Civil(k, date)
  }

  lemma {:induction false} NormalizeDay(k: int, date: int)
    ensures MakeDay(Normalize(k, date).month, Normalize(k, date).date) == MakeDay(k, date)
    decreases if date < 1 then 1 - date else date
  {
    hide First, Len;
    if date < 1 {
      FirstNext(k - 1);
      if date + Len(k - 1) < 1 { NormalizeDay(k - 1, date + Len(k - 1)); }
    } else if date > Len(k) {
      FirstNext(k);
      NormalizeDay(k + 1, date - Len(k));
    }
  }

  /** The month and date of a day. */
  function CivilOf(day: int): (c: Civil)
    ensures IsDate(c)
  {
    Normalize(23640, day + 1)   // 12 * 1970
  }

  lemma FirstOfEpoch()
    ensures First(23640) == 0
  {
  }

  /** The lengths of the months of year `y`, and how long a day is. */
  lemma MonthLengths(y: int, m: nat)
    requires m < 12
    ensures Len(12 * y + m) ==
              if m == 1 && (y % 400 == 0 || (y % 4 == 0 && y % 100 != 0)) then 29
              else [31, 28, 31, 30, 31, 30, 31, 31, 30, 31, 30, 31][m]
    ensures DAY_MS == 24 * 60 * 60 * 1000
  {
    assert (12 * y + m) / 12 == y && (12 * y + m) % 12 == m;
  }

  /** Every day has a date, and a date is the date of exactly one day. */
  lemma CivilOfIff(day: int, c: Civil)
    requires IsDate(c)
    ensures CivilOf(day) == c <==> MakeDay(c.month, c.date) == day
  {
    hide First, Len, Normalize;
    NormalizeDay(23640, day + 1);
    FirstOfEpoch();
    var e := CivilOf(day);
    if MakeDay(c.month, c.date) == day {
      if c.month < e.month { FirstIncreases(c.month, e.month); }
      else if e.month < c.month { FirstIncreases(e.month, c.month); }
    }
  }

  // ---- Date objects -------------------------------------------------------------------

  class JsDate {
    var day: int   // days since the epoch
    var ms: int    // milliseconds within the day

    constructor (day: int, ms: int)
      ensures this.day == day && this.ms == ms
    {
      this.day, this.ms := day, ms;
    }

    function Time(): int
      reads this
    {
      day * DAY_MS + ms
    }

    function GetDate(): int
      reads this
    {
      CivilOf(day).date
    }

    function GetMonth(): int
      reads this
    {
      CivilOf(day).month % 12
    }

    method SetDate(date: int)
      modifies `day
      ensures day == MakeDay(CivilOf(old(day)).month, date)
    {
      day := MakeDay(CivilOf(day).month, date);
    }

    /** The month counts from January of the date's year and may lie outside 0..11. */
    method SetMonth(month: int)
      modifies `day
      ensures day == MakeDay(CivilOf(old(day)).month - CivilOf(old(day)).month % 12 + month, CivilOf(old(day)).date)
    {
      var c := CivilOf(day);
      day := MakeDay(c.month - c.month % 12 + month, c.date);
    }

    method SetHours(h: int, m: int, s: int, milli: int)
      modifies this
      ensures Time() == old(day) * DAY_MS + ((h * 60 + m) * 60 + s) * 1000 + milli
      ensures 0 <= h < 24 && 0 <= m < 60 && 0 <= s < 60 && 0 <= milli < 1000 ==> day == old(day) && 0 <= ms < DAY_MS
    {
      var t := ((h * 60 + m) * 60 + s) * 1000 + milli;
      day, ms := day + t / DAY_MS, t % DAY_MS;
    }
  }

  // ---- Billing windows ----------------------------------------------------------------

  /** The beginning of month `k`, and the last whole second before it. */
  function Begin(k: int): int { First(k) * DAY_MS }
  function LastSecondBefore(k: int): int { Begin(k) - 1000 }

  lemma MonthOfFirst(k: int)
    ensures CivilOf(First(k)) == Civil(k, 1)
  {
    CivilOfIff(First(k), Civil(k, 1));
  }

  /** Where the same date one month back ends up: in the previous month if that has such a date, and
      else back in the month one started from. */
  lemma MonthBack(k: int, date: int)
    requires 1 <= date <= Len(k)
    ensures CivilOf(MakeDay(k - 1, date)).month == if date <= Len(k - 1) then k - 1 else k
  {
    FirstNext(k - 1);
    if date <= Len(k - 1) {
      CivilOfIff(MakeDay(k - 1, date), Civil(k - 1, date));
    } else {
      CivilOfIff(MakeDay(k - 1, date), Civil(k, date - Len(k - 1)));
    }
  }

  /** The window for bills on date `c`: its beginning and its end. */
  function WindowOn(c: Civil): (int, int) {
    (if c.date <= Len(c.month - 1) then Begin(c.month - 1) else Begin(c.month), LastSecondBefore(c.month))
  }

  /** It is the whole previous month exactly when that month has the date, and else it is empty. */
  lemma WindowWholeIff(c: Civil)
    ensures WindowOn(c) == (Begin(c.month - 1), LastSecondBefore(c.month)) <==> c.date <= Len(c.month - 1)
    ensures WindowOn(c).1 < WindowOn(c).0 <==> c.date > Len(c.month - 1)
  {
    hide First, Len;
    FirstNext(c.month - 1);
  }

  lemma February2023()
    ensures Len(24277) == 28 && Len(24278) == 31
  {
    assert 24277 / 12 == 2023 && 24277 % 12 == 1 && 24278 % 12 == 2;
  }

  /** On 31 March 2023 the window is empty: February has no 31st. */
  lemma EmptyOnMarch31()
    ensures var march := 24278;   // 12 * 2023 + 2
            var c := CivilOf(MakeDay(march, 31));
            c == Civil(march, 31) && WindowOn(c).1 < WindowOn(c).0
  {
    hide First, Len, CivilOf, WindowOn;
    February2023();
    CivilOfIff(MakeDay(24278, 31), Civil(24278, 31));
    WindowWholeIff(Civil(24278, 31));
  }

  /** What createUserBill and getUsersToBill compute on day `day` at time `ms`. */
  method BillingWindow(day: int, ms: int) returns (from: int, to: int)
    ensures (from, to) == WindowOn(CivilOf(day))
    ensures (from, to) == (Begin(CivilOf(day).month - 1), LastSecondBefore(CivilOf(day).month)) <==>
            CivilOf(day).date <= Len(CivilOf(day).month - 1)
    ensures CivilOf(day).date > Len(CivilOf(day).month - 1) <==> to < from
  {
    hide First, Len, CivilOf;
    ghost var c := CivilOf(day);
    CivilOfIff(day, c);
    var toDate := new JsDate(day, ms);
    toDate.SetHours(23, 59, 59, 0);
    toDate.SetDate(1);
    MonthOfFirst(c.month);
    toDate.SetDate(toDate.GetDate() - 1);
    to := toDate.Time();

    var fromDate := new JsDate(day, ms);
    fromDate.SetMonth(fromDate.GetMonth() - 1);
    MonthBack(c.month, c.date);
    fromDate.SetHours(0, 0, 0, 0);
    fromDate.SetDate(1);
    from := fromDate.Time();
    WindowWholeIff(c);
  }

  /** The window for billing in month `k`: the whole of month k - 1, to the second. */
  predicate InWindow(k: int, t: int) { Begin(k - 1) <= t <= LastSecondBefore(k) }

  /** The month an instant lies in. */
  function MonthAt(t: int): int { CivilOf(t / DAY_MS).month }

  lemma MonthAtIff(t: int, k: int)
    ensures MonthAt(t) == k <==> Begin(k) <= t < Begin(k + 1)
  {
    hide First, Len, CivilOf;
    var d := t / DAY_MS;
    var c := CivilOf(d);
    CivilOfIff(d, c);
    FirstNext(c.month);
    assert First(c.month) <= d < First(c.month + 1);
    assert Begin(c.month) <= t < Begin(c.month + 1);
    if k < c.month { FirstIncreases(k, c.month); FirstNext(k); }
    if c.month < k { FirstIncreases(c.month, k); }
  }

  lemma WholeSeconds(days: int, t: int)
    requires t < days * DAY_MS && t % 1000 == 0
    ensures t <= days * DAY_MS - 1000
  {
    assert days * DAY_MS == 1000 * (86400 * days);
    assert t == 1000 * (t / 1000);
  }

  /** An instant is in the window for month `k` exactly when it lies in month k - 1 and not in the
      last, broken, second of it. So windows never overlap, successive windows are one second apart,
      and every instant on a whole second is in exactly one. */
  lemma WindowsPartition(t: int, k: int)
    ensures InWindow(k, t) <==> k == MonthAt(t) + 1 && t <= LastSecondBefore(k)
    ensures t % 1000 == 0 ==> InWindow(MonthAt(t) + 1, t)
    ensures Begin(k) == LastSecondBefore(k) + 1000
  {
    hide First, Len, CivilOf, MonthAt;
    MonthAtIff(t, k - 1);
    MonthAtIff(t, MonthAt(t));
    if t % 1000 == 0 { WholeSeconds(First(MonthAt(t) + 1), t); }
  }

  // ---- Expiry cutoffs -----------------------------------------------------------------

  lemma DaysBack(day: int, back: int)
    requires 0 <= back <= 28
    ensures var c := CivilOf(day);
            CivilOf(day - back).date == if c.date > back then c.date - back else c.date - back + Len(c.month - 1)
  {
    hide First, CivilOf, Len;
    var c := CivilOf(day);
    CivilOfIff(day, c);
    FirstNext(c.month - 1);
    if c.date > back {
      CivilOfIff(day - back, Civil(c.month, c.date - back));
    } else {
      CivilOfIff(day - back, Civil(c.month - 1, c.date - back + Len(c.month - 1)));
    }
  }

  /** How many days back the cutoff for sponsored invitations lies. */
  function OsmoDays(c: Civil): int {
    if c.date > 5 then 35 else 35 - Len(c.month - 1)
  }

  /** The two cutoffs of checkExpiredInvitation: exactly 5 days back for money sent by users; for
      sponsored invitations 35 days back, or 35 less the previous month's length in the first five
      days of a month, because the second setDate is applied to the current month. */
  method ExpiryCutoffs(day: int, ms: int) returns (userCutoff: int, osmoCutoff: int)
    ensures userCutoff == (day - 5) * DAY_MS + ms
    ensures osmoCutoff == (day - OsmoDays(CivilOf(day))) * DAY_MS + ms
  {
    CivilOfIff(day, CivilOf(day));
    DaysBack(day, 5);
    var fiveDaysAgo := new JsDate(day, ms);
    fiveDaysAgo.SetDate(fiveDaysAgo.GetDate() - 5);
    var monthAgo := new JsDate(day, ms);
    monthAgo.SetDate(fiveDaysAgo.GetDate() - 30);
    userCutoff, osmoCutoff := fiveDaysAgo.Time(), monthAgo.Time();
  }

  /** The cutoff for sponsored invitations is never the documented 30 days back. It is 35 days back
      exactly from the sixth of a month on; before that it is at most a week back, and after a month
      of 31 days less than the five days that users' own money gets. */
  lemma OsmoDaysExact(day: int)
    ensures var c := CivilOf(day);
            OsmoDays(c) != 30 &&
            (OsmoDays(c) == 35 <==> c.date > 5) &&
            (c.date <= 5 ==> 4 <= OsmoDays(c) <= 7) &&
            (OsmoDays(c) < 5 <==> c.date <= 5 && Len(c.month - 1) == 31)
  {
  }
}
