/** internal/traffic/tracker.go, the monthly resets, and internal/traffic/network.go,
    periodStart: billing periods in a zone of fixed offset. Times are seconds since
    the epoch; a month is its year times twelve plus its number from 0. */
module Calendar {
  import opened Options

  datatype Reset = Reset(day: int, hour: int, offset: int) {
    // resetLocation
    predicate Valid() { 1 <= day <= 31 && 0 <= hour <= 23 }
  }

  const EPOCH: int := 1970 * 12

  predicate LeapYear(year: int) { year % 4 == 0 && (year % 100 != 0 || year % 400 == 0) }

  function DaysIn(month: int): (days: int)
    ensures 28 <= days <= 31
  {
    var m := month % 12;
    if m == 1 then (if LeapYear(month / 12) then 29 else 28)
    else if m == 3 || m == 5 || m == 8 || m == 10 then 30
    else 31
  }

  // The day number of the first of a month.
  function FirstDay(month: int): int
    decreases if month >= EPOCH then month - EPOCH else EPOCH - month
  {
    if month == EPOCH then 0
    else if month > EPOCH then FirstDay(month - 1) + DaysIn(month - 1)
    else FirstDay(month + 1) - DaysIn(month)
  }

  lemma MonthLength(month: int)
    ensures FirstDay(month + 1) == FirstDay(month) + DaysIn(month)
  {
  }

  lemma {:induction false} LaterMonth(a: int, b: int)
    requires a <= b
    ensures FirstDay(b) >= FirstDay(a) + 28 * (b - a)
    decreases b - a
  {
    if a < b {
      LaterMonth(a, b - 1);
      MonthLength(b - 1);
    }
  }

  predicate InMonth(day: int, month: int) { FirstDay(month) <= day < FirstDay(month + 1) }

  lemma OneMonth(day: int, a: int, b: int)
    requires InMonth(day, a) && InMonth(day, b)
    ensures a == b
  {
    if a < b { LaterMonth(a + 1, b); }
    if b < a { LaterMonth(b + 1, a); }
  }

  function Onward(day: int, month: int): (m: int)
    requires FirstDay(month) <= day
    ensures InMonth(day, m)
    decreases day - FirstDay(month)
  {
    MonthLength(month);
    if day < FirstDay(month + 1) then month else Onward(day, month + 1)
  }

  function Backward(day: int, month: int): (m: int)
    requires day < FirstDay(month)
    ensures InMonth(day, m)
    decreases FirstDay(month) - day
  {
    MonthLength(month - 1);
    if FirstDay(month - 1) <= day then month - 1 else Backward(day, month - 1)
  }

  function MonthOfDay(day: int): (m: int)
    ensures InMonth(day, m)
  {
    if day >= 0 then Onward(day, EPOCH) else Backward(day, EPOCH)
  }

  // The local month of an instant.
  function MonthOf(t: int, r: Reset): int { MonthOfDay((t + r.offset) / 86400) }

  // monthlyResetIn: the day is clamped to the month's length.
  function ResetIn(month: int, r: Reset): int {
    (FirstDay(month) + (if r.day < DaysIn(month) then r.day else DaysIn(month)) - 1) * 86400 + r.hour * 3600 - r.offset
  }

  function NextMonthlyReset(after: int, r: Reset): Option<int> {
    if !r.Valid() then None
    else
      var month := MonthOf(after, r);
      Some(if ResetIn(month, r) > after then ResetIn(month, r) else ResetIn(month + 1, r))
  }

  function PreviousMonthlyReset(next: int, r: Reset): Option<int> {
    if !r.Valid() then None else Some(ResetIn(MonthOf(next, r) - 1, r))
  }

  // periodStart, for the monthly mode.
  function Period(now: int, r: Reset): Option<(int, int)> {
    var next := NextMonthlyReset(now, r);
    if next.None? then None
    else
      var previous := PreviousMonthlyReset(next.value, r);
      if previous.None? then None else Some((previous.value, next.value))
  }

  // A reset falls in its own month.
  lemma ResetInMonth(month: int, r: Reset)
    requires r.Valid()
    ensures MonthOf(ResetIn(month, r), r) == month
    ensures FirstDay(month) * 86400 <= ResetIn(month, r) + r.offset < FirstDay(month + 1) * 86400
  {
    var day := FirstDay(month) + (if r.day < DaysIn(month) then r.day else DaysIn(month)) - 1;
    MonthLength(month);
    assert InMonth(day, month);
    assert (ResetIn(month, r) + r.offset) / 86400 == day;
    OneMonth(day, month, MonthOfDay(day));
  }

  lemma ResetsAscend(a: int, b: int, r: Reset)
    requires r.Valid() && a < b
    ensures ResetIn(a, r) < ResetIn(b, r)
  {
    ResetInMonth(a, r);
    ResetInMonth(b, r);
    LaterMonth(a + 1, b);
  }

  // The month whose reset comes next.
  function NextMonth(now: int, r: Reset): int {
    if ResetIn(MonthOf(now, r), r) > now then MonthOf(now, r) else MonthOf(now, r) + 1
  }

  lemma NextIsAhead(now: int, r: Reset)
    requires r.Valid()
    ensures ResetIn(NextMonth(now, r) - 1, r) <= now < ResetIn(NextMonth(now, r), r)
  {
    var month, day := MonthOf(now, r), (now + r.offset) / 86400;
    assert InMonth(day, month) && day * 86400 <= now + r.offset < (day + 1) * 86400;
    ResetInMonth(month - 1, r);
    ResetInMonth(month + 1, r);
  }

  lemma PeriodIs(now: int, r: Reset)
    requires r.Valid()
    ensures Period(now, r) == Some((ResetIn(NextMonth(now, r) - 1, r), ResetIn(NextMonth(now, r), r)))
  {
    ResetInMonth(NextMonth(now, r), r);
  }

  // Which period an instant is in.
  lemma PeriodFrom(t: int, month: int, r: Reset)
    requires r.Valid() && ResetIn(month - 1, r) <= t < ResetIn(month, r)
    ensures Period(t, r) == Some((ResetIn(month - 1, r), ResetIn(month, r)))
  {
    PeriodIs(t, r);
    NextIsAhead(t, r);
    var n := NextMonth(t, r);
    if n < month { ResetsAscendWeak(n, month - 1, r); }
    if month < n { ResetsAscendWeak(month, n - 1, r); }
  }

  lemma ResetsAscendWeak(a: int, b: int, r: Reset)
    requires r.Valid() && a <= b
    ensures ResetIn(a, r) <= ResetIn(b, r)
  {
    if a < b { ResetsAscend(a, b, r); }
  }

  lemma NoResetInside(month: int, r: Reset, m: int)
    requires r.Valid()
    ensures !(ResetIn(month - 1, r) < ResetIn(m, r) < ResetIn(month, r))
  {
    if m <= month - 1 { ResetsAscendWeak(m, month - 1, r); } else { ResetsAscendWeak(month, m, r); }
  }

  /** For every day, hour, month length and offset: the period holds the present
      moment, no other reset lies inside it, every moment of it is in the same
      period, and the period that begins at its end begins exactly there, however
      the days are clamped. */
  lemma PeriodsPartitionTime(now: int, r: Reset, m: int, t: int)
    ensures Period(now, r).Some? <==> r.Valid()
    ensures r.Valid() ==> var (start, next) := Period(now, r).value;
      start <= now < next && !(start < ResetIn(m, r) < next) &&
      (start <= t < next ==> Period(t, r) == Period(now, r)) &&
      Period(next, r).Some? && Period(next, r).value.0 == next
  {
    if r.Valid() {
      var month := NextMonth(now, r);
      PeriodIs(now, r);
      NextIsAhead(now, r);
      NoResetInside(month, r, m);
      if ResetIn(month - 1, r) <= t < ResetIn(month, r) { PeriodFrom(t, month, r); }
      ResetsAscend(month, month + 1, r);
      PeriodFrom(ResetIn(month, r), month + 1, r);
    }
  }
}
