/** Disruption windows (internal/utils/temporal.go): a weekly timeline with a fixed zone offset per window. */
module Windows {
  import opened Wrappers
  import opened Types

  const WEEK: int := 7 * DAY

  /** The local day an instant falls on, counted from 1 January 1970. */
  function LocalDay(t: int, offset: int): int {
    (t + offset) / DAY
  }

  /** Go's names, Sunday first; day 0 was a Thursday. */
  const WEEKDAYS: seq<string> :=
    ["Sunday", "Monday", "Tuesday", "Wednesday", "Thursday", "Friday", "Saturday"]

  function Weekday(day: int): string {
    WEEKDAYS[(day + 4) % 7]
  }

  predicate ActiveOn(w: DisruptionWindow, day: int) {
    w.daysOfWeek == [] || Weekday(day) in w.daysOfWeek
  }

  predicate Parses(w: DisruptionWindow) {
    w.zoneOffset.Some? && w.start.Some? && w.end.Some?
  }

  /** Start and end are times of day, as HH:MM parses. */
  predicate TimesOfDay(w: DisruptionWindow) {
    Parses(w) ==> 0 <= w.start.value < DAY && 0 <= w.end.value < DAY
  }

  // ----- What a window means -----

  /**
   * The window that starts on local day `day` is open at `t`. It is an open interval; one that ends before it
   * starts runs into the next day; one that ends when it starts is the whole local day.
   */
  predicate OpenFrom(w: DisruptionWindow, day: int, t: int)
    requires Parses(w)
  {
    var s, e, local := w.start.value, w.end.value, t + w.zoneOffset.value;
    if s < e then day * DAY + s < local < day * DAY + e
    else if s > e then day * DAY + s < local < (day + 1) * DAY + e
    else day * DAY <= local < (day + 1) * DAY
  }

  /** Over the unbounded timeline: some active start day, any integer day, opens the window at `t`. */
  ghost predicate Contains(w: DisruptionWindow, t: int) {
    Parses(w) && exists day: int :: ActiveOn(w, day) && OpenFrom(w, day, t)
  }

  ghost predicate InSomeWindow(windows: seq<DisruptionWindow>, t: int) {
    windows == [] || exists w :: w in windows && Contains(w, t)
  }

  // ----- How the source evaluates one -----

  function EvaluateSameDayWindow(start: int, end: int, now: int): (bool, int) {
    if start < now < end || start == end then (true, end - now)
    else if now < start then (false, if start - now < WEEK then start - now else WEEK)
    else (false, WEEK)
  }

  function EvaluateCrossMidnightWindow(start: int, end: int, now: int, today: bool, yesterday: bool): (bool, int) {
    if today && start < now then (true, end + DAY - now)
    else if yesterday && now < end then (true, end - now)
    else if today && now < start then (false, start - now)
    else (false, WEEK)
  }

  function EvaluateWindow(start: int, end: int, now: int, today: bool, yesterday: bool): (bool, int) {
    if end < start then EvaluateCrossMidnightWindow(start, end, now, today, yesterday)
    else if !today then (false, WEEK)
    else EvaluateSameDayWindow(start, end, now)
  }

  /** One window at `now`, anchored to the current local day. */
  function Evaluate(w: DisruptionWindow, now: int): (bool, int)
    requires Parses(w)
  {
    var offset := w.zoneOffset.value;
    var day := LocalDay(now, offset);
    var midnight := day * DAY - offset;
    EvaluateWindow(midnight + w.start.value, midnight + w.end.value, now, ActiveOn(w, day), ActiveOn(w, day - 1))
  }

  lemma DayBounds(t: int, offset: int)
    ensures LocalDay(t, offset) * DAY <= t + offset < (LocalDay(t, offset) + 1) * DAY
  {
  }

  /** A day on which the window opens at `t` is today or yesterday. */
  lemma OpensTodayOrYesterday(w: DisruptionWindow, day: int, t: int)
    requires Parses(w) && TimesOfDay(w) && OpenFrom(w, day, t)
    ensures var today := LocalDay(t, w.zoneOffset.value);
      day == today || (day == today - 1 && w.end.value < w.start.value)
  {
    DayBounds(t, w.zoneOffset.value);
  }

  /** Looking at today and yesterday decides membership in the unbounded timeline. */
  lemma EvaluationIsMembership(w: DisruptionWindow, now: int)
    requires Parses(w) && TimesOfDay(w)
    ensures Evaluate(w, now).0 <==> Contains(w, now)
    ensures !Evaluate(w, now).0 ==> 0 < Evaluate(w, now).1 <= WEEK
  {
    var offset := w.zoneOffset.value;
    var today := LocalDay(now, offset);
    DayBounds(now, offset);
    assert (today - 1) * DAY == today * DAY - DAY && (today + 1) * DAY == today * DAY + DAY;
    if Evaluate(w, now).0 {
      if ActiveOn(w, today) && OpenFrom(w, today, now) {
      } else {
        assert ActiveOn(w, today - 1) && OpenFrom(w, today - 1, now);
      }
    }
    if Contains(w, now) {
      var day :| ActiveOn(w, day) && OpenFrom(w, day, now);
      OpensTodayOrYesterday(w, day, now);
    }
  }

  // ----- What that means by the clock and the calendar -----

  /** The week in Go's order, from the Thursday on which the count of days starts. */
  lemma WeekdaysFollow(day: int)
    ensures Weekday(0) == "Thursday" && Weekday(day + 7) == Weekday(day)
    ensures Weekday(day) == "Thursday" ==> Weekday(day + 1) == "Friday"
    ensures Weekday(day) == "Friday" ==> Weekday(day + 1) == "Saturday"
    ensures Weekday(day) == "Saturday" ==> Weekday(day + 1) == "Sunday"
    ensures Weekday(day) == "Sunday" ==> Weekday(day + 1) == "Monday"
    ensures Weekday(day) == "Monday" ==> Weekday(day + 1) == "Tuesday"
    ensures Weekday(day) == "Tuesday" ==> Weekday(day + 1) == "Wednesday"
    ensures Weekday(day) == "Wednesday" ==> Weekday(day + 1) == "Thursday"
  {
    var i := (day + 4) % 7;
    assert (day + 1 + 4) % 7 == if i == 6 then 0 else i + 1;
    assert WEEKDAYS[i][0] == if i == 0 || i == 6 then 'S' else if i == 1 then 'M' else if i == 3 then 'W' else
      if i == 5 then 'F' else 'T';
    assert WEEKDAYS[i][1] == if i == 0 || i == 2 then 'u' else if i == 1 then 'o' else if i == 3 then 'e' else
      if i == 4 then 'h' else if i == 5 then 'r' else 'a';
  }

  /** The time of day that the window's clock shows at `t`. */
  function Clock(w: DisruptionWindow, t: int): int
    requires Parses(w)
  {
    (t + w.zoneOffset.value) % DAY
  }

  function Today(w: DisruptionWindow, t: int): int
    requires Parses(w)
  {
    (t + w.zoneOffset.value) / DAY
  }

  /** By the clock: from start to end on its days, past midnight if it ends before it starts, or all day long. */
  lemma WindowByClock(w: DisruptionWindow, t: int)
    requires TimesOfDay(w)
    ensures Contains(w, t) <==>
      && Parses(w)
      && var s, e, clock, today := w.start.value, w.end.value, Clock(w, t), Today(w, t);
         var isDay := w.daysOfWeek == [] || Weekday(today) in w.daysOfWeek;
         var wasDay := w.daysOfWeek == [] || Weekday(today - 1) in w.daysOfWeek;
         if s < e then isDay && s < clock < e
         else if e < s then (isDay && s < clock) || (wasDay && clock < e)
         else isDay
    ensures InSomeWindow([], t)
  {
    if Parses(w) {
      EvaluationIsMembership(w, t);
    }
  }

  // ----- When the wait of a closed window is the time until it opens -----

  const MINUTE: int := 60 * SECOND

  /** Start and end are whole minutes, as HH:MM parses. */
  predicate WholeMinutes(w: DisruptionWindow) {
    Parses(w) ==> w.start.value % MINUTE == 0 && w.end.value % MINUTE == 0
  }

  /** None of the days that the window names is a weekday. */
  predicate NamesNoWeekday(w: DisruptionWindow) {
    w.daysOfWeek != [] && forall i | 0 <= i < 7 :: WEEKDAYS[i] !in w.daysOfWeek
  }

  /** The window starts later today. */
  predicate StartsToday(w: DisruptionWindow, now: int)
    requires Parses(w)
  {
    ActiveOn(w, Today(w, now)) && Clock(w, now) < w.start.value
  }

  lemma SomeDayIsActive(w: DisruptionWindow, today: int) returns (day: int)
    requires !NamesNoWeekday(w)
    ensures today <= day < today + 7 && ActiveOn(w, day)
  {
    day := today;
    if w.daysOfWeek != [] {
      var i :| 0 <= i < 7 && WEEKDAYS[i] in w.daysOfWeek;
      var ahead := (i - (today + 4)) % 7;
      day := today + ahead;
      assert (day + 4) % 7 == i;
    }
  }

  lemma NeverOpens(w: DisruptionWindow, t: int)
    requires Parses(w) && NamesNoWeekday(w)
    ensures !Contains(w, t)
  {
  }

  lemma AtClock(w: DisruptionWindow, now: int, days: int, clock: int)
    requires Parses(w) && 0 <= clock < DAY
    ensures var t := now + (days * DAY + clock - Clock(w, now));
      Clock(w, t) == clock && Today(w, t) == Today(w, now) + days
  {
    var t := now + (days * DAY + clock - Clock(w, now));
    assert t + w.zoneOffset.value == (Today(w, now) + days) * DAY + clock;
  }

  /** The first instant of the window that starts so many days from now. */
  function FirstInstant(w: DisruptionWindow, now: int, days: int): int
    requires Parses(w)
  {
    now + (days * DAY + (w.start.value + if w.start == w.end then 0 else 1) - Clock(w, now))
  }

  lemma OpensAtFirstInstant(w: DisruptionWindow, now: int, days: int)
    requires Parses(w) && TimesOfDay(w) && WholeMinutes(w) && ActiveOn(w, Today(w, now) + days)
    ensures Contains(w, FirstInstant(w, now, days))
  {
    AtClock(w, now, days, w.start.value + if w.start == w.end then 0 else 1);
    WindowByClock(w, FirstInstant(w, now, days));
  }

  lemma WithinWeek(days: int, start: int, end: int, clock: int)
    requires 0 <= clock < DAY && 0 <= start < DAY && start % MINUTE == 0
    requires 0 <= days <= 7
    requires days == 0 ==> clock == start != end
    requires days == 7 ==> start + 1 < clock
    ensures 0 < days * DAY + (start + if start == end then 0 else 1) - clock < WEEK
  {
    assert start + 1 < DAY;
  }

  /** The next start day of a closed window that does not start later today. */
  lemma NextStartDay(w: DisruptionWindow, now: int) returns (days: int)
    requires Parses(w) && TimesOfDay(w) && WholeMinutes(w) && !Contains(w, now)
    requires !NamesNoWeekday(w) && !StartsToday(w, now)
    ensures 0 <= days <= 7 && ActiveOn(w, Today(w, now) + days)
    ensures days == 0 ==> Clock(w, now) == w.start.value != w.end.value
    ensures days == 7 ==> w.start.value + 1 < Clock(w, now)
  {
    var today := Today(w, now);
    WindowByClock(w, now);
    days := 0;
    if !ActiveOn(w, today) {
      var day := SomeDayIsActive(w, today);
      days := day - today;
    } else if Clock(w, now) > w.start.value {
      days := 7;
      WeekdaysFollow(today);
    }
  }

  /** Such a window opens within a week. */
  lemma OpensWithinWeek(w: DisruptionWindow, now: int) returns (t: int)
    requires Parses(w) && TimesOfDay(w) && WholeMinutes(w) && !Contains(w, now)
    requires !NamesNoWeekday(w) && !StartsToday(w, now)
    ensures now < t < now + WEEK && Contains(w, t)
  {
    var days := NextStartDay(w, now);
    WithinWeek(days, w.start.value, w.end.value, Clock(w, now));
    OpensAtFirstInstant(w, now, days);
    t := FirstInstant(w, now, days);
  }

  lemma StaysClosedUntilStart(w: DisruptionWindow, now: int, t: int)
    requires Parses(w) && TimesOfDay(w) && !Contains(w, now)
    requires StartsToday(w, now) && now <= t <= now + (w.start.value - Clock(w, now))
    ensures !Contains(w, t)
  {
    AtClock(w, now, 0, Clock(w, now) + (t - now));
    WindowByClock(w, now);
    WindowByClock(w, t);
  }

  lemma WaitOfClosed(w: DisruptionWindow, now: int)
    requires Parses(w) && TimesOfDay(w) && !Contains(w, now)
    ensures Evaluate(w, now).1 == if StartsToday(w, now) then w.start.value - Clock(w, now) else WEEK
  {
    EvaluationIsMembership(w, now);
    DayBounds(now, w.zoneOffset.value);
  }

  /** No opening of the window is later than `now` and earlier than a wait from now. */
  ghost predicate MissesNothing(w: DisruptionWindow, now: int, wait: int) {
    forall t | now <= t < now + wait :: !Contains(w, t)
  }

  lemma ClosedUntilStart(w: DisruptionWindow, now: int)
    requires Parses(w) && TimesOfDay(w) && WholeMinutes(w) && !Contains(w, now) && StartsToday(w, now)
    ensures var wait := w.start.value - Clock(w, now);
      MissesNothing(w, now, wait) && Contains(w, now + wait + 1)
  {
    var wait := w.start.value - Clock(w, now);
    WindowByClock(w, now);
    OpensAtFirstInstant(w, now, 0);
    forall t | now <= t < now + wait ensures !Contains(w, t) {
      StaysClosedUntilStart(w, now, t);
    }
  }

  /**
   * The wait of a closed window misses no opening exactly if the window starts later today, in which case it opens
   * right after the wait, or can never open at all.
   */
  lemma WaitIsExactExactlyIfStartsToday(w: DisruptionWindow, now: int)
    requires Parses(w) && TimesOfDay(w) && WholeMinutes(w) && !Contains(w, now)
    ensures MissesNothing(w, now, Evaluate(w, now).1) <==> StartsToday(w, now) || NamesNoWeekday(w)
    ensures StartsToday(w, now) ==> Contains(w, now + Evaluate(w, now).1 + 1)
  {
    WaitOfClosed(w, now);
    if StartsToday(w, now) {
      ClosedUntilStart(w, now);
    } else if NamesNoWeekday(w) {
      forall t ensures !Contains(w, t) {
        NeverOpens(w, t);
      }
    } else {
      var t := OpensWithinWeek(w, now);
    }
  }

  // ----- All windows -----

  /** The least of the windows' waits, and of a week. */
  ghost predicate IsLeastWait(wait: int, windows: seq<DisruptionWindow>, now: int) {
    && wait <= WEEK && (forall w | w in windows && Parses(w) :: wait <= Evaluate(w, now).1)
    && (wait == WEEK || exists w :: w in windows && Parses(w) && Evaluate(w, now).1 == wait)
  }

  /** One iteration: the window's state and wait are taken into account unless it does not parse. */
  method AddWindow(now: int, w: DisruptionWindow, ghost before: seq<DisruptionWindow>, inWindow: bool, wait: int)
    returns (inWindow': bool, wait': int)
    requires TimesOfDay(w) && IsLeastWait(wait, before, now) && (!inWindow ==> wait > 0)
    ensures inWindow' <==> inWindow || Contains(w, now)
    ensures IsLeastWait(wait', before + [w], now) && (!inWindow' ==> wait' > 0)
  {
    inWindow', wait' := inWindow, wait;
    if Parses(w) {
      EvaluationIsMembership(w, now);
      var day := LocalDay(now, w.zoneOffset.value);
      if ActiveOn(w, day) || ActiveOn(w, day - 1) {
        var (inCurrent, waitForCurrent) := Evaluate(w, now);
        inWindow' := inWindow || inCurrent;
        wait' := if waitForCurrent < wait then waitForCurrent else wait;
      }
    }
    assert forall x | x in before :: x in before + [w];
    assert w in before + [w];
  }

  method IsTimeInWindows(now: int, windows: seq<DisruptionWindow>) returns (inWindow: bool, wait: int)
    requires forall w | w in windows :: TimesOfDay(w)
    ensures inWindow <==> InSomeWindow(windows, now)
    ensures !inWindow ==> 0 < wait <= WEEK
    ensures windows == [] ==> wait == 0
    ensures windows != [] ==> IsLeastWait(wait, windows, now)
  {
    if windows == [] {
      return true, 0;
    }
    inWindow, wait := false, WEEK;
    for i := 0 to |windows|
      invariant inWindow <==> exists w :: w in windows[..i] && Contains(w, now)
      invariant !inWindow ==> wait > 0
      invariant IsLeastWait(wait, windows[..i], now)
    {
      assert windows[..i + 1] == windows[..i] + [windows[i]];
      inWindow, wait := AddWindow(now, windows[i], windows[..i], inWindow, wait);
    }
    assert windows[..|windows|] == windows;
  }
}
