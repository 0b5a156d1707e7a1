/**
 * The simulated clock of the trading environment.
 *
 * Time advances in integer ticks ("epochs"): two ticks per calendar day, the
 * even one for the opening session and the odd one for the closing session.
 * Calendar dates are day ordinals, so the date of a tick is the start date
 * plus floor(tick / 2) days. Dafny's `/` on `int` with the positive divisor 2
 * rounds towards minus infinity exactly like Python's `//`, so tick -1 (the
 * tick a reset starts from) belongs to the day before the start date.
 */
module Calendar {
  import opened Wrappers
  import opened Errors

  datatype Session = Open | Close

  /** A (date, session) pair, the value of `get_date_and_time`. */
  datatype Moment = Moment(day: int, session: Session)

  /** The increment at which the calendar search gives up (it is never tested itself). */
  const SkipLimit: int := 20

  function DayOf(start: int, tick: int): int
  {
    start + tick / 2
  }

  function SessionOf(tick: int): Session
  {
    if tick % 2 == 0 then Open else Close
  }

  /**
   * The date and session a tick addresses. The date is the floor of half the
   * tick past the start, and the session is the opening one exactly when the
   * tick falls on the first half of that date.
   */
  function DateAndTime(start: int, tick: int): (m: Moment)
    ensures 2 * (m.day - start) <= tick < 2 * (m.day - start) + 2
    ensures m.session == Open <==> tick == 2 * (m.day - start)
  {
    Moment(DayOf(start, tick), SessionOf(tick))
  }

  lemma ResetTickIsDayBeforeStart(start: int)
    ensures DateAndTime(start, -1) == Moment(start - 1, Close)
  {
  }

  /**
   * The episode bound set when the date range is accepted: twice the number
   * of days from the start to the end date. An inverted range is refused.
   */
  function MaxEpochs(start: int, end: int): (r: Result<int, Error>)
    ensures r.Success? <==> start <= end
    ensures r.Failure? ==> r.error == InvalidDateRange
    ensures r.Success? ==> r.value >= 0 && DateAndTime(start, r.value) == Moment(end, Open)
  {
    var epochs := end - start;
    if !(epochs >= 0) then Failure(InvalidDateRange) else Success(epochs * 2)
  }

  /**
   * An episode is over once the tick reaches the bound, which happens exactly
   * when the simulated date reaches the end date.
   */
  predicate IsDoneAt(tick: int, maxEpochs: int)
  {
    tick >= maxEpochs
  }

  lemma {:induction false} DoneIffEndDateReached(start: int, end: int, tick: int)
    requires start <= end
    ensures MaxEpochs(start, end).Success?
    ensures IsDoneAt(tick, MaxEpochs(start, end).value) <==> DayOf(start, tick) >= end
  {
    var d := end - start;
    assert MaxEpochs(start, end).value == 2 * d;
    if tick >= 2 * d {
      assert tick / 2 >= d by { DivMono(2 * d, tick); }
    } else {
      assert tick / 2 < d by { DivMono(tick, 2 * d - 1); }
    }
  }

  lemma DivMono(x: int, y: int)
    requires x <= y
    ensures x / 2 <= y / 2
  {
  }

  /** The date `tick + incr` addresses is listed among the trading days `days`. */
  predicate ListedAfter(days: set<int>, start: int, tick: int, incr: int)
  {
    DayOf(start, tick + incr) in days
  }

  /**
   * The calendar search of `increment_date` from increment `incr` on: the
   * first increment below the skip limit whose date is listed, or None.
   */
  function SkipFrom(days: set<int>, start: int, tick: int, incr: int): (r: Option<int>)
    requires 1 <= incr < SkipLimit
    ensures r.Some? ==> incr <= r.value < SkipLimit && ListedAfter(days, start, tick, r.value)
    ensures r.Some? ==> forall j :: incr <= j < r.value ==> !ListedAfter(days, start, tick, j)
    ensures r.None? ==> forall j :: incr <= j < SkipLimit ==> !ListedAfter(days, start, tick, j)
    decreases SkipLimit - incr
  {
    if ListedAfter(days, start, tick, incr) then Some(incr)
    else if incr + 1 >= SkipLimit then None
    else SkipFrom(days, start, tick, incr + 1)
  }

  /**
   * The increment `increment_date` adds to the tick: the least increment in
   * 1..19 whose date is listed; None when all nineteen dates are missing.
   */
  function FirstValidIncrement(days: set<int>, start: int, tick: int): (r: Option<int>)
    ensures r.Some? ==> 1 <= r.value < SkipLimit && ListedAfter(days, start, tick, r.value)
    ensures r.Some? ==> forall j :: 1 <= j < r.value ==> !ListedAfter(days, start, tick, j)
    ensures r.None? ==> forall j :: 1 <= j < SkipLimit ==> !ListedAfter(days, start, tick, j)
  {
    SkipFrom(days, start, tick, 1)
  }

  /**
   * The tick `increment_date` moves to from `tick`, or the error it raises,
   * which names the date of increment 20.
   */
  function Advance(days: set<int>, start: int, tick: int): (r: Result<int, Error>)
    ensures r.Success? ==> tick < r.value < tick + SkipLimit && DayOf(start, r.value) in days
    ensures r.Success? ==> forall t :: tick < t < r.value ==> DayOf(start, t) !in days
    ensures r.Failure? ==> forall t :: tick < t < tick + SkipLimit ==> DayOf(start, t) !in days
    ensures r.Failure? ==> r.error == CalendarSearchExhausted(DayOf(start, tick + SkipLimit))
  {
    match FirstValidIncrement(days, start, tick)
    case Some(k) =>
      UnlistedTicks(days, start, tick, k);
      Success(tick + k)
    case None =>
      UnlistedTicks(days, start, tick, SkipLimit);
      Failure(CalendarSearchExhausted(DayOf(start, tick + SkipLimit)))
  }

  /** Restates "increments 1..k-1 are unlisted" in terms of the ticks they reach. */
  lemma UnlistedTicks(days: set<int>, start: int, tick: int, k: int)
    requires forall j :: 1 <= j < k ==> !ListedAfter(days, start, tick, j)
    ensures forall t :: tick < t < tick + k ==> DayOf(start, t) !in days
  {
    forall t | tick < t < tick + k
      ensures DayOf(start, t) !in days
    {
      assert !ListedAfter(days, start, tick, t - tick);
    }
  }

  /**
   * Weekend skip: from the closing session of a Friday whose Saturday and
   * Sunday are missing and whose Monday is listed, one advance lands on the
   * Monday opening session, five ticks later.
   */
  lemma {:induction false} WeekendSkip(days: set<int>, start: int, friday: int)
    requires friday + 1 !in days && friday + 2 !in days && friday + 3 in days
    ensures Advance(days, start, 2 * (friday - start) + 1) == Success(2 * (friday - start) + 6)
    ensures DateAndTime(start, 2 * (friday - start) + 6) == Moment(friday + 3, Open)
  {
    var tick := 2 * (friday - start) + 1;
    assert DayOf(start, tick + 1) == friday + 1 && DayOf(start, tick + 2) == friday + 1;
    assert DayOf(start, tick + 3) == friday + 2 && DayOf(start, tick + 4) == friday + 2;
    assert DayOf(start, tick + 5) == friday + 3;
    assert SkipFrom(days, start, tick, 5) == Some(5);
  }

  /**
   * A gap of missing dates covering every date the nineteen increments reach
   * makes the search give up instead of running on.
   */
  lemma {:induction false} GapExhaustsSearch(days: set<int>, start: int, tick: int)
    requires forall d :: DayOf(start, tick + 1) <= d <= DayOf(start, tick + SkipLimit - 1) ==> d !in days
    ensures Advance(days, start, tick).Failure?
  {
    match FirstValidIncrement(days, start, tick)
    case Some(k) =>
      DivMono(tick + 1, tick + k);
      DivMono(tick + k, tick + SkipLimit - 1);
    case None =>
  }
}
