/** The day view: working hours minus the times of day of every window that touches the date. */
module Slots {
  import opened Prelude
  import opened Calendar
  import opened CalendarSafety
  import opened Availability

  function TimeOfDay(instant: int): int { instant % DAY }
  function DateOf(instant: int): int { instant / DAY }

  /** One day of the working-hours document. */
  datatype DayHours = DayHours(active: bool, start: Option<int>, end: Option<int>)

  /** The last instant a `time` can name. */
  const LAST_OF_DAY: int := DAY - 1

  predicate Selected(start: int, end: int, date: int) {
    start < date * DAY + LAST_OF_DAY && end > date * DAY
  }

  predicate BookingSelected(b: Booking, technician: int, date: int) {
    && b.technician == technician && Active(b.status)
    && b.start.Some? && b.end.Some? && Selected(b.start.value, b.end.value, date)
  }

  predicate BlackoutSelected(b: Blackout, technician: int, date: int) {
    b.technician == technician && Selected(b.start, b.end, date)
  }

  function Project(start: int, end: int): Block { Block(TimeOfDay(start), TimeOfDay(end)) }

  /** The projected windows of the selected rows, in table order. */
  function BookingCuts(bookings: seq<Booking>, technician: int, date: int): seq<Block> {
    if bookings == [] then []
    else
      var earlier := BookingCuts(bookings[..|bookings| - 1], technician, date);
      var b := bookings[|bookings| - 1];
      if BookingSelected(b, technician, date) then earlier + [Project(b.start.value, b.end.value)] else earlier
  }

  function BlackoutCuts(blackouts: seq<Blackout>, technician: int, date: int): seq<Block> {
    if blackouts == [] then []
    else
      var earlier := BlackoutCuts(blackouts[..|blackouts| - 1], technician, date);
      var b := blackouts[|blackouts| - 1];
      if BlackoutSelected(b, technician, date) then earlier + [Project(b.start, b.end)] else earlier
  }

  /** What `get_technician_availability` returns; hours that are active but unset make it fail. */
  function DaySlots(hours: Option<DayHours>, cal: Cal, technician: int, date: int): Tx<seq<Block>> {
    if hours.None? || !hours.value.active then Commit([])
    else if hours.value.start.None? || hours.value.end.None? then Abort(Crashed)
    else
      var whole := [Block(hours.value.start.value, hours.value.end.value)];
      Commit(SubtractAll(SubtractAll(whole, BookingCuts(cal.bookings, technician, date)),
                         BlackoutCuts(cal.blackouts, technician, date)))
  }

  method GetAvailability(hours: Option<DayHours>, cal: Cal, technician: int, date: int) returns (slots: Tx<seq<Block>>)
    ensures slots == DaySlots(hours, cal, technician, date)
  {
    if hours.None? || !hours.value.active {
      return Commit([]);
    }
    if hours.value.start.None? || hours.value.end.None? {
      return Abort(Crashed);
    }
    var whole := [Block(hours.value.start.value, hours.value.end.value)];
    var free := whole;
    var i := 0;
    while i < |cal.bookings|
      invariant 0 <= i <= |cal.bookings|
      invariant free == SubtractAll(whole, BookingCuts(cal.bookings[..i], technician, date))
    {
      var b := cal.bookings[i];
      assert cal.bookings[..i + 1][..i] == cal.bookings[..i];
      if BookingSelected(b, technician, date) {
        SubtractAllAppend(whole, BookingCuts(cal.bookings[..i], technician, date), Project(b.start.value, b.end.value));
        free := SubtractRange(free, Project(b.start.value, b.end.value));
      }
      i := i + 1;
    }
    assert cal.bookings[..i] == cal.bookings;
    var booked := free;
    var k := 0;
    while k < |cal.blackouts|
      invariant 0 <= k <= |cal.blackouts|
      invariant free == SubtractAll(booked, BlackoutCuts(cal.blackouts[..k], technician, date))
    {
      var b := cal.blackouts[k];
      assert cal.blackouts[..k + 1][..k] == cal.blackouts[..k];
      if BlackoutSelected(b, technician, date) {
        SubtractAllAppend(booked, BlackoutCuts(cal.blackouts[..k], technician, date), Project(b.start, b.end));
        free := SubtractRange(free, Project(b.start, b.end));
      }
      k := k + 1;
    }
    assert cal.blackouts[..k] == cal.blackouts;
    slots := Commit(free);
  }

  // ---------------------------------------------------------------- what one window takes out

  /** The window really contains this time of this date. */
  predicate Occupies(start: int, end: int, date: int, t: int) {
    start <= date * DAY + t < end
  }

  /** The view takes this time of this date out because of the window. */
  predicate Shadows(start: int, end: int, date: int, t: int) {
    Selected(start, end, date) && TimeOfDay(start) <= t < TimeOfDay(end)
  }

  predicate TouchesDate(start: int, end: int, date: int) { start < date * DAY + DAY && date * DAY < end }

  /** The window ends on this date, and starts on it or at a midnight before. */
  predicate Projectable(start: int, end: int, date: int) {
    DateOf(end) == date && (DateOf(start) == date || TimeOfDay(start) == 0)
  }

  lemma OnDate(instant: int, date: int)
    ensures DateOf(instant) == date <==> date * DAY <= instant < date * DAY + DAY
    ensures DateOf(instant) == date ==> TimeOfDay(instant) == instant - date * DAY
  {
    assert instant == DateOf(instant) * DAY + TimeOfDay(instant);
  }

  lemma ProjectableExact(start: int, end: int, date: int, t: int)
    requires start < end && 0 <= t < DAY
    requires !TouchesDate(start, end, date) || Projectable(start, end, date)
    ensures Shadows(start, end, date, t) <==> Occupies(start, end, date, t)
  {
    OnDate(start, date);
    OnDate(end, date);
  }

  /** A time of day at which view and window disagree, for any window that is not projectable. */
  function Witness(start: int, end: int, date: int): (t: int)
    requires start < end && TouchesDate(start, end, date) && !Projectable(start, end, date)
    ensures 0 <= t < DAY
  {
    var from := Max(0, start - date * DAY);
    var until := if end - date * DAY < DAY then end - date * DAY else DAY;
    if until == DAY then DAY - 1 else from
  }

  lemma UnprojectableWrong(start: int, end: int, date: int)
    requires start < end && TouchesDate(start, end, date) && !Projectable(start, end, date)
    ensures var t := Witness(start, end, date);
            Occupies(start, end, date, t) && !Shadows(start, end, date, t)
  {
    OnDate(start, date);
    OnDate(end, date);
  }

  /** The view takes out exactly what a window occupies of a date if and only if the window does not touch
      the date, or ends on it and starts on it or at an earlier midnight. */
  lemma WindowExact(start: int, end: int, date: int)
    requires start < end
    ensures (forall t :: 0 <= t < DAY ==> (Shadows(start, end, date, t) <==> Occupies(start, end, date, t))) <==>
            (!TouchesDate(start, end, date) || Projectable(start, end, date))
  {
    if !TouchesDate(start, end, date) || Projectable(start, end, date) {
      forall t | 0 <= t < DAY ensures Shadows(start, end, date, t) <==> Occupies(start, end, date, t) {
        ProjectableExact(start, end, date, t);
      }
    } else {
      UnprojectableWrong(start, end, date);
      var t := Witness(start, end, date);
      assert 0 <= t < DAY && Occupies(start, end, date, t) && !Shadows(start, end, date, t);
    }
  }

  // ---------------------------------------------------------------- the whole view

  lemma {:induction false} BookingCutsCover(bookings: seq<Booking>, technician: int, date: int, t: int)
    ensures Covers(BookingCuts(bookings, technician, date), t) <==>
            exists i :: 0 <= i < |bookings| && BookingSelected(bookings[i], technician, date) &&
                        Shadows(bookings[i].start.value, bookings[i].end.value, date, t)
  {
    if bookings != [] {
      var n := |bookings| - 1;
      var b := bookings[n];
      BookingCutsCover(bookings[..n], technician, date, t);
      if BookingSelected(b, technician, date) {
        var cut := Project(b.start.value, b.end.value);
        CoversConcat(BookingCuts(bookings[..n], technician, date), [cut], t);
        assert Covers([cut], t) <==> Within(cut, t) by { assert [cut][0] == cut; }
      }
      assert forall i :: 0 <= i < n ==> bookings[i] == bookings[..n][i];
    }
  }

  lemma {:induction false} BlackoutCutsCover(blackouts: seq<Blackout>, technician: int, date: int, t: int)
    ensures Covers(BlackoutCuts(blackouts, technician, date), t) <==>
            exists k :: 0 <= k < |blackouts| && blackouts[k].technician == technician &&
                        Shadows(blackouts[k].start, blackouts[k].end, date, t)
  {
    if blackouts != [] {
      var n := |blackouts| - 1;
      var b := blackouts[n];
      BlackoutCutsCover(blackouts[..n], technician, date, t);
      if BlackoutSelected(b, technician, date) {
        var cut := Project(b.start, b.end);
        CoversConcat(BlackoutCuts(blackouts[..n], technician, date), [cut], t);
        assert Covers([cut], t) <==> Within(cut, t) by { assert [cut][0] == cut; }
      }
      assert forall k :: 0 <= k < n ==> blackouts[k] == blackouts[..n][k];
    }
  }

  /** The technician really is busy at this time of this date. */
  predicate Busy(cal: Cal, technician: int, date: int, t: int) {
    || (exists i :: 0 <= i < |cal.bookings| && cal.bookings[i].technician == technician &&
                    OnDuty(cal.bookings[i]) &&
                    cal.bookings[i].start.Some? && cal.bookings[i].end.Some? &&
                    Occupies(cal.bookings[i].start.value, cal.bookings[i].end.value, date, t))
    || (exists k :: 0 <= k < |cal.blackouts| && cal.blackouts[k].technician == technician &&
                    Occupies(cal.blackouts[k].start, cal.blackouts[k].end, date, t))
  }

  predicate WorkingDay(hours: Option<DayHours>) {
    hours.Some? && hours.value.active && hours.value.start.Some? && hours.value.end.Some?
  }

  predicate AtWork(hours: Option<DayHours>, t: int)
    requires WorkingDay(hours)
  {
    hours.value.start.value <= t < hours.value.end.value
  }

  /** Windows are proper intervals, and those of this technician that touch the date are projectable. */
  predicate AllProjectable(cal: Cal, technician: int, date: int) {
    && (forall i :: 0 <= i < |cal.bookings| && cal.bookings[i].technician == technician &&
                    Active(cal.bookings[i].status) && cal.bookings[i].start.Some? && cal.bookings[i].end.Some? ==>
          var start, end := cal.bookings[i].start.value, cal.bookings[i].end.value;
          start < end && (TouchesDate(start, end, date) ==> Projectable(start, end, date)))
    && (forall k :: 0 <= k < |cal.blackouts| && cal.blackouts[k].technician == technician ==>
          var start, end := cal.blackouts[k].start, cal.blackouts[k].end;
          start < end && (TouchesDate(start, end, date) ==> Projectable(start, end, date)))
  }

  /** The view is refused only for a day that is active without its hours, and offers nothing on a day that is not
      active or has no entry. */
  lemma DaysOffExact(hours: Option<DayHours>, cal: Cal, technician: int, date: int)
    ensures DaySlots(hours, cal, technician, date).Abort? <==>
            hours.Some? && hours.value.active && !(hours.value.start.Some? && hours.value.end.Some?)
    ensures DaySlots(hours, cal, technician, date).Commit? ==>
              forall t :: Covers(DaySlots(hours, cal, technician, date).state, t) ==> WorkingDay(hours)
  {}

  /** In general a time is offered when it is working time and no selected window's projection takes it. */
  lemma OfferedExact(hours: Option<DayHours>, cal: Cal, technician: int, date: int, t: int)
    requires WorkingDay(hours)
    ensures DaySlots(hours, cal, technician, date).Commit?
    ensures Covers(DaySlots(hours, cal, technician, date).state, t) <==>
            AtWork(hours, t) &&
            !(exists i :: 0 <= i < |cal.bookings| && BookingSelected(cal.bookings[i], technician, date) &&
                          Shadows(cal.bookings[i].start.value, cal.bookings[i].end.value, date, t)) &&
            !(exists k :: 0 <= k < |cal.blackouts| && cal.blackouts[k].technician == technician &&
                          Shadows(cal.blackouts[k].start, cal.blackouts[k].end, date, t))
  {
    var whole := [Block(hours.value.start.value, hours.value.end.value)];
    assert Covers(whole, t) <==> Within(whole[0], t);
    var cuts, dark := BookingCuts(cal.bookings, technician, date), BlackoutCuts(cal.blackouts, technician, date);
    SubtractAllCovers(whole, cuts, t);
    SubtractAllCovers(SubtractAll(whole, cuts), dark, t);
    BookingCutsCover(cal.bookings, technician, date, t);
    BlackoutCutsCover(cal.blackouts, technician, date, t);
  }

  /** When every window that touches the date is projectable (windows within the date are), the slots are
      the working hours minus every commitment, exactly. */
  lemma ViewExact(hours: Option<DayHours>, cal: Cal, technician: int, date: int, t: int)
    requires WorkingDay(hours) && 0 <= t < DAY && AllProjectable(cal, technician, date)
    ensures Covers(DaySlots(hours, cal, technician, date).state, t) <==>
            AtWork(hours, t) && !Busy(cal, technician, date, t)
  {
    OfferedExact(hours, cal, technician, date, t);
    forall i | 0 <= i < |cal.bookings| && cal.bookings[i].technician == technician &&
               Active(cal.bookings[i].status) && cal.bookings[i].start.Some? && cal.bookings[i].end.Some?
      ensures Shadows(cal.bookings[i].start.value, cal.bookings[i].end.value, date, t) <==>
              Occupies(cal.bookings[i].start.value, cal.bookings[i].end.value, date, t)
    {
      ProjectableExact(cal.bookings[i].start.value, cal.bookings[i].end.value, date, t);
    }
    forall k | 0 <= k < |cal.blackouts| && cal.blackouts[k].technician == technician
      ensures Shadows(cal.blackouts[k].start, cal.blackouts[k].end, date, t) <==>
              Occupies(cal.blackouts[k].start, cal.blackouts[k].end, date, t)
    {
      ProjectableExact(cal.blackouts[k].start, cal.blackouts[k].end, date, t);
    }
  }

  lemma SameDayProjectable(start: int, end: int, date: int)
    requires DateOf(start) == date && DateOf(end) == date
    ensures Projectable(start, end, date)
  {}

  // ---------------------------------------------------------------- whole-day windows are invisible

  /** A window of whole days projects to an empty range, whatever its length and start. */
  lemma WholeDaysInvisible(start: int, days: int, date: int, t: int)
    ensures TimeOfDay(start + days * DAY) == TimeOfDay(start)
    ensures !Shadows(start, start + days * DAY, date, t)
  {
    var d, r := start / DAY, start % DAY;
    assert start + days * DAY == (d + days) * DAY + r;
    OnDate(start + days * DAY, d + days);
  }

  /** In every calendar the booking services can reach, bookings take nothing out of the view: a time is
      offered when it is working time and no blackout's projection takes it. */
  lemma BookingsInvisible(commands: seq<Command>, hours: Option<DayHours>, technician: int, date: int, t: int)
    requires WorkingDay(hours)
    ensures var cal := Run(EMPTY, commands);
            Covers(DaySlots(hours, cal, technician, date).state, t) <==>
              AtWork(hours, t) &&
              !(exists k :: 0 <= k < |cal.blackouts| && cal.blackouts[k].technician == technician &&
                            Shadows(cal.blackouts[k].start, cal.blackouts[k].end, date, t))
  {
    var cal := Run(EMPTY, commands);
    RunSafe(commands);
    OfferedExact(hours, cal, technician, date, t);
    forall i | 0 <= i < |cal.bookings| && BookingSelected(cal.bookings[i], technician, date)
      ensures !Shadows(cal.bookings[i].start.value, cal.bookings[i].end.value, date, t)
    {
      assert Placed(cal.bookings[i]);
      WholeDaysInvisible(cal.bookings[i].start.value, DaysOf(cal.bookings[i].duration), date, t);
    }
  }
}
