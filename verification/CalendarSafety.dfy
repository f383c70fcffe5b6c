/** No technician is ever committed twice: what every run of the booking and blackout services keeps, and
    why the database constraint never has to step in when the calls run one after another. */
module CalendarSafety {
  import opened Prelude
  import opened Calendar

  /** An active booking occupies whole days from its start: `end = start + max(1, duration)` days. */
  predicate Placed(b: Booking) {
    b.start.Some? && b.end == Some(b.start.value + DaysOf(b.duration) * DAY)
  }

  predicate BlackoutsFree(bookings: seq<Booking>, blackouts: seq<Blackout>) {
    forall i, k :: 0 <= i < |bookings| && 0 <= k < |blackouts| ==>
      !BookingMeets(bookings[i], blackouts[k].technician, blackouts[k].start, blackouts[k].end)
  }

  predicate Safe(cal: Cal) {
    && DbAccepts(cal.bookings)
    && (forall i :: 0 <= i < |cal.bookings| && Active(cal.bookings[i].status) ==> Placed(cal.bookings[i]))
    && (forall k :: 0 <= k < |cal.blackouts| ==> cal.blackouts[k].start < cal.blackouts[k].end)
    && BlackoutsFree(cal.bookings, cal.blackouts)
  }

  predicate OnDuty(b: Booking) { b.status == Scheduled || b.status == InProgress }

  /** The commitments of each technician, read as half-open intervals. */
  predicate Exclusive(cal: Cal) {
    && (forall i :: 0 <= i < |cal.bookings| && OnDuty(cal.bookings[i]) ==>
          var b := cal.bookings[i];
          b.start.Some? && b.end.Some? &&
          b.end.value == b.start.value + Max(1, if b.duration.Some? then b.duration.value else 0) * DAY)
    && (forall i, j :: 0 <= i < |cal.bookings| && 0 <= j < |cal.bookings| && i != j ==>
          var a, b := cal.bookings[i], cal.bookings[j];
          a.technician == b.technician && OnDuty(a) && OnDuty(b) ==>
            a.end.value <= b.start.value || b.end.value <= a.start.value)
    && (forall i, k :: 0 <= i < |cal.bookings| && 0 <= k < |cal.blackouts| ==>
          var b, dark := cal.bookings[i], cal.blackouts[k];
          b.technician == dark.technician && OnDuty(b) ==>
            b.end.value <= dark.start || dark.end <= b.start.value)
  }

  lemma SafeIsExclusive(cal: Cal)
    requires Safe(cal)
    ensures Exclusive(cal)
  {
    forall i, j | 0 <= i < |cal.bookings| && 0 <= j < |cal.bookings| && i != j &&
                  cal.bookings[i].technician == cal.bookings[j].technician &&
                  Active(cal.bookings[i].status) && Active(cal.bookings[j].status)
      ensures cal.bookings[i].end.value <= cal.bookings[j].start.value ||
              cal.bookings[j].end.value <= cal.bookings[i].start.value
    {
      assert Compatible(cal.bookings[i], cal.bookings[j]);
      assert RowChecks(cal.bookings[i]) && RowChecks(cal.bookings[j]);
    }
    forall i, k | 0 <= i < |cal.bookings| && 0 <= k < |cal.blackouts| &&
                  cal.bookings[i].technician == cal.blackouts[k].technician && Active(cal.bookings[i].status)
      ensures cal.bookings[i].end.value <= cal.blackouts[k].start || cal.blackouts[k].end <= cal.bookings[i].start.value
    {
      assert !BookingMeets(cal.bookings[i], cal.blackouts[k].technician, cal.blackouts[k].start, cal.blackouts[k].end);
    }
    forall i | 0 <= i < |cal.bookings| && Active(cal.bookings[i].status)
      ensures DaysOf(cal.bookings[i].duration) ==
              Max(1, if cal.bookings[i].duration.Some? then cal.bookings[i].duration.value else 0)
    {
      assert RowChecks(cal.bookings[i]);
    }
  }

  // ---------------------------------------------------------------- the service check refines the constraint

  predicate WindowFree(cal: Cal, booking: nat, row: Booking)
    requires row.start.Some? && row.end.Some?
  {
    !HasConflict(cal, row.technician, row.start.value, row.end.value, booking)
  }

  /** A changed row the services have checked: same request and technician, constraints of its own met,
      and a free whole-day window if it is active. */
  predicate Checked(cal: Cal, booking: nat, row: Booking)
    requires booking < |cal.bookings|
  {
    && row.request == cal.bookings[booking].request
    && row.technician == cal.bookings[booking].technician
    && RowChecks(row)
    && (Active(row.status) ==> Placed(row) && WindowFree(cal, booking, row))
  }

  lemma FreeIsCompatible(cal: Cal, booking: nat, row: Booking, j: nat)
    requires Safe(cal) && booking < |cal.bookings| && j < |cal.bookings| && j != booking
    requires row.request == cal.bookings[booking].request
    requires Active(row.status) ==>
               Placed(row) && !BookingMeets(cal.bookings[j], row.technician, row.start.value, row.end.value)
    ensures Compatible(row, cal.bookings[j]) && Compatible(cal.bookings[j], row)
  {
    assert Compatible(cal.bookings[booking], cal.bookings[j]);
    if Active(cal.bookings[j].status) { assert Placed(cal.bookings[j]); }
  }

  lemma AllCompatible(cal: Cal, booking: nat, row: Booking)
    requires Safe(cal) && booking < |cal.bookings|
    requires row.request == cal.bookings[booking].request && RowChecks(row)
    requires Active(row.status) ==>
               Placed(row) && !BookingConflict(cal.bookings, row.technician, row.start.value, row.end.value, booking)
    ensures DbAccepts(cal.bookings[booking := row])
  {
    var bookings := cal.bookings[booking := row];
    forall i, j | 0 <= i < |bookings| && 0 <= j < |bookings| && i != j
      ensures Compatible(bookings[i], bookings[j])
    {
      if i == booking { FreeIsCompatible(cal, booking, row, j); }
      if j == booking { FreeIsCompatible(cal, booking, row, i); }
    }
  }

  /** Against the other bookings, the service query and the exclusion constraint refuse the same rows. */
  lemma QueryIsConstraint(cal: Cal, booking: nat, row: Booking)
    requires Safe(cal) && booking < |cal.bookings|
    requires row.request == cal.bookings[booking].request && RowChecks(row)
    requires Active(row.status) && Placed(row)
    ensures DbAccepts(cal.bookings[booking := row]) <==>
            !BookingConflict(cal.bookings, row.technician, row.start.value, row.end.value, booking)
  {
    var bookings := cal.bookings[booking := row];
    if DbAccepts(bookings) {
      forall i | 0 <= i < |cal.bookings| && i != booking
        ensures !BookingMeets(cal.bookings[i], row.technician, row.start.value, row.end.value)
      {
        assert Compatible(bookings[booking], bookings[i]);
        if Active(cal.bookings[i].status) { assert Placed(cal.bookings[i]) && RowChecks(cal.bookings[i]); }
      }
    } else if !BookingConflict(cal.bookings, row.technician, row.start.value, row.end.value, booking) {
      AllCompatible(cal, booking, row);
    }
  }

  /** What `has_conflict` has let through, the exclusion and CHECK constraints let through too. */
  lemma CheckedRowAccepted(cal: Cal, booking: nat, row: Booking)
    requires Safe(cal) && booking < |cal.bookings| && Checked(cal, booking, row)
    ensures DbAccepts(cal.bookings[booking := row])
    ensures Safe(cal.(bookings := cal.bookings[booking := row]))
  {
    var bookings := cal.bookings[booking := row];
    AllCompatible(cal, booking, row);
    forall i, k | 0 <= i < |bookings| && 0 <= k < |cal.blackouts|
      ensures !BookingMeets(bookings[i], cal.blackouts[k].technician, cal.blackouts[k].start, cal.blackouts[k].end)
    {
      if i == booking && Active(row.status) {
        assert !BlackoutMeets(cal.blackouts[k], row.technician, row.start.value, row.end.value);
      }
    }
  }

  /** The window an active booking already holds is free but for itself. */
  lemma OwnWindowFree(cal: Cal, booking: nat, row: Booking)
    requires Safe(cal) && booking < |cal.bookings| && Active(cal.bookings[booking].status)
    requires row.technician == cal.bookings[booking].technician
    requires row.start == cal.bookings[booking].start && row.end == cal.bookings[booking].end
    ensures row.start.Some? && row.end.Some? && WindowFree(cal, booking, row)
  {
    var mine := cal.bookings[booking];
    forall i | 0 <= i < |cal.bookings| && i != booking
      ensures !BookingMeets(cal.bookings[i], row.technician, row.start.value, row.end.value)
    {
      assert Compatible(mine, cal.bookings[i]);
    }
    forall k | 0 <= k < |cal.blackouts|
      ensures !BlackoutMeets(cal.blackouts[k], row.technician, row.start.value, row.end.value)
    {
      assert !BookingMeets(mine, cal.blackouts[k].technician, cal.blackouts[k].start, cal.blackouts[k].end);
    }
  }

  lemma ScheduleChecked(cal: Cal, booking: int, start: int)
    requires Safe(cal) && ScheduleRow(cal, booking, start).Commit?
    ensures Checked(cal, booking, ScheduleRow(cal, booking, start).state)
  {
    var row := ScheduleRow(cal, booking, start).state;
    assert RowChecks(cal.bookings[booking]);
    assert !BookingConflict(cal.bookings, row.technician, row.start.value, row.end.value, -1);
    forall i | 0 <= i < |cal.bookings| && i != booking
      ensures !BookingMeets(cal.bookings[i], row.technician, row.start.value, row.end.value) {}
  }

  lemma RescheduleChecked(cal: Cal, booking: int, start: int)
    requires Safe(cal) && RescheduleRow(cal, booking, start).Commit?
    ensures Checked(cal, booking, RescheduleRow(cal, booking, start).state)
  {
    assert RowChecks(cal.bookings[booking]);
  }

  lemma ExtendChecked(cal: Cal, booking: int, days: int)
    requires Safe(cal) && ExtendRow(cal, booking, days).Commit?
    ensures Checked(cal, booking, ExtendRow(cal, booking, days).state)
  {
    assert RowChecks(cal.bookings[booking]);
  }

  /** In a safe calendar a schedule, reschedule or extension that passes the service check is committed:
      the exclusion and CHECK constraints never refuse it. */
  lemma ServiceCheckRefinesConstraint(cal: Cal, booking: int, start: int, days: int)
    requires Safe(cal)
    ensures ScheduleTx(cal, booking, start).Commit? <==> ScheduleRow(cal, booking, start).Commit?
    ensures RescheduleTx(cal, booking, start).Commit? <==> RescheduleRow(cal, booking, start).Commit?
    ensures ExtendTx(cal, booking, days).Commit? <==> ExtendRow(cal, booking, days).Commit?
  {
    if ScheduleRow(cal, booking, start).Commit? {
      ScheduleChecked(cal, booking, start);
      CheckedRowAccepted(cal, booking, ScheduleRow(cal, booking, start).state);
    }
    if RescheduleRow(cal, booking, start).Commit? {
      RescheduleChecked(cal, booking, start);
      CheckedRowAccepted(cal, booking, RescheduleRow(cal, booking, start).state);
    }
    if ExtendRow(cal, booking, days).Commit? {
      ExtendChecked(cal, booking, days);
      CheckedRowAccepted(cal, booking, ExtendRow(cal, booking, days).state);
    }
  }

  // ---------------------------------------------------------------- every step is safe

  lemma CreateSafe(cal: Cal, request: int, technician: int, duration: Option<int>)
    requires Safe(cal)
    ensures Safe(Step(cal, Create(request, technician, duration)))
  {
    match CreateTx(cal, request, technician, duration)
    case Abort(_) =>
    case Commit(cal') =>
      forall i, k | 0 <= i < |cal'.bookings| && 0 <= k < |cal'.blackouts|
        ensures !BookingMeets(cal'.bookings[i], cal.blackouts[k].technician,
                              cal.blackouts[k].start, cal.blackouts[k].end)
      {
        if i < |cal.bookings| { assert cal'.bookings[i] == cal.bookings[i]; }
      }
  }

  lemma RescheduleSafe(cal: Cal, booking: int, start: int)
    requires Safe(cal)
    ensures Safe(Step(cal, Reschedule(booking, start)))
  {
    if RescheduleRow(cal, booking, start).Commit? {
      var row := RescheduleRow(cal, booking, start).state;
      RescheduleChecked(cal, booking, start);
      CheckedRowAccepted(cal, booking, row);
      assert Step(cal, Reschedule(booking, start)).bookings == cal.bookings[booking := row];
    }
  }

  lemma ScheduleSafe(cal: Cal, booking: int, start: int)
    requires Safe(cal)
    ensures Safe(Step(cal, Schedule(booking, start)))
  {
    if ScheduleRow(cal, booking, start).Commit? {
      ScheduleChecked(cal, booking, start);
      CheckedRowAccepted(cal, booking, ScheduleRow(cal, booking, start).state);
    }
  }

  lemma ExtendSafe(cal: Cal, booking: int, days: int)
    requires Safe(cal)
    ensures Safe(Step(cal, Extend(booking, days)))
  {
    if ExtendRow(cal, booking, days).Commit? {
      ExtendChecked(cal, booking, days);
      CheckedRowAccepted(cal, booking, ExtendRow(cal, booking, days).state);
    }
  }

  lemma StartSafe(cal: Cal, booking: int, now: int)
    requires Safe(cal)
    ensures Safe(Step(cal, Start(booking, now)))
  {
    if Exists(cal, booking) && cal.bookings[booking].status.Scheduled? {
      var started := cal.bookings[booking].(status := InProgress, startedAt := Some(now));
      assert RowChecks(cal.bookings[booking]);
      OwnWindowFree(cal, booking, started);
      CheckedRowAccepted(cal, booking, started);
    }
  }

  /** A booking that stops being active frees its window. */
  lemma EndingSafe(cal: Cal, c: Command)
    requires Safe(cal) && (c.Complete? || c.Cancel? || c.ReportNoShow?)
    ensures Safe(Step(cal, c))
  {
    if Exists(cal, c.booking) {
      var row := cal.bookings[c.booking];
      assert RowChecks(row);
      match c
      case Complete(booking) => CheckedRowAccepted(cal, booking, row.(status := Completed));
      case Cancel(booking) => CheckedRowAccepted(cal, booking, row.(status := Cancelled));
      case ReportNoShow(booking, _, _) => CheckedRowAccepted(cal, booking, row.(status := NoShow));
    }
  }

  lemma CreateBlackoutSafe(cal: Cal, id: int, technician: int, start: int, end: int)
    requires Safe(cal)
    ensures Safe(Step(cal, CreateBlackout(id, technician, start, end)))
  {
    match CreateBlackoutTx(cal, id, technician, start, end)
    case Abort(_) =>
    case Commit(cal') =>
      forall i, k | 0 <= i < |cal'.bookings| && 0 <= k < |cal'.blackouts|
        ensures !BookingMeets(cal'.bookings[i], cal'.blackouts[k].technician,
                              cal'.blackouts[k].start, cal'.blackouts[k].end)
      {
        if k == |cal.blackouts| {
          assert !BookingConflict(cal.bookings, technician, start, end, -1);
        }
      }
  }

  lemma DeleteBlackoutSafe(cal: Cal, id: int)
    requires Safe(cal)
    ensures Safe(Step(cal, DeleteBlackout(id)))
  {
    match DeleteBlackoutTx(cal, id)
    case Abort(_) =>
    case Commit(cal') =>
      var gone := FindFirst(cal.blackouts, WithId(id)).value;
      forall k | 0 <= k < |cal'.blackouts|
        ensures cal'.blackouts[k] == cal.blackouts[if k < gone then k else k + 1] {}
      forall i, k | 0 <= i < |cal'.bookings| && 0 <= k < |cal'.blackouts|
        ensures !BookingMeets(cal'.bookings[i], cal'.blackouts[k].technician,
                              cal'.blackouts[k].start, cal'.blackouts[k].end)
      {
        assert cal'.blackouts[k] == cal.blackouts[if k < gone then k else k + 1];
      }
  }

  lemma StepSafe(cal: Cal, c: Command)
    requires Safe(cal)
    ensures Safe(Step(cal, c))
  {
    match c
    case Create(request, technician, duration) => CreateSafe(cal, request, technician, duration);
    case Reschedule(booking, start) => RescheduleSafe(cal, booking, start);
    case CreateBlackout(id, technician, start, end) => CreateBlackoutSafe(cal, id, technician, start, end);
    case DeleteBlackout(id) => DeleteBlackoutSafe(cal, id);
    case DescribeRequest(_, _) =>
    case DescribeUser(_, _) =>
    case Schedule(booking, start) => ScheduleSafe(cal, booking, start);
    case Start(booking, now) => StartSafe(cal, booking, now);
    case Extend(booking, days) => ExtendSafe(cal, booking, days);
    case Complete(_) => EndingSafe(cal, c);
    case Cancel(_) => EndingSafe(cal, c);
    case ReportNoShow(_, _, _) => EndingSafe(cal, c);
  }

  lemma {:induction false} SafeRun(cal: Cal, commands: seq<Command>)
    requires Safe(cal)
    ensures Safe(Run(cal, commands))
  {
    if commands != [] {
      var n := |commands| - 1;
      SafeRun(cal, commands[..n]);
      StepSafe(Run(cal, commands[..n]), commands[n]);
    }
  }

  /** In every run of booking and blackout calls, failed ones included, a technician's active bookings are
      disjoint whole-day windows that meet none of that technician's blackouts. */
  lemma RunSafe(commands: seq<Command>)
    ensures Safe(Run(EMPTY, commands)) && Exclusive(Run(EMPTY, commands))
  {
    SafeRun(EMPTY, commands);
    SafeIsExclusive(Run(EMPTY, commands));
  }
}
