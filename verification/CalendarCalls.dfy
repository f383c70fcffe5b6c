/** When each booking and blackout call commits, and what it then writes: exact for every safe calendar, in terms of
    statuses, days, hours and half-open intervals. */
module CalendarCalls {
  import opened Prelude
  import opened Calendar
  import opened CalendarSafety

  /** The days a booking takes: its duration, one if it has none. */
  function Days(b: Booking): int { Max(1, if b.duration.Some? then b.duration.value else 0) }

  /** The technician has no other booking on duty, and no blackout, in [start, end). */
  predicate Clear(cal: Cal, technician: int, start: int, end: int, except: int) {
    && ClearOfBookings(cal, technician, start, end, except)
    && (forall k :: 0 <= k < |cal.blackouts| && cal.blackouts[k].technician == technician ==>
          end <= cal.blackouts[k].start || cal.blackouts[k].end <= start)
  }

  predicate ClearOfBookings(cal: Cal, technician: int, start: int, end: int, except: int) {
    forall i :: 0 <= i < |cal.bookings| && i != except && cal.bookings[i].technician == technician &&
                OnDuty(cal.bookings[i]) ==>
      && cal.bookings[i].start.Some? && cal.bookings[i].end.Some?
      && (end <= cal.bookings[i].start.value || cal.bookings[i].end.value <= start)
  }

  lemma DaysExact(cal: Cal, booking: nat)
    requires Safe(cal) && booking < |cal.bookings|
    ensures DaysOf(cal.bookings[booking].duration) == Days(cal.bookings[booking])
  {
    assert RowChecks(cal.bookings[booking]);
  }

  /** The conflict query finds something exactly if the window is not clear. */
  lemma ConflictExact(cal: Cal, technician: int, start: int, end: int, except: int)
    requires Safe(cal)
    ensures BookingConflict(cal.bookings, technician, start, end, except) <==>
            !ClearOfBookings(cal, technician, start, end, except)
    ensures HasConflict(cal, technician, start, end, except) <==> !Clear(cal, technician, start, end, except)
  {
    forall i | 0 <= i < |cal.bookings|
      ensures BookingMeets(cal.bookings[i], technician, start, end) <==>
              cal.bookings[i].technician == technician && OnDuty(cal.bookings[i]) &&
              !(cal.bookings[i].start.Some? && cal.bookings[i].end.Some? &&
                (end <= cal.bookings[i].start.value || cal.bookings[i].end.value <= start))
    {
      if OnDuty(cal.bookings[i]) { assert Placed(cal.bookings[i]); }
    }
    forall k | 0 <= k < |cal.blackouts|
      ensures BlackoutMeets(cal.blackouts[k], technician, start, end) <==>
              cal.blackouts[k].technician == technician &&
              !(end <= cal.blackouts[k].start || cal.blackouts[k].end <= start)
    {}
  }

  /** One row is rewritten, and the other tables stay as they are, but for the log and the call's own record. */
  predicate Rewrites(cal: Cal, cal': Cal, booking: nat, row: Booking)
    requires booking < |cal.bookings|
  {
    && cal'.bookings == cal.bookings[booking := row] && cal'.blackouts == cal.blackouts
    && cal'.requestTexts == cal.requestTexts && cal'.userTexts == cal.userTexts
    && |cal'.log| == |cal.log| + 1 && cal'.log[..|cal.log|] == cal.log
  }

  lemma WriteRewrites(cal: Cal, booking: nat, row: Booking)
    requires booking < |cal.bookings| && WriteTx(cal, booking, row).Commit?
    ensures var cal' := WriteTx(cal, booking, row).state;
            && Rewrites(cal, cal', booking, row)
            && cal'.records == cal.records && cal'.absences == cal.absences
  {}

  /** What checks let through is written: the constraints never refuse it. */
  lemma CheckedWrites(cal: Cal, booking: nat, row: Booking)
    requires Safe(cal) && booking < |cal.bookings| && Checked(cal, booking, row)
    ensures WriteTx(cal, booking, row).Commit?
    ensures var cal' := WriteTx(cal, booking, row).state;
            && Rewrites(cal, cal', booking, row)
            && cal'.records == cal.records && cal'.absences == cal.absences
  {
    CheckedRowAccepted(cal, booking, row);
    WriteRewrites(cal, booking, row);
  }

  lemma ScheduleRowExact(cal: Cal, booking: int, start: int)
    requires Safe(cal)
    ensures ScheduleRow(cal, booking, start).Commit? <==>
            && 0 <= booking < |cal.bookings| && cal.bookings[booking].status == Unscheduled
            && var b := cal.bookings[booking];
            Clear(cal, b.technician, start, start + Days(b) * 24 * 3600 * 1000000, -1)
    ensures ScheduleRow(cal, booking, start).Commit? ==>
              var b := cal.bookings[booking];
              ScheduleRow(cal, booking, start).state ==
                b.(status := Scheduled, start := Some(start), end := Some(start + Days(b) * 24 * 3600 * 1000000))
  {
    if 0 <= booking < |cal.bookings| {
      var b := cal.bookings[booking];
      DaysExact(cal, booking);
      ConflictExact(cal, b.technician, start, start + Days(b) * DAY, -1);
    }
  }

  /** Scheduling commits if and only if the booking is unscheduled and its days from the start are clear. */
  lemma ScheduleExact(cal: Cal, booking: int, start: int)
    requires Safe(cal)
    ensures Execute(cal, Schedule(booking, start)).Commit? <==>
            && 0 <= booking < |cal.bookings| && cal.bookings[booking].status == Unscheduled
            && var b := cal.bookings[booking];
            Clear(cal, b.technician, start, start + Days(b) * 24 * 3600 * 1000000, -1)
    ensures Execute(cal, Schedule(booking, start)).Commit? ==>
              var b, cal' := cal.bookings[booking], Step(cal, Schedule(booking, start));
              && Rewrites(cal, cal', booking,
                          b.(status := Scheduled, start := Some(start),
                             end := Some(start + Days(b) * 24 * 3600 * 1000000)))
              && cal'.records == cal.records && cal'.absences == cal.absences
  {
    ScheduleRowExact(cal, booking, start);
    var row := ScheduleRow(cal, booking, start);
    if row.Commit? {
      ScheduleChecked(cal, booking, start);
      CheckedWrites(cal, booking, row.state);
    }
  }

  lemma RescheduleRowExact(cal: Cal, booking: int, start: int)
    requires Safe(cal)
    ensures RescheduleRow(cal, booking, start).Commit? <==>
            && 0 <= booking < |cal.bookings| && cal.bookings[booking].status == Scheduled
            && cal.bookings[booking].reschedules < 3
            && var b := cal.bookings[booking];
            Clear(cal, b.technician, start, start + Days(b) * 24 * 3600 * 1000000, booking)
    ensures RescheduleRow(cal, booking, start).Commit? ==>
              var b := cal.bookings[booking];
              RescheduleRow(cal, booking, start).state ==
                b.(start := Some(start), end := Some(start + Days(b) * 24 * 3600 * 1000000),
                   reschedules := b.reschedules + 1)
  {
    if 0 <= booking < |cal.bookings| {
      var b := cal.bookings[booking];
      DaysExact(cal, booking);
      ConflictExact(cal, b.technician, start, start + Days(b) * DAY, booking);
    }
  }

  /** A reschedule commits if its row passes the service check, and writes that row and one record. */
  lemma RescheduleWrites(cal: Cal, booking: int, start: int)
    requires Safe(cal)
    ensures RescheduleTx(cal, booking, start).Commit? <==> RescheduleRow(cal, booking, start).Commit?
    ensures RescheduleTx(cal, booking, start).Commit? ==>
              var b, row := cal.bookings[booking], RescheduleRow(cal, booking, start).state;
              var cal' := RescheduleTx(cal, booking, start).state;
              && row.start.Some? && row.end.Some? && Rewrites(cal, cal', booking, row)
              && cal'.records ==
                 cal.records + [RescheduleRecord(booking, b.start, b.end, row.start.value, row.end.value)]
              && cal'.absences == cal.absences
  {
    var row := RescheduleRow(cal, booking, start);
    if row.Commit? {
      RescheduleChecked(cal, booking, start);
      CheckedWrites(cal, booking, row.state);
    }
  }

  /** The booking is moved and counted, with one record of where from and where to. */
  predicate RescheduledTo(cal: Cal, cal': Cal, booking: nat, start: int)
    requires booking < |cal.bookings|
  {
    var b, end := cal.bookings[booking], start + Days(cal.bookings[booking]) * 24 * 3600 * 1000000;
    && Rewrites(cal, cal', booking, b.(start := Some(start), end := Some(end), reschedules := b.reschedules + 1))
    && cal'.records == cal.records + [RescheduleRecord(booking, b.start, b.end, start, end)]
    && cal'.absences == cal.absences
  }

  lemma RowGivesRescheduled(cal: Cal, cal': Cal, booking: nat, start: int, row: Booking)
    requires booking < |cal.bookings|
    requires var b := cal.bookings[booking];
             row == b.(start := Some(start), end := Some(start + Days(b) * 24 * 3600 * 1000000),
                       reschedules := b.reschedules + 1)
    requires Rewrites(cal, cal', booking, row) && cal'.absences == cal.absences
    requires var b := cal.bookings[booking];
             cal'.records ==
             cal.records + [RescheduleRecord(booking, b.start, b.end, row.start.value, row.end.value)]
    ensures RescheduledTo(cal, cal', booking, start)
  {}

  /** Rescheduling commits if and only if the booking is scheduled, was moved fewer than three times, and its days from
      the new start are clear of all else. */
  lemma RescheduleExact(cal: Cal, booking: int, start: int)
    requires Safe(cal)
    ensures Execute(cal, Reschedule(booking, start)).Commit? <==>
            && 0 <= booking < |cal.bookings| && cal.bookings[booking].status == Scheduled
            && cal.bookings[booking].reschedules < 3
            && var b := cal.bookings[booking];
            Clear(cal, b.technician, start, start + Days(b) * 24 * 3600 * 1000000, booking)
    ensures Execute(cal, Reschedule(booking, start)).Commit? ==>
              RescheduledTo(cal, Step(cal, Reschedule(booking, start)), booking, start)
  {
    RescheduleRowExact(cal, booking, start);
    RescheduleWrites(cal, booking, start);
    if RescheduleRow(cal, booking, start).Commit? {
      RowGivesRescheduled(cal, RescheduleTx(cal, booking, start).state, booking, start,
                          RescheduleRow(cal, booking, start).state);
    }
  }

  lemma ExtendRowCases(cal: Cal, booking: nat, days: int, end: int)
    requires booking < |cal.bookings| && cal.bookings[booking].start.Some?
    requires end == cal.bookings[booking].start.value + days * DAY
    ensures var b := cal.bookings[booking];
            ExtendRow(cal, booking, days) ==
              if OnDuty(b) && (if b.duration.Some? then b.duration.value else 0) < days &&
                 !HasConflict(cal, b.technician, b.start.value, end, booking)
              then Commit(b.(duration := Some(days), end := Some(end))) else Abort(Invalid)
  {}

  lemma ExtendRowAt(cal: Cal, booking: nat, days: int, end: int)
    requires Safe(cal) && booking < |cal.bookings| && cal.bookings[booking].start.Some?
    requires end == cal.bookings[booking].start.value + days * DAY
    ensures var b := cal.bookings[booking];
            ExtendRow(cal, booking, days) ==
              if OnDuty(b) && (if b.duration.Some? then b.duration.value else 0) < days &&
                 Clear(cal, b.technician, b.start.value, end, booking)
              then Commit(b.(duration := Some(days), end := Some(end))) else Abort(Invalid)
  {
    ExtendRowCases(cal, booking, days, end);
    ConflictExact(cal, cal.bookings[booking].technician, cal.bookings[booking].start.value, end, booking);
  }

  lemma ExtendRowUnset(cal: Cal, booking: int, days: int)
    requires 0 <= booking < |cal.bookings| ==> cal.bookings[booking].start.None?
    ensures ExtendRow(cal, booking, days).Abort?
  {}

  lemma ExtendRowExact(cal: Cal, booking: int, days: int)
    requires Safe(cal)
    ensures ExtendRow(cal, booking, days).Commit? <==>
            && 0 <= booking < |cal.bookings| && OnDuty(cal.bookings[booking])
            && var b := cal.bookings[booking];
            && (if b.duration.Some? then b.duration.value else 0) < days && b.start.Some?
            && Clear(cal, b.technician, b.start.value, b.start.value + days * 24 * 3600 * 1000000, booking)
    ensures ExtendRow(cal, booking, days).Commit? ==>
              var b := cal.bookings[booking];
              ExtendRow(cal, booking, days).state ==
                b.(duration := Some(days), end := Some(b.start.value + days * 24 * 3600 * 1000000))
  {
    if 0 <= booking < |cal.bookings| && cal.bookings[booking].start.Some? {
      ExtendRowAt(cal, booking, days, cal.bookings[booking].start.value + days * 24 * 3600 * 1000000);
    } else {
      ExtendRowUnset(cal, booking, days);
    }
  }

  /** An extension commits if and only if the booking is on duty, the duration grows, and the longer window is clear of
      all else. */
  lemma ExtendExact(cal: Cal, booking: int, days: int)
    requires Safe(cal)
    ensures Execute(cal, Extend(booking, days)).Commit? <==>
            && 0 <= booking < |cal.bookings| && OnDuty(cal.bookings[booking])
            && var b := cal.bookings[booking];
            && (if b.duration.Some? then b.duration.value else 0) < days && b.start.Some?
            && Clear(cal, b.technician, b.start.value, b.start.value + days * 24 * 3600 * 1000000, booking)
    ensures Execute(cal, Extend(booking, days)).Commit? ==>
              var b, cal' := cal.bookings[booking], Step(cal, Extend(booking, days));
              && Rewrites(cal, cal', booking,
                          b.(duration := Some(days), end := Some(b.start.value + days * 24 * 3600 * 1000000)))
              && cal'.records == cal.records && cal'.absences == cal.absences
  {
    ExtendRowExact(cal, booking, days);
    var row := ExtendRow(cal, booking, days);
    if row.Commit? {
      ExtendChecked(cal, booking, days);
      CheckedWrites(cal, booking, row.state);
    }
  }

  /** Only a scheduled booking starts. */
  lemma StartExact(cal: Cal, booking: int, now: int)
    requires Safe(cal)
    ensures Execute(cal, Start(booking, now)).Commit? <==>
            0 <= booking < |cal.bookings| && cal.bookings[booking].status == Scheduled
    ensures Execute(cal, Start(booking, now)).Commit? ==>
              var b, cal' := cal.bookings[booking], Step(cal, Start(booking, now));
              && Rewrites(cal, cal', booking, b.(status := InProgress, startedAt := Some(now)))
              && cal'.records == cal.records && cal'.absences == cal.absences
  {
    if 0 <= booking < |cal.bookings| && cal.bookings[booking].status == Scheduled {
      var started := cal.bookings[booking].(status := InProgress, startedAt := Some(now));
      assert RowChecks(cal.bookings[booking]);
      OwnWindowFree(cal, booking, started);
      CheckedWrites(cal, booking, started);
    }
  }

  /** A no-show is reported if and only if the booking is on duty, began two hours ago or more, and has no report. */
  lemma ReportNoShowExact(cal: Cal, booking: int, absentParty: string, now: int)
    requires Safe(cal)
    ensures Execute(cal, ReportNoShow(booking, absentParty, now)).Commit? <==>
            && 0 <= booking < |cal.bookings| && OnDuty(cal.bookings[booking])
            && cal.bookings[booking].start.Some?
            && cal.bookings[booking].start.value + 2 * 3600 * 1000000 <= now
            && forall k :: 0 <= k < |cal.absences| ==> cal.absences[k].booking != booking
    ensures Execute(cal, ReportNoShow(booking, absentParty, now)).Commit? ==>
              var b, cal' := cal.bookings[booking], Step(cal, ReportNoShow(booking, absentParty, now));
              && Rewrites(cal, cal', booking, b.(status := NoShow))
              && cal'.records == cal.records
              && cal'.absences == cal.absences + [NoShowRecord(booking, absentParty, now)]
  {
    if 0 <= booking < |cal.bookings| {
      assert RowChecks(cal.bookings[booking]);
      CheckedWrites(cal, booking, cal.bookings[booking].(status := NoShow));
    }
  }

  /** Completion always commits, whatever the status. */
  lemma CompleteExact(cal: Cal, booking: int)
    requires Safe(cal)
    ensures Execute(cal, Complete(booking)).Commit? <==> 0 <= booking < |cal.bookings|
    ensures Execute(cal, Complete(booking)).Commit? ==>
              var cal' := Step(cal, Complete(booking));
              && Rewrites(cal, cal', booking, cal.bookings[booking].(status := Completed))
              && cal'.records == cal.records && cal'.absences == cal.absences
  {
    if 0 <= booking < |cal.bookings| {
      assert RowChecks(cal.bookings[booking]);
      CheckedWrites(cal, booking, cal.bookings[booking].(status := Completed));
    }
  }

  /** Cancellation always commits; it leaves a booking that has ended as it is. */
  lemma CancelExact(cal: Cal, booking: int)
    requires Safe(cal)
    ensures Execute(cal, Cancel(booking)).Commit? <==> 0 <= booking < |cal.bookings|
    ensures Execute(cal, Cancel(booking)).Commit? ==>
              var b, cal' := cal.bookings[booking], Step(cal, Cancel(booking));
              && (if b.status == Completed || b.status == Cancelled || b.status == NoShow then cal' == cal
                  else Rewrites(cal, cal', booking, b.(status := Cancelled)))
              && cal'.records == cal.records && cal'.absences == cal.absences
  {
    if 0 <= booking < |cal.bookings| {
      assert RowChecks(cal.bookings[booking]);
      CheckedWrites(cal, booking, cal.bookings[booking].(status := Cancelled));
    }
  }

  /** A booking is made if and only if its request has none and its duration is not negative; it is unscheduled. */
  lemma CreateExact(cal: Cal, request: int, technician: int, duration: Option<int>)
    requires Safe(cal)
    ensures Execute(cal, Create(request, technician, duration)).Commit? <==>
            && (forall i :: 0 <= i < |cal.bookings| ==> cal.bookings[i].request != request)
            && (duration.Some? ==> 0 <= duration.value)
    ensures Execute(cal, Create(request, technician, duration)).Commit? ==>
              var cal' := Step(cal, Create(request, technician, duration));
              && cal' == cal.(bookings := cal'.bookings, log := cal'.log)
              && cal'.bookings ==
                 cal.bookings + [Booking(request, technician, Unscheduled, None, None, None, duration, 0)]
              && |cal'.log| == |cal.log| + 1 && cal'.log[..|cal.log|] == cal.log
  {
    var row := Booking(request, technician, Unscheduled, None, None, None, duration, 0);
    var bookings := cal.bookings + [row];
    assert bookings[|cal.bookings|] == row;
    if DbAccepts(bookings) { assert RowChecks(bookings[|cal.bookings|]); }
  }

  /** A blackout is made if and only if it is not empty, meets no booking on duty of the technician, and its identifier
      is new. */
  lemma CreateBlackoutExact(cal: Cal, id: int, technician: int, start: int, end: int)
    requires Safe(cal)
    ensures Execute(cal, CreateBlackout(id, technician, start, end)).Commit? <==>
            && start < end && ClearOfBookings(cal, technician, start, end, -1)
            && forall k :: 0 <= k < |cal.blackouts| ==> cal.blackouts[k].id != id
    ensures Execute(cal, CreateBlackout(id, technician, start, end)).Commit? ==>
              Step(cal, CreateBlackout(id, technician, start, end)) ==
              cal.(blackouts := cal.blackouts + [Blackout(id, technician, start, end)])
  {
    ConflictExact(cal, technician, start, end, -1);
    IdExact(cal, id);
  }

  lemma IdExact(cal: Cal, id: int)
    ensures FindFirst(cal.blackouts, WithId(id)).None? <==>
            forall k :: 0 <= k < |cal.blackouts| ==> cal.blackouts[k].id != id
  {
    var found := FindFirst(cal.blackouts, WithId(id));
    if found.Some? { assert cal.blackouts[found.value].id == id; }
    if found.None? {
      forall k | 0 <= k < |cal.blackouts| ensures cal.blackouts[k].id != id { assert !WithId(id)(cal.blackouts[k]); }
    }
  }

  /** Deleting a blackout commits if and only if there is one of that identifier; it removes the first and no other. */
  lemma DeleteBlackoutExact(cal: Cal, id: int)
    ensures Execute(cal, DeleteBlackout(id)).Commit? <==>
            exists k :: 0 <= k < |cal.blackouts| && cal.blackouts[k].id == id
    ensures forall k :: 0 <= k < |cal.blackouts| && cal.blackouts[k].id == id &&
                        (forall j :: 0 <= j < k ==> cal.blackouts[j].id != id) ==>
              Step(cal, DeleteBlackout(id)) == cal.(blackouts := cal.blackouts[..k] + cal.blackouts[k + 1..])
  {
    IdExact(cal, id);
    forall k | 0 <= k < |cal.blackouts| && cal.blackouts[k].id == id &&
               (forall j :: 0 <= j < k ==> cal.blackouts[j].id != id)
      ensures FindFirst(cal.blackouts, WithId(id)) == Some(k)
    {
      assert WithId(id)(cal.blackouts[k]);
    }
  }

  /** Describing a request or a user changes that text and nothing else. */
  lemma DescriptionsWrite(cal: Cal, subject: int, text: string)
    ensures Step(cal, DescribeRequest(subject, text)) == cal.(requestTexts := cal.requestTexts[subject := text])
    ensures Step(cal, DescribeUser(subject, text)) == cal.(userTexts := cal.userTexts[subject := text])
  {}
}
