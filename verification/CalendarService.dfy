/** The booking services as they run: methods that change the calendar's tables in place. */
module CalendarService {
  import opened Prelude
  import opened AuditTrail
  import opened Calendar

  class BookingDesk {
    var bookings: seq<Booking>
    var blackouts: seq<Blackout>
    var records: seq<RescheduleRecord>
    var absences: seq<NoShowRecord>
    var log: seq<Entry<Column>>
    var requestTexts: map<int, string>
    var userTexts: map<int, string>

    constructor ()
      ensures Rows() == EMPTY
    {
      bookings, blackouts, records, absences, log := [], [], [], [], [];
      requestTexts, userTexts := map[], map[];
    }

    function Rows(): Cal
      reads this
    {
      Cal(bookings, blackouts, records, absences, log, requestTexts, userTexts)
    }

    /** `booking.save()` under the table's constraints, then `log_transition`. */
    method Save(booking: nat, row: Booking) returns (outcome: Option<Error>)
      requires booking < |bookings|
      modifies this`bookings, this`log
      ensures Reflects(outcome, WriteTx(old(Rows()), booking, row), old(Rows()), Rows())
    {
      var before := bookings[booking];
      bookings := bookings[booking := row];
      if !DbAccepts(bookings) {
        bookings := bookings[booking := before];
        assert bookings == old(bookings);
        return Some(Conflict);
      }
      var delta := LogTransition(Render(Rows(), before), Render(Rows(), row));
      log := log + [Entry(booking, delta)];
      outcome := None;
    }

    method CreateUnscheduled(request: int, technician: int, duration: Option<int>) returns (outcome: Option<Error>)
      modifies this`bookings, this`log
      ensures Reflects(outcome, CreateTx(old(Rows()), request, technician, duration), old(Rows()), Rows())
    {
      if exists i :: 0 <= i < |bookings| && bookings[i].request == request {
        return Some(Invalid);
      }
      var row := Booking(request, technician, Unscheduled, None, None, None, duration, 0);
      if !DbAccepts(bookings + [row]) {
        return Some(Conflict);
      }
      log := log + [Creation(|bookings|, Render(Rows(), row))];
      bookings := bookings + [row];
      outcome := None;
    }

    method Schedule(booking: int, start: int) returns (outcome: Option<Error>)
      modifies this`bookings, this`log
      ensures Reflects(outcome, ScheduleTx(old(Rows()), booking, start), old(Rows()), Rows())
    {
      if !Exists(Rows(), booking) {
        return Some(NotFound);
      }
      var row := bookings[booking];
      if row.status != Unscheduled {
        return Some(Invalid);
      }
      var days := if row.duration.Some? && row.duration.value != 0 then row.duration.value else 1;
      var end := start + days * DAY;
      if HasConflict(Rows(), row.technician, start, end, -1) {
        return Some(Invalid);
      }
      row := row.(start := Some(start), end := Some(end), status := Scheduled);
      assert ScheduleRow(old(Rows()), booking, start) == Commit(row);
      outcome := Save(booking, row);
    }

    method Reschedule(booking: int, newStart: int) returns (outcome: Option<Error>)
      modifies this`bookings, this`records, this`log
      ensures Reflects(outcome, RescheduleTx(old(Rows()), booking, newStart), old(Rows()), Rows())
    {
      if !Exists(Rows(), booking) {
        return Some(NotFound);
      }
      var row := bookings[booking];
      if row.status != Scheduled || row.reschedules >= MAX_RESCHEDULES {
        return Some(Invalid);
      }
      var newEnd := newStart + DaysOf(row.duration) * DAY;
      if HasConflict(Rows(), row.technician, newStart, newEnd, booking) {
        return Some(Invalid);
      }
      var saved := records;
      records := records + [RescheduleRecord(booking, row.start, row.end, newStart, newEnd)];
      row := row.(start := Some(newStart), end := Some(newEnd), reschedules := row.reschedules + 1);
      assert RescheduleRow(old(Rows()), booking, newStart) == Commit(row);
      outcome := Save(booking, row);
      if outcome.Some? {
        records := saved;
      }
    }

    method StartWork(booking: int, now: int) returns (outcome: Option<Error>)
      modifies this`bookings, this`log
      ensures Reflects(outcome, StartTx(old(Rows()), booking, now), old(Rows()), Rows())
    {
      if !Exists(Rows(), booking) {
        return Some(NotFound);
      }
      if bookings[booking].status != Scheduled {
        return Some(Invalid);
      }
      outcome := Save(booking, bookings[booking].(status := InProgress, startedAt := Some(now)));
    }

    method ExtendDuration(booking: int, days: int) returns (outcome: Option<Error>)
      modifies this`bookings, this`log
      ensures Reflects(outcome, ExtendTx(old(Rows()), booking, days), old(Rows()), Rows())
    {
      if !Exists(Rows(), booking) {
        return Some(NotFound);
      }
      var row := bookings[booking];
      if row.status != Scheduled && row.status != InProgress {
        return Some(Invalid);
      }
      if days <= if row.duration.Some? then row.duration.value else 0 {
        return Some(Invalid);
      }
      if row.start.None? {
        return Some(Crashed);
      }
      var end := row.start.value + days * DAY;
      if HasConflict(Rows(), row.technician, row.start.value, end, booking) {
        return Some(Invalid);
      }
      row := row.(duration := Some(days), end := Some(end));
      assert ExtendRow(old(Rows()), booking, days) == Commit(row);
      outcome := Save(booking, row);
    }

    method ReportNoShow(booking: int, absentParty: string, now: int) returns (outcome: Option<Error>)
      modifies this`bookings, this`absences, this`log
      ensures Reflects(outcome, ReportNoShowTx(old(Rows()), booking, absentParty, now), old(Rows()), Rows())
    {
      if !Exists(Rows(), booking) {
        return Some(NotFound);
      }
      var row := bookings[booking];
      if row.status != Scheduled && row.status != InProgress {
        return Some(Invalid);
      }
      if row.start.None? {
        return Some(Crashed);
      }
      if now < row.start.value + GRACE {
        return Some(Invalid);
      }
      if exists k :: 0 <= k < |absences| && absences[k].booking == booking {
        return Some(Conflict);
      }
      var saved := absences;
      absences := absences + [NoShowRecord(booking, absentParty, now)];
      outcome := Save(booking, row.(status := NoShow));
      if outcome.Some? {
        absences := saved;
      }
    }

    method SyncCompletion(booking: int) returns (outcome: Option<Error>)
      modifies this`bookings, this`log
      ensures Reflects(outcome, CompleteTx(old(Rows()), booking), old(Rows()), Rows())
    {
      if !Exists(Rows(), booking) {
        return Some(NotFound);
      }
      outcome := Save(booking, bookings[booking].(status := Completed));
    }

    method SyncCancellation(booking: int) returns (outcome: Option<Error>)
      modifies this`bookings, this`log
      ensures Reflects(outcome, CancelTx(old(Rows()), booking), old(Rows()), Rows())
    {
      if !Exists(Rows(), booking) {
        return Some(NotFound);
      }
      if bookings[booking].status in {Completed, Cancelled, NoShow} {
        return None;
      }
      outcome := Save(booking, bookings[booking].(status := Cancelled));
    }

    method CreateBlackout(id: int, technician: int, start: int, end: int) returns (outcome: Option<Error>)
      modifies this`blackouts
      ensures Reflects(outcome, CreateBlackoutTx(old(Rows()), id, technician, start, end), old(Rows()), Rows())
    {
      if end <= start {
        return Some(Invalid);
      }
      if BookingConflict(bookings, technician, start, end, -1) {
        return Some(Invalid);
      }
      if FindFirst(blackouts, WithId(id)).Some? {
        return Some(Conflict);
      }
      blackouts := blackouts + [Blackout(id, technician, start, end)];
      outcome := None;
    }

    method DeleteBlackout(id: int) returns (outcome: Option<Error>)
      modifies this`blackouts
      ensures Reflects(outcome, DeleteBlackoutTx(old(Rows()), id), old(Rows()), Rows())
    {
      var found := FindFirst(blackouts, WithId(id));
      if found.None? {
        return Some(Invalid);
      }
      blackouts := blackouts[..found.value] + blackouts[found.value + 1..];
      outcome := None;
    }
  }
}
