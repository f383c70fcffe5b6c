/** What the calendar's histories say about its rows: ended bookings, reschedule chains and no-show records. */
module CalendarHistory {
  import opened Prelude
  import opened AuditTrail
  import opened Calendar
  import opened CalendarSafety

  // ---------------------------------------------------------------- lifecycle

  /** The only status changes there are. Completion is reachable from every status. */
  predicate Moves(before: Status, after: Status) {
    || before == after
    || (before.Unscheduled? && after.Scheduled?)
    || (before.Scheduled? && after.InProgress?)
    || (Active(before) && after.NoShow?)
    || (!Ended(before) && after.Cancelled?)
    || after.Completed?
  }

  /** What one call may do to a booking row. */
  predicate RowMoves(before: Booking, after: Booking) {
    && Moves(before.status, after.status)
    && after.request == before.request && after.technician == before.technician
    && (Ended(before.status) ==> after == before.(status := after.status))
    && before.reschedules <= after.reschedules <= before.reschedules + 1
    && (before.reschedules != after.reschedules ==> before.status.Scheduled? && before.reschedules < MAX_RESCHEDULES)
  }

  /** What a committed call of each kind does to the row it names. */
  predicate RowStep(c: Command, before: Booking, after: Booking)
    requires Edits(c)
  {
    match c
    case Schedule(_, start) =>
      before.status.Unscheduled? &&
      after == before.(status := Scheduled, start := Some(start), end := Some(start + DaysOf(before.duration) * DAY))
    case Reschedule(_, start) =>
      before.status.Scheduled? && before.reschedules < MAX_RESCHEDULES &&
      after == before.(start := Some(start), end := Some(start + DaysOf(before.duration) * DAY),
                       reschedules := before.reschedules + 1)
    case Start(_, now) => before.status.Scheduled? && after == before.(status := InProgress, startedAt := Some(now))
    case Extend(_, days) =>
      Active(before.status) && before.start.Some? &&
      (if before.duration.Some? then before.duration.value else 0) < days &&
      after == before.(duration := Some(days), end := Some(before.start.value + days * DAY))
    case ReportNoShow(_, _, now) =>
      Active(before.status) && before.start.Some? && before.start.value + GRACE <= now &&
      after == before.(status := NoShow)
    case Complete(_) => after == before.(status := Completed)
    case Cancel(_) => !Ended(before.status) && after == before.(status := Cancelled)
  }

  predicate Edits(c: Command) {
    c.Schedule? || c.Reschedule? || c.Start? || c.Extend? || c.Complete? || c.Cancel? || c.ReportNoShow?
  }

  /** One booking row rewritten and logged, with the record its call keeps. */
  predicate Edited(cal: Cal, c: Command, cal': Cal)
    requires Edits(c)
  {
    && Exists(cal, c.booking) && |cal'.bookings| == |cal.bookings|
    && var before, after := cal.bookings[c.booking], cal'.bookings[c.booking];
    && cal'.bookings == cal.bookings[c.booking := after]
    && RowStep(c, before, after)
    && cal'.log == cal.log + [Transition(c.booking, Render(cal, before), Render(cal, after))]
    && cal'.requestTexts == cal.requestTexts && cal'.userTexts == cal.userTexts
    && cal'.records == cal.records +
         (if c.Reschedule?
          then [RescheduleRecord(c.booking, before.start, before.end, after.start.value, after.end.value)] else [])
    && cal'.absences == cal.absences +
         (if c.ReportNoShow? then [NoShowRecord(c.booking, c.absentParty, c.now)] else [])
    && (c.ReportNoShow? ==> forall k :: 0 <= k < |cal.absences| ==> cal.absences[k].booking != c.booking)
  }

  /** A booking call that names a row either edits that row as above or changes nothing. */
  lemma StepEdits(cal: Cal, c: Command)
    requires Edits(c)
    ensures Step(cal, c) == cal || Edited(cal, c, Step(cal, c))
  {
    match c
    case Schedule(booking, start) => ScheduleEdits(cal, booking, start);
    case Reschedule(booking, start) => RescheduleEdits(cal, booking, start);
    case Start(booking, now) => StartEdits(cal, booking, now);
    case Extend(booking, days) => ExtendEdits(cal, booking, days);
    case ReportNoShow(booking, absentParty, now) => ReportNoShowEdits(cal, booking, absentParty, now);
    case Complete(booking) => CompleteEdits(cal, booking);
    case Cancel(booking) => CancelEdits(cal, booking);
  }

  /** A row written as a call of its kind writes it is an edit, if no record goes with it. */
  lemma WriteEdits(cal: Cal, c: Command, row: Booking)
    requires Edits(c) && !c.Reschedule? && !c.ReportNoShow?
    requires Exists(cal, c.booking) && RowStep(c, cal.bookings[c.booking], row)
    ensures var r := WriteTx(cal, c.booking, row);
            r.Commit? ==> Edited(cal, c, r.state)
  {
    var bookings := cal.bookings[c.booking := row];
    assert bookings[c.booking] == row;
    assert cal.records + [] == cal.records && cal.absences + [] == cal.absences;
  }

  lemma ScheduleEdits(cal: Cal, booking: int, start: int)
    ensures var r := ScheduleTx(cal, booking, start);
            r.Commit? ==> Edited(cal, Schedule(booking, start), r.state)
  {
    var row := ScheduleRow(cal, booking, start);
    if row.Commit? { WriteEdits(cal, Schedule(booking, start), row.state); }
  }

  lemma RescheduleEdits(cal: Cal, booking: int, start: int)
    ensures var r := RescheduleTx(cal, booking, start);
            r.Commit? ==> Edited(cal, Reschedule(booking, start), r.state)
  {
    var row := RescheduleRow(cal, booking, start);
    assert row.Commit? ==> RowStep(Reschedule(booking, start), cal.bookings[booking], row.state);
  }

  lemma StartEdits(cal: Cal, booking: int, now: int)
    ensures var r := StartTx(cal, booking, now);
            r.Commit? ==> Edited(cal, Start(booking, now), r.state)
  {
    if StartTx(cal, booking, now).Commit? {
      WriteEdits(cal, Start(booking, now), cal.bookings[booking].(status := InProgress, startedAt := Some(now)));
    }
  }

  lemma ExtendEdits(cal: Cal, booking: int, days: int)
    ensures var r := ExtendTx(cal, booking, days);
            r.Commit? ==> Edited(cal, Extend(booking, days), r.state)
  {
    var row := ExtendRow(cal, booking, days);
    if row.Commit? { WriteEdits(cal, Extend(booking, days), row.state); }
  }

  lemma ReportNoShowEdits(cal: Cal, booking: int, absentParty: string, now: int)
    ensures var r := ReportNoShowTx(cal, booking, absentParty, now);
            r.Commit? ==> Edited(cal, ReportNoShow(booking, absentParty, now), r.state) {}

  lemma CompleteEdits(cal: Cal, booking: int)
    ensures var r := CompleteTx(cal, booking);
            r.Commit? ==> Edited(cal, Complete(booking), r.state)
  {
    if Exists(cal, booking) { WriteEdits(cal, Complete(booking), cal.bookings[booking].(status := Completed)); }
  }

  lemma CancelEdits(cal: Cal, booking: int)
    ensures var r := CancelTx(cal, booking);
            r.Commit? && r.state != cal ==> Edited(cal, Cancel(booking), r.state)
  {
    if Exists(cal, booking) && !Ended(cal.bookings[booking].status) {
      WriteEdits(cal, Cancel(booking), cal.bookings[booking].(status := Cancelled));
    }
  }

  /** The calls that edit no booking: creation appends an unscheduled row, blackout calls leave bookings alone. */
  lemma StepOther(cal: Cal, c: Command)
    requires !Edits(c)
    ensures var cal' := Step(cal, c);
            && cal'.records == cal.records && cal'.absences == cal.absences
            && ((cal'.bookings == cal.bookings && cal'.log == cal.log) ||
                (c.Create? && CreatedRow(c).reschedules == 0 && RowChecks(CreatedRow(c)) &&
                 cal'.bookings == cal.bookings + [CreatedRow(c)] &&
                 cal'.log == cal.log + [Creation(|cal.bookings|, Render(cal, CreatedRow(c)))]))
            && (c.DescribeRequest? || cal'.requestTexts == cal.requestTexts)
            && (c.DescribeUser? || cal'.userTexts == cal.userTexts)
  {
    match c
    case Create(request, technician, duration) =>
      var bookings := cal.bookings + [CreatedRow(c)];
      if DbAccepts(bookings) { assert RowChecks(bookings[|cal.bookings|]); }
    case CreateBlackout(_, _, _, _) =>
    case DeleteBlackout(_) =>
    case DescribeRequest(_, _) =>
    case DescribeUser(_, _) =>
  }

  function CreatedRow(c: Command): Booking
    requires c.Create?
  {
    Booking(c.request, c.technician, Unscheduled, None, None, None, c.duration, 0)
  }

  lemma RowStepMoves(c: Command, before: Booking, after: Booking)
    requires Edits(c) && RowStep(c, before, after)
    ensures RowMoves(before, after)
  {}

  lemma EditMoves(cal: Cal, c: Command, cal': Cal)
    requires Edits(c) && Edited(cal, c, cal')
    ensures forall b :: 0 <= b < |cal.bookings| ==> RowMoves(cal.bookings[b], cal'.bookings[b])
  {
    RowStepMoves(c, cal.bookings[c.booking], cal'.bookings[c.booking]);
    forall b | 0 <= b < |cal.bookings| ensures RowMoves(cal.bookings[b], cal'.bookings[b]) {
      if b != c.booking { assert cal'.bookings[b] == cal.bookings[b]; }
    }
  }

  lemma StepMoves(cal: Cal, c: Command)
    ensures |cal.bookings| <= |Step(cal, c).bookings|
    ensures forall b :: 0 <= b < |cal.bookings| ==> RowMoves(cal.bookings[b], Step(cal, c).bookings[b])
  {
    if Edits(c) {
      StepEdits(cal, c);
      if Step(cal, c) != cal { EditMoves(cal, c, Step(cal, c)); }
    } else {
      StepOther(cal, c);
    }
  }

  /** An ended booking never becomes active again: only its status can still move, and only to completed. */
  lemma {:induction false} EndedForever(cal: Cal, commands: seq<Command>, b: nat)
    requires b < |cal.bookings| && Ended(cal.bookings[b].status)
    ensures b < |Run(cal, commands).bookings|
    ensures var after := Run(cal, commands).bookings[b];
            Ended(after.status) && (after == cal.bookings[b] || after == cal.bookings[b].(status := Completed))
  {
    if commands != [] {
      var n := |commands| - 1;
      EndedForever(cal, commands[..n], b);
      StepMoves(Run(cal, commands[..n]), commands[n]);
    }
  }

  /** A call changes the row of an ended booking if and only if it completes a booking that is not completed. */
  lemma EndedRowExact(cal: Cal, c: Command, b: nat)
    requires Safe(cal) && b < |cal.bookings| && Ended(cal.bookings[b].status)
    ensures b < |Step(cal, c).bookings|
    ensures Step(cal, c).bookings[b] ==
            if c == Complete(b) then cal.bookings[b].(status := Completed) else cal.bookings[b]
    ensures Step(cal, c).bookings[b] == cal.bookings[b] <==> !(c == Complete(b) && !cal.bookings[b].status.Completed?)
  {
    if c == Complete(b) {
      CompletionCommits(cal, b);
    } else if Edits(c) {
      StepEdits(cal, c);
      if Step(cal, c) != cal { EditSparesEnded(cal, c, Step(cal, c), b); }
    } else {
      StepOther(cal, c);
    }
  }

  lemma CompletionCommits(cal: Cal, b: nat)
    requires Safe(cal) && b < |cal.bookings|
    ensures Step(cal, Complete(b)).bookings == cal.bookings[b := cal.bookings[b].(status := Completed)]
  {
    assert RowChecks(cal.bookings[b]);
    CheckedRowAccepted(cal, b, cal.bookings[b].(status := Completed));
  }

  lemma EditSparesEnded(cal: Cal, c: Command, cal': Cal, b: nat)
    requires b < |cal.bookings| && Ended(cal.bookings[b].status)
    requires Edits(c) && c != Complete(b) && Edited(cal, c, cal')
    ensures cal'.bookings[b] == cal.bookings[b]
  {
    assert RowStep(c, cal.bookings[c.booking], cal'.bookings[c.booking]);
  }

  /** Over any run an ended booking keeps its row, but for one thing: it is completed if and only if some call
      completes it, whatever it had ended as. */
  lemma {:induction false} EndedRunExact(cal: Cal, commands: seq<Command>, b: nat)
    requires Safe(cal) && b < |cal.bookings| && Ended(cal.bookings[b].status)
    ensures b < |Run(cal, commands).bookings|
    ensures Run(cal, commands).bookings[b] ==
            if Complete(b) in commands then cal.bookings[b].(status := Completed) else cal.bookings[b]
  {
    if commands != [] {
      var n := |commands| - 1;
      assert commands == commands[..n] + [commands[n]];
      EndedRunExact(cal, commands[..n], b);
      SafeRun(cal, commands[..n]);
      EndedRowExact(Run(cal, commands[..n]), commands[n], b);
    }
  }

  lemma RunAppend(cal: Cal, commands: seq<Command>, c: Command)
    ensures Run(cal, commands + [c]) == Step(Run(cal, commands), c)
  {
    assert (commands + [c])[..|commands|] == commands;
  }

  lemma CreatedAtOnce()
    ensures Run(EMPTY, [Create(1, 7, None)]).bookings == [Booking(1, 7, Unscheduled, None, None, None, None, 0)]
  {
    RunAppend(EMPTY, [], Create(1, 7, None));
    assert EMPTY.bookings + [Booking(1, 7, Unscheduled, None, None, None, None, 0)] ==
           [Booking(1, 7, Unscheduled, None, None, None, None, 0)];
  }

  lemma CancelsAlone(cal: Cal, row: Booking)
    requires cal.bookings == [row] && row == Booking(1, 7, Unscheduled, None, None, None, None, 0)
    ensures Step(cal, Cancel(0)).bookings == [row.(status := Cancelled)]
  {
    assert [row][0 := row.(status := Cancelled)] == [row.(status := Cancelled)];
  }

  lemma CancelledAtOnce()
    ensures Run(EMPTY, [Create(1, 7, None), Cancel(0)]).bookings ==
            [Booking(1, 7, Cancelled, None, None, None, None, 0)]
  {
    CreatedAtOnce();
    RunAppend(EMPTY, [Create(1, 7, None)], Cancel(0));
    assert [Create(1, 7, None)] + [Cancel(0)] == [Create(1, 7, None), Cancel(0)];
    CancelsAlone(Run(EMPTY, [Create(1, 7, None)]), Booking(1, 7, Unscheduled, None, None, None, None, 0));
  }

  /** A cancelled booking does become completed: here is the shortest run. */
  lemma CancelledThenCompleted()
    ensures Run(EMPTY, [Create(1, 7, None), Cancel(0)]).bookings[0].status.Cancelled?
    ensures Run(EMPTY, [Create(1, 7, None), Cancel(0), Complete(0)]).bookings ==
            [Booking(1, 7, Completed, None, None, None, None, 0)]
  {
    var cancelled := Run(EMPTY, [Create(1, 7, None), Cancel(0)]);
    CancelledAtOnce();
    RunSafe([Create(1, 7, None), Cancel(0)]);
    RunAppend(EMPTY, [Create(1, 7, None), Cancel(0)], Complete(0));
    assert [Create(1, 7, None), Cancel(0)] + [Complete(0)] == [Create(1, 7, None), Cancel(0), Complete(0)];
    EndedRowExact(cancelled, Complete(0), 0);
    StepEdits(cancelled, Complete(0));
  }

  // ---------------------------------------------------------------- reschedule history

  function HistoryOf(records: seq<RescheduleRecord>, b: nat): (h: seq<RescheduleRecord>)
    ensures forall k :: 0 <= k < |h| ==> h[k].booking == b
  {
    if records == [] then []
    else
      var earlier := HistoryOf(records[..|records| - 1], b);
      var last := records[|records| - 1];
      if last.booking == b then earlier + [last] else earlier
  }

  lemma HistoryAppend(records: seq<RescheduleRecord>, r: RescheduleRecord, b: nat)
    ensures HistoryOf(records + [r], b) ==
            if r.booking == b then HistoryOf(records, b) + [r] else HistoryOf(records, b)
  {
    assert (records + [r])[..|records|] == records;
  }

  /** Each move starts where the one before left the booking, and no earlier than it left its end. */
  predicate Chained(h: seq<RescheduleRecord>) {
    && (forall k :: 0 <= k < |h| ==> h[k].previousStart.Some? && h[k].previousEnd.Some?)
    && (forall k :: 0 < k < |h| ==>
          h[k].previousStart.value == h[k - 1].newStart && h[k - 1].newEnd <= h[k].previousEnd.value)
  }

  /** One booking row against its reschedule records. */
  predicate Told(row: Booking, h: seq<RescheduleRecord>) {
    && |h| == row.reschedules
    && Chained(h)
    && (Active(row.status) ==> row.start.Some? && row.end == Some(row.start.value + DaysOf(row.duration) * DAY))
    && (row.duration.Some? ==> 0 <= row.duration.value)
    && (row.status.Unscheduled? ==> h == [])
    && (h != [] ==> row.start == Some(h[|h| - 1].newStart) && row.end.Some? && h[|h| - 1].newEnd <= row.end.value)
  }

  predicate Histories(cal: Cal) {
    && (forall k :: 0 <= k < |cal.records| ==> cal.records[k].booking < |cal.bookings|)
    && (forall b :: 0 <= b < |cal.bookings| ==> Told(cal.bookings[b], HistoryOf(cal.records, b)))
  }

  lemma {:induction false} NoHistory(records: seq<RescheduleRecord>, b: nat)
    requires forall k :: 0 <= k < |records| ==> records[k].booking != b
    ensures HistoryOf(records, b) == []
  {
    if records != [] { NoHistory(records[..|records| - 1], b); }
  }

  lemma MovedTold(c: Command, before: Booking, after: Booking, h: seq<RescheduleRecord>)
    requires c.Reschedule? && 0 <= c.booking && RowStep(c, before, after) && Told(before, h)
    ensures Told(after, h + [RescheduleRecord(c.booking, before.start, before.end, after.start.value, after.end.value)])
  {}

  lemma KeptTold(c: Command, before: Booking, after: Booking, h: seq<RescheduleRecord>)
    requires Edits(c) && !c.Reschedule? && RowStep(c, before, after) && Told(before, h)
    ensures Told(after, h)
  {}

  lemma EditTold(cal: Cal, c: Command, cal': Cal)
    requires Histories(cal) && Edits(c) && Edited(cal, c, cal')
    ensures Histories(cal')
  {
    forall b | 0 <= b < |cal'.bookings| ensures Told(cal'.bookings[b], HistoryOf(cal'.records, b)) {
      var h := HistoryOf(cal.records, b);
      assert Told(cal.bookings[b], h);
      if c.Reschedule? {
        HistoryAppend(cal.records, cal'.records[|cal.records|], b);
        if b == c.booking { MovedTold(c, cal.bookings[b], cal'.bookings[b], h); }
      } else {
        assert cal'.records == cal.records;
        if b == c.booking { KeptTold(c, cal.bookings[b], cal'.bookings[b], h); }
      }
    }
  }

  lemma CreateTold(cal: Cal, row: Booking, cal': Cal)
    requires Histories(cal)
    requires cal'.bookings == cal.bookings + [row] && cal'.records == cal.records
    requires row.status.Unscheduled? && row.reschedules == 0 && RowChecks(row)
    ensures Histories(cal')
  {
    NoHistory(cal.records, |cal.bookings|);
    forall b | 0 <= b < |cal.bookings| ensures Told(cal'.bookings[b], HistoryOf(cal'.records, b)) {
      assert Told(cal.bookings[b], HistoryOf(cal.records, b));
    }
  }

  lemma StepTold(cal: Cal, c: Command)
    requires Histories(cal)
    ensures Histories(Step(cal, c))
  {
    var cal' := Step(cal, c);
    if Edits(c) {
      StepEdits(cal, c);
      if cal' != cal { EditTold(cal, c, cal'); }
    } else {
      StepOther(cal, c);
      if cal'.bookings != cal.bookings { CreateTold(cal, CreatedRow(c), cal'); }
    }
  }

  lemma StepAtMostThree(cal: Cal, c: Command)
    requires forall b :: 0 <= b < |cal.bookings| ==> cal.bookings[b].reschedules <= MAX_RESCHEDULES
    ensures forall b :: 0 <= b < |Step(cal, c).bookings| ==> Step(cal, c).bookings[b].reschedules <= MAX_RESCHEDULES
  {
    StepMoves(cal, c);
    if !Edits(c) { StepOther(cal, c); } else { StepEdits(cal, c); }
  }

  /** After any run the reschedule counter is the number of records, at most three; each record takes the
      booking from where the one before put it, and the last one put it where it now starts. */
  lemma {:induction false} RunTold(commands: seq<Command>)
    ensures Histories(Run(EMPTY, commands))
    ensures forall b :: 0 <= b < |Run(EMPTY, commands).bookings| ==>
              |HistoryOf(Run(EMPTY, commands).records, b)| == Run(EMPTY, commands).bookings[b].reschedules <= 3
  {
    if commands != [] {
      var n := |commands| - 1;
      RunTold(commands[..n]);
      StepTold(Run(EMPTY, commands[..n]), commands[n]);
      StepAtMostThree(Run(EMPTY, commands[..n]), commands[n]);
    }
  }

  // ---------------------------------------------------------------- no-show records

  /** The record belongs to a booking that is no-show or completed, and was declared at least two hours
      after that booking's start. */
  predicate RecordFits(cal: Cal, k: nat)
    requires k < |cal.absences|
  {
    var r := cal.absences[k];
    r.booking < |cal.bookings| &&
    var row := cal.bookings[r.booking];
    (row.status.NoShow? || row.status.Completed?) && row.start.Some? && row.start.value + 2 * HOUR <= r.declaredAt
  }

  predicate HasRecord(cal: Cal, b: nat) {
    exists k :: 0 <= k < |cal.absences| && cal.absences[k].booking == b
  }

  /** Every no-show record fits its booking and is the only one of it; a no-show booking has one. */
  predicate Absences(cal: Cal) {
    && (forall k :: 0 <= k < |cal.absences| ==> RecordFits(cal, k))
    && (forall k, l :: 0 <= k < l < |cal.absences| ==> cal.absences[k].booking != cal.absences[l].booking)
    && (forall b :: 0 <= b < |cal.bookings| && cal.bookings[b].status.NoShow? ==> HasRecord(cal, b))
  }

  /** Every record still fits its row, and a new one is the first of its booking. */
  lemma EditRecordsFit(cal: Cal, c: Command, cal': Cal)
    requires Absences(cal) && Edits(c) && Edited(cal, c, cal')
    ensures forall k :: 0 <= k < |cal'.absences| ==> RecordFits(cal', k)
    ensures forall k, l :: 0 <= k < l < |cal'.absences| ==> cal'.absences[k].booking != cal'.absences[l].booking
  {
    EditMoves(cal, c, cal');
    forall k | 0 <= k < |cal'.absences| ensures RecordFits(cal', k) {
      if k < |cal.absences| {
        assert cal'.absences[k] == cal.absences[k] && RecordFits(cal, k);
        assert RowMoves(cal.bookings[cal.absences[k].booking], cal'.bookings[cal.absences[k].booking]);
      }
    }
  }

  lemma EditAbsences(cal: Cal, c: Command, cal': Cal)
    requires Absences(cal) && Edits(c) && Edited(cal, c, cal')
    ensures Absences(cal')
  {
    EditRecordsFit(cal, c, cal');
    forall b | 0 <= b < |cal'.bookings| && cal'.bookings[b].status.NoShow? ensures HasRecord(cal', b) {
      if cal.bookings[b].status.NoShow? {
        assert HasRecord(cal, b);
        var k :| 0 <= k < |cal.absences| && cal.absences[k].booking == b;
        assert cal'.absences[k].booking == b;
      } else {
        assert cal'.absences[|cal.absences|].booking == b;
      }
    }
  }

  lemma OtherAbsences(cal: Cal, cal': Cal)
    requires Absences(cal) && cal'.absences == cal.absences && |cal.bookings| <= |cal'.bookings|
    requires forall b :: 0 <= b < |cal.bookings| ==> cal'.bookings[b] == cal.bookings[b]
    requires forall b :: |cal.bookings| <= b < |cal'.bookings| ==> cal'.bookings[b].status.Unscheduled?
    ensures Absences(cal')
  {
    forall k | 0 <= k < |cal'.absences| ensures RecordFits(cal', k) { assert RecordFits(cal, k); }
    forall b | 0 <= b < |cal'.bookings| && cal'.bookings[b].status.NoShow? ensures HasRecord(cal', b) {
      assert HasRecord(cal, b);
    }
  }

  lemma StepAbsences(cal: Cal, c: Command)
    requires Absences(cal)
    ensures Absences(Step(cal, c))
  {
    if Edits(c) {
      StepEdits(cal, c);
      if Step(cal, c) != cal { EditAbsences(cal, c, Step(cal, c)); }
    } else {
      StepOther(cal, c);
      OtherAbsences(cal, Step(cal, c));
    }
  }

  lemma {:induction false} RunAbsences(commands: seq<Command>)
    ensures Absences(Run(EMPTY, commands))
  {
    if commands != [] {
      var n := |commands| - 1;
      RunAbsences(commands[..n]);
      StepAbsences(Run(EMPTY, commands[..n]), commands[n]);
    }
  }
}
