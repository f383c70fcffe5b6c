/** What the audit log says about bookings: every column of its own can be replayed and taken back, and the
    borrowed texts of request and technician only as long as they stay what they were. */
module CalendarAudit {
  import opened Prelude
  import opened AuditTrail
  import opened Calendar
  import opened CalendarHistory

  // ---------------------------------------------------------------- audit replay

  /** Every booking's own columns are what its log entries say. */
  predicate Audited(cal: Cal) {
    && (forall k :: 0 <= k < |cal.log| ==> cal.log[k].resource < |cal.bookings|)
    && (forall b :: 0 <= b < |cal.bookings| ==> Logged(cal, b))
  }

  predicate Logged(cal: Cal, b: nat)
    requires b < |cal.bookings|
  {
    var told := Replay(cal.log, b);
    told.Keys == Body(cal.bookings[b]).Keys + BORROWED && told - BORROWED == Body(cal.bookings[b])
  }

  lemma {:induction false} NothingLogged(log: seq<Entry<Column>>, b: nat)
    requires forall k :: 0 <= k < |log| ==> log[k].resource != b
    ensures Replay(log, b) == map[]
  {
    if log != [] { NothingLogged(log[..|log| - 1], b); }
  }

  /** What a logged edit records: the booking's own columns that changed, and never a borrowed text, because
      both versions of the row borrow it from the same request and technician at the same moment. */
  lemma DeltaIsOwn(cal: Cal, before: Booking, after: Booking)
    requires before.request == after.request && before.technician == after.technician
    ensures DeltaOf(Render(cal, before), Render(cal, after)) == DeltaOf(Body(before), Body(after))
  {
    LentCancels(Body(before), Body(after), LentTo(cal, before));
  }

  lemma EditLogged(cal: Cal, c: Command, cal': Cal, b: nat)
    requires b < |cal.bookings| && Edits(c) && Edited(cal, c, cal')
    ensures Replay(cal'.log, b) ==
            if b == c.booking
            then Replay(cal.log, b) + DeltaOf(Body(cal.bookings[b]), Body(cal'.bookings[b])).after
            else Replay(cal.log, b)
  {
    var before, after := cal.bookings[c.booking], cal'.bookings[c.booking];
    DeltaIsOwn(cal, before, after);
    ReplayAppend(cal.log, Transition(c.booking, Render(cal, before), Render(cal, after)), b);
  }

  lemma EditKeepsLogged(cal: Cal, c: Command, cal': Cal, b: nat)
    requires b < |cal.bookings| && Logged(cal, b) && Edits(c) && Edited(cal, c, cal')
    ensures Logged(cal', b)
  {
    EditLogged(cal, c, cal', b);
    if b == c.booking {
      RedoBeside(Replay(cal.log, b), Body(cal.bookings[b]), Body(cal'.bookings[b]), BORROWED);
    } else {
      assert cal'.bookings[b] == cal.bookings[b];
    }
  }

  lemma EditAudited(cal: Cal, c: Command, cal': Cal)
    requires Audited(cal) && Edits(c) && Edited(cal, c, cal')
    ensures Audited(cal')
  {
    forall b | 0 <= b < |cal'.bookings| ensures Logged(cal', b) { EditKeepsLogged(cal, c, cal', b); }
  }

  lemma CreateLogged(cal: Cal, row: Booking, cal': Cal)
    requires Audited(cal)
    requires cal'.bookings == cal.bookings + [row]
    requires cal'.log == cal.log + [Creation(|cal.bookings|, Render(cal, row))]
    ensures Replay(cal'.log, |cal.bookings|) == Render(cal, row)
    ensures forall b :: 0 <= b < |cal.bookings| ==> Replay(cal'.log, b) == Replay(cal.log, b)
  {
    NothingLogged(cal.log, |cal.bookings|);
    forall b | 0 <= b <= |cal.bookings|
      ensures Replay(cal'.log, b) == if b == |cal.bookings| then Render(cal, row) else Replay(cal.log, b)
    {
      ReplayAppend(cal.log, Creation(|cal.bookings|, Render(cal, row)), b);
    }
  }

  lemma CreateAudited(cal: Cal, row: Booking, cal': Cal)
    requires Audited(cal)
    requires cal'.bookings == cal.bookings + [row]
    requires cal'.log == cal.log + [Creation(|cal.bookings|, Render(cal, row))]
    ensures Audited(cal')
  {
    CreateLogged(cal, row, cal');
    assert Render(cal, row) - BORROWED == Body(row);
    forall b | 0 <= b < |cal'.bookings| ensures Logged(cal', b) {
      if b < |cal.bookings| { assert Logged(cal, b); }
    }
  }

  lemma StepAudited(cal: Cal, c: Command)
    requires Audited(cal)
    ensures Audited(Step(cal, c))
  {
    var cal' := Step(cal, c);
    if Edits(c) {
      StepEdits(cal, c);
      if cal' != cal { EditAudited(cal, c, cal'); }
    } else {
      StepOther(cal, c);
      if cal'.bookings != cal.bookings {
        CreateAudited(cal, CreatedRow(c), cal');
      } else {
        forall b | 0 <= b < |cal'.bookings| ensures Logged(cal', b) { assert Logged(cal, b); }
      }
    }
  }

  lemma {:induction false} AuditedRun(cal: Cal, commands: seq<Command>)
    requires Audited(cal)
    ensures Audited(Run(cal, commands))
  {
    if commands != [] {
      var n := |commands| - 1;
      AuditedRun(cal, commands[..n]);
      StepAudited(Run(cal, commands[..n]), commands[n]);
    }
  }

  /** Replaying a booking's log entries from its creation rebuilds every column of its own, after any run. */
  lemma RunAudited(commands: seq<Command>)
    ensures Audited(Run(EMPTY, commands))
  {
    AuditedRun(EMPTY, commands);
  }

  /** The borrowed texts of a booking are never logged again: replay keeps those of its creation. */
  predicate BorrowedStays(log: seq<Entry<Column>>, log': seq<Entry<Column>>, b: nat) {
    forall k :: k in BORROWED ==> Get(Replay(log', b), k) == Get(Replay(log, b), k)
  }

  lemma EditBorrowedStays(cal: Cal, c: Command, cal': Cal, b: nat)
    requires Audited(cal) && b < |cal.bookings| && Edits(c) && Edited(cal, c, cal')
    ensures BorrowedStays(cal.log, cal'.log, b)
  {
    assert Logged(cal, b);
    EditLogged(cal, c, cal', b);
    RedoBeside(Replay(cal.log, b), Body(cal.bookings[b]), Body(cal'.bookings[b]), BORROWED);
  }

  lemma StepBorrowedStays(cal: Cal, c: Command, b: nat)
    requires Audited(cal) && b < |cal.bookings|
    ensures b < |Step(cal, c).bookings| && BorrowedStays(cal.log, Step(cal, c).log, b)
  {
    var cal' := Step(cal, c);
    if Edits(c) {
      StepEdits(cal, c);
      if cal' != cal { EditBorrowedStays(cal, c, cal', b); }
    } else {
      StepOther(cal, c);
      if cal'.bookings != cal.bookings { CreateLogged(cal, CreatedRow(c), cal'); }
    }
  }

  lemma {:induction false} RunBorrowedStays(cal: Cal, commands: seq<Command>, b: nat)
    requires Audited(cal) && b < |cal.bookings|
    ensures b < |Run(cal, commands).bookings| && BorrowedStays(cal.log, Run(cal, commands).log, b)
    ensures Run(cal, commands).bookings[b].request == cal.bookings[b].request
    ensures Run(cal, commands).bookings[b].technician == cal.bookings[b].technician
  {
    if commands != [] {
      var n := |commands| - 1;
      RunBorrowedStays(cal, commands[..n], b);
      AuditedRun(cal, commands[..n]);
      StepBorrowedStays(Run(cal, commands[..n]), commands[n], b);
      StepMoves(Run(cal, commands[..n]), commands[n]);
    }
  }

  lemma ReplayedIsCurrent(made: Cal, now: Cal, b: nat)
    requires b < |made.bookings| && b < |now.bookings| && Logged(now, b)
    requires Replay(made.log, b) == Render(made, made.bookings[b]) && BorrowedStays(made.log, now.log, b)
    requires now.bookings[b].request == made.bookings[b].request
    requires now.bookings[b].technician == made.bookings[b].technician
    ensures var row := now.bookings[b];
            Replay(now.log, b) == Render(now, row) <==>
              TextOf(now.requestTexts, row.request) == TextOf(made.requestTexts, row.request) &&
              TextOf(now.userTexts, row.technician) == TextOf(made.userTexts, row.technician)
  {
    var told, shown := Replay(now.log, b), Render(now, now.bookings[b]);
    assert RequestId in BORROWED && TechnicianId in BORROWED;
    assert Get(told, RequestId) == told[RequestId] == TextOf(made.requestTexts, now.bookings[b].request);
    assert Get(told, TechnicianId) == told[TechnicianId] == TextOf(made.userTexts, now.bookings[b].technician);
    forall k | k in told && k !in BORROWED ensures k in shown && told[k] == shown[k] {
      assert (told - BORROWED)[k] == Body(now.bookings[b])[k];
    }
    assert told.Keys == shown.Keys;
  }

  /** A booking is created and anything runs after that: replaying its entries gives the row as the log would
      show it now if and only if request and technician still describe themselves as they did at its creation. */
  lemma ReplayExact(early: seq<Command>, request: int, technician: int, duration: Option<int>, late: seq<Command>)
    requires CreateTx(Run(EMPTY, early), request, technician, duration).Commit?
    ensures var before := Run(EMPTY, early);
            var b := |before.bookings|;
            var made := Step(before, Create(request, technician, duration));
            var now := Run(made, late);
            && b < |made.bookings| && b < |now.bookings|
            && Replay(now.log, b) - BORROWED == Body(now.bookings[b])
            && (Replay(now.log, b) == Render(now, now.bookings[b]) <==>
                  TextOf(now.requestTexts, request) == TextOf(made.requestTexts, request) &&
                  TextOf(now.userTexts, technician) == TextOf(made.userTexts, technician))
  {
    var before := Run(EMPTY, early);
    var c := Create(request, technician, duration);
    var b := |before.bookings|;
    var made := Step(before, c);
    RunAudited(early);
    StepOther(before, c);
    CreateLogged(before, CreatedRow(c), made);
    CreateAudited(before, CreatedRow(c), made);
    AuditedRun(made, late);
    RunBorrowedStays(made, late, b);
    var now := Run(made, late);
    assert Logged(now, b);
    ReplayedIsCurrent(made, now, b);
  }

  /** It does go stale: as soon as the request describes itself anew, replay no longer gives the row shown. */
  lemma RequestAdvances(text: string)
    requires text != ""
    ensures var now := Run(Step(EMPTY, Create(1, 7, None)), [DescribeRequest(1, text)]);
            |now.bookings| == 1 && Replay(now.log, 0) != Render(now, now.bookings[0])
  {
    var made := Step(EMPTY, Create(1, 7, None));
    FirstMade();
    ReplayExact([], 1, 7, None, [DescribeRequest(1, text)]);
    Described(made, text);
  }

  lemma FirstMade()
    ensures CreateTx(Run(EMPTY, []), 1, 7, None).Commit?
    ensures var made := Step(EMPTY, Create(1, 7, None));
            |made.bookings| == 1 && made.requestTexts == map[]
  {
    assert EMPTY.bookings + [Booking(1, 7, Unscheduled, None, None, None, None, 0)] ==
           [Booking(1, 7, Unscheduled, None, None, None, None, 0)];
  }

  lemma Described(cal: Cal, text: string)
    ensures Run(cal, [DescribeRequest(1, text)]) == cal.(requestTexts := cal.requestTexts[1 := text])
  {
    assert [DescribeRequest(1, text)][..0] == [];
    assert Run(cal, []) == cal;
  }

  /** The log tells apart every booking row up to the identities behind its two borrowed texts. */
  lemma BodyInjective(a: Booking, b: Booking)
    requires Body(a) == Body(b)
    ensures a.(request := b.request, technician := b.technician) == b
  {
    var left, right := Body(a), Body(b);
    assert left[StatusCode] == right[StatusCode] && left[StartedAt] == right[StartedAt];
    assert left[StartTime] == right[StartTime] && left[EndTime] == right[EndTime];
    assert left[DurationDays] == right[DurationDays] && left[RescheduleCount] == right[RescheduleCount];
    StatusTextInjective(a.status, b.status);
  }

  lemma StatusTextInjective(a: Status, b: Status)
    requires StatusText(a) == StatusText(b)
    ensures a == b
  {
    assert |StatusText(Unscheduled)| == 11 && |StatusText(Scheduled)| == 9 && |StatusText(InProgress)| == 11;
    assert |StatusText(Completed)| == 9 && |StatusText(Cancelled)| == 9 && |StatusText(NoShow)| == 7;
    assert StatusText(Unscheduled)[0] == 'u' && StatusText(InProgress)[0] == 'i' && StatusText(Scheduled)[0] == 's';
    assert StatusText(Completed)[1] == 'o' && StatusText(Cancelled)[1] == 'a' && StatusText(Scheduled)[1] == 'c';
  }

  lemma LoggedRowExists(cal: Cal, n: nat)
    requires Audited(cal) && Replay(cal.log, n) != map[]
    ensures n < |cal.bookings|
  {
    if |cal.bookings| <= n { NothingLogged(cal.log, n); }
  }

  lemma NoMoreRows(a: Cal, b: Cal)
    requires Audited(a) && Audited(b) && a.log == b.log
    ensures |a.bookings| <= |b.bookings|
  {
    if a.bookings != [] {
      var last := |a.bookings| - 1;
      assert Logged(a, last);
      assert StatusCode in Replay(a.log, last);
      LoggedRowExists(b, last);
    }
  }

  /** The audit log alone determines the bookings: two runs that logged the same left the same rows, up to
      which requests and technicians the logged texts belong to. */
  lemma LogDeterminesBookings(first: seq<Command>, second: seq<Command>)
    requires Run(EMPTY, first).log == Run(EMPTY, second).log
    ensures var a, b := Run(EMPTY, first).bookings, Run(EMPTY, second).bookings;
            |a| == |b| &&
            forall i :: 0 <= i < |a| ==> a[i].(request := b[i].request, technician := b[i].technician) == b[i]
  {
    var a, b := Run(EMPTY, first), Run(EMPTY, second);
    RunAudited(first);
    RunAudited(second);
    NoMoreRows(a, b);
    NoMoreRows(b, a);
    forall i | 0 <= i < |a.bookings|
      ensures a.bookings[i].(request := b.bookings[i].request, technician := b.bookings[i].technician) == b.bookings[i]
    {
      assert Logged(a, i) && Logged(b, i);
      BodyInjective(a.bookings[i], b.bookings[i]);
    }
  }

  // ---------------------------------------------------------------- what one entry says

  predicate Names(value: Value, status: Status) {
    || (status == Unscheduled && value == Text("unscheduled")) || (status == Scheduled && value == Text("scheduled"))
    || (status == InProgress && value == Text("in_progress")) || (status == Completed && value == Text("completed"))
    || (status == Cancelled && value == Text("cancelled")) || (status == NoShow && value == Text("no_show"))
  }

  /** The delta has the column exactly if its value changed, with the value before and after. */
  predicate Tells(delta: Delta<Column>, column: Column, before: Value, after: Value) {
    && (column in delta.after <==> before != after) && (column in delta.before <==> before != after)
    && (column in delta.after && column in delta.before ==>
          delta.before[column] == before && delta.after[column] == after)
  }

  predicate TellsStatus(delta: Delta<Column>, before: Status, after: Status) {
    && (StatusCode in delta.after <==> before != after) && (StatusCode in delta.before <==> before != after)
    && (StatusCode in delta.after && StatusCode in delta.before ==>
          Names(delta.before[StatusCode], before) && Names(delta.after[StatusCode], after))
  }

  predicate TellsAll(delta: Delta<Column>, a: Booking, b: Booking) {
    && TellsStatus(delta, a.status, b.status)
    && Tells(delta, StartTime, if a.start.Some? then Number(a.start.value) else Null,
             if b.start.Some? then Number(b.start.value) else Null)
    && Tells(delta, EndTime, if a.end.Some? then Number(a.end.value) else Null,
             if b.end.Some? then Number(b.end.value) else Null)
    && Tells(delta, StartedAt, if a.startedAt.Some? then Number(a.startedAt.value) else Null,
             if b.startedAt.Some? then Number(b.startedAt.value) else Null)
    && Tells(delta, DurationDays, if a.duration.Some? then Number(a.duration.value) else Null,
             if b.duration.Some? then Number(b.duration.value) else Null)
    && Tells(delta, RescheduleCount, Number(a.reschedules), Number(b.reschedules))
    && RequestId !in delta.after && TechnicianId !in delta.after
  }

  lemma ColumnTells(before: Fields<Column>, after: Fields<Column>, column: Column)
    requires column in before && column in after
    ensures Tells(DeltaOf(before, after), column, before[column], after[column])
  {}

  lemma StatusTells(a: Booking, b: Booking)
    ensures TellsStatus(DeltaOf(Body(a), Body(b)), a.status, b.status)
  {
    ColumnTells(Body(a), Body(b), StatusCode);
    if StatusText(a.status) == StatusText(b.status) { StatusTextInjective(a.status, b.status); }
    StatusNamed(a.status);
    StatusNamed(b.status);
  }

  lemma StatusNamed(status: Status)
    ensures Names(Text(StatusText(status)), status)
  {}

  lemma DeltaTells(a: Booking, b: Booking)
    ensures TellsAll(DeltaOf(Body(a), Body(b)), a, b)
  {
    StatusTells(a, b);
    ColumnTells(Body(a), Body(b), StartTime);
    ColumnTells(Body(a), Body(b), EndTime);
    ColumnTells(Body(a), Body(b), StartedAt);
    ColumnTells(Body(a), Body(b), DurationDays);
    ColumnTells(Body(a), Body(b), RescheduleCount);
  }

  /** Every call that changes a booking adds one entry about it, which has exactly the columns that changed, with their
      values before and after, and neither borrowed text. */
  lemma EntryExact(cal: Cal, c: Command)
    requires Edits(c) && Step(cal, c) != cal
    ensures var cal' := Step(cal, c);
            && 0 <= c.booking < |cal.bookings| && c.booking < |cal'.bookings|
            && |cal'.log| == |cal.log| + 1 && cal'.log[..|cal.log|] == cal.log
            && cal'.log[|cal.log|].resource == c.booking
            && TellsAll(cal'.log[|cal.log|].delta, cal.bookings[c.booking], cal'.bookings[c.booking])
  {
    StepEdits(cal, c);
    EditTells(cal, c, Step(cal, c));
  }

  lemma EditTells(cal: Cal, c: Command, cal': Cal)
    requires Edits(c) && Edited(cal, c, cal')
    ensures |cal'.log| == |cal.log| + 1 && cal'.log[..|cal.log|] == cal.log
    ensures cal'.log[|cal.log|].resource == c.booking
    ensures TellsAll(cal'.log[|cal.log|].delta, cal.bookings[c.booking], cal'.bookings[c.booking])
  {
    var before, after := cal.bookings[c.booking], cal'.bookings[c.booking];
    RowStepMoves(c, before, after);
    DeltaIsOwn(cal, before, after);
    DeltaTells(before, after);
  }

  // ---------------------------------------------------------------- audit rewinding

  /** Taking the entries back off the later fields gives the earlier ones, whatever borrowed texts stand beside
      them: those pass through unchanged. */
  ghost predicate Undoes(log: seq<Entry<Column>>, b: nat, later: Fields<Column>, earlier: Fields<Column>) {
    forall lent: Fields<Column> :: lent.Keys == BORROWED ==> Rewind(later + lent, log, b) == earlier + lent
  }

  /** Undoing what the log gained since `cal` turns the booking's later row into its earlier one. */
  ghost predicate Rewinds(cal: Cal, cal': Cal, b: nat) {
    && b < |cal.bookings| <= |cal'.bookings| && cal.log <= cal'.log
    && Undoes(cal'.log[|cal.log|..], b, Body(cal'.bookings[b]), Body(cal.bookings[b]))
  }

  /** The log gained one entry, and it tells how booking `b` changed. */
  predicate Entered(cal: Cal, cal': Cal, e: Entry<Column>, b: nat) {
    && b < |cal.bookings| <= |cal'.bookings| && cal'.log == cal.log + [e]
    && if e.resource == b then e.delta == DeltaOf(Body(cal.bookings[b]), Body(cal'.bookings[b]))
       else cal'.bookings[b] == cal.bookings[b]
  }

  /** The one entry an edit adds, as far as booking `b` is concerned. */
  lemma EditEntry(cal: Cal, c: Command, cal': Cal, b: nat) returns (e: Entry<Column>)
    requires b < |cal.bookings| && Edits(c) && Edited(cal, c, cal')
    ensures Entered(cal, cal', e, b)
  {
    var before, after := cal.bookings[c.booking], cal'.bookings[c.booking];
    e := Transition(c.booking, Render(cal, before), Render(cal, after));
    DeltaIsOwn(cal, before, after);
  }

  lemma EditRewinds(cal: Cal, c: Command, cal': Cal, b: nat)
    requires b < |cal.bookings| && Edits(c) && Edited(cal, c, cal')
    ensures Rewinds(cal, cal', b)
  {
    var e := EditEntry(cal, c, cal', b);
    OneEntryRewinds(cal, cal', e, b);
  }

  lemma OneEntryRewinds(cal: Cal, cal': Cal, e: Entry<Column>, b: nat)
    requires Entered(cal, cal', e, b)
    ensures Rewinds(cal, cal', b)
  {
    assert cal'.log[|cal.log|..] == [e];
    EntryRewindsAll(Body(cal.bookings[b]), Body(cal'.bookings[b]), e, b);
  }

  lemma EntryRewindsAll(earlier: Fields<Column>, later: Fields<Column>, e: Entry<Column>, b: nat)
    requires earlier.Keys == later.Keys && later.Keys !! BORROWED
    requires if e.resource == b then e.delta == DeltaOf(earlier, later) else earlier == later
    ensures Undoes([e], b, later, earlier)
  {
    forall lent: Fields<Column> | lent.Keys == BORROWED ensures Rewind(later + lent, [e], b) == earlier + lent {
      EntryRewinds(earlier, later, e, b, lent);
    }
  }

  lemma CreateRewinds(cal: Cal, row: Booking, cal': Cal, b: nat)
    requires b < |cal.bookings| && cal'.bookings == cal.bookings + [row]
    requires cal'.log == cal.log + [Creation(|cal.bookings|, Render(cal, row))]
    ensures Rewinds(cal, cal', b)
  {
    OneEntryRewinds(cal, cal', Creation(|cal.bookings|, Render(cal, row)), b);
  }

  lemma StepRewinds(cal: Cal, c: Command, b: nat)
    requires b < |cal.bookings|
    ensures Rewinds(cal, Step(cal, c), b)
  {
    var cal' := Step(cal, c);
    assert cal.log[|cal.log|..] == [];
    if Edits(c) {
      StepEdits(cal, c);
      if cal' != cal { EditRewinds(cal, c, cal', b); }
    } else {
      StepOther(cal, c);
      if cal'.log != cal.log { CreateRewinds(cal, CreatedRow(c), cal', b); }
    }
  }

  lemma {:induction false} RewindConcat(row: Fields<Column>, early: seq<Entry<Column>>, late: seq<Entry<Column>>,
                                        b: nat)
    ensures Rewind(row, early + late, b) == Rewind(Rewind(row, late, b), early, b)
    decreases |late|
  {
    if late == [] {
      assert early + late == early;
    } else {
      var n := |late| - 1;
      assert early + late == (early + late[..n]) + [late[n]];
      var row' := if late[n].resource == b then row + late[n].delta.before else row;
      RewindAppend(row, early + late[..n], late[n], b);
      RewindConcat(row', early, late[..n], b);
    }
  }

  lemma RewindsThrough(cal: Cal, middle: Cal, last: Cal, b: nat)
    requires Rewinds(cal, middle, b) && Rewinds(middle, last, b)
    ensures Rewinds(cal, last, b)
  {
    var early, late := middle.log[|cal.log|..], last.log[|middle.log|..];
    assert last.log[|cal.log|..] == early + late;
    forall lent: Fields<Column> | lent.Keys == BORROWED
      ensures Rewind(Body(last.bookings[b]) + lent, last.log[|cal.log|..], b) == Body(cal.bookings[b]) + lent
    {
      RewindConcat(Body(last.bookings[b]) + lent, early, late, b);
    }
  }

  lemma {:induction false} RewindingRun(cal: Cal, commands: seq<Command>, b: nat)
    requires b < |cal.bookings|
    ensures Rewinds(cal, Run(cal, commands), b)
  {
    if commands == [] {
      assert cal.log[|cal.log|..] == [];
    } else {
      var n := |commands| - 1;
      RewindingRun(cal, commands[..n], b);
      StepRewinds(Run(cal, commands[..n]), commands[n], b);
      RewindsThrough(cal, Run(cal, commands[..n]), Run(cal, commands), b);
    }
  }

  /** Taking the entries of a whole run back off a booking's row, as the log shows it at the end, gives the row
      from before the run under the texts of the end; it is the row the log showed then if and only if request
      and technician describe themselves as they did then. */
  lemma RunRewinds(cal: Cal, commands: seq<Command>, b: nat)
    requires b < |cal.bookings|
    ensures var now := Run(cal, commands);
            && b < |now.bookings| && cal.log <= now.log
            && var row := cal.bookings[b];
            && var undone := Rewind(Render(now, now.bookings[b]), now.log[|cal.log|..], b);
            && undone == Render(now, row)
            && (undone == Render(cal, row) <==>
                  TextOf(now.requestTexts, row.request) == TextOf(cal.requestTexts, row.request) &&
                  TextOf(now.userTexts, row.technician) == TextOf(cal.userTexts, row.technician))
  {
    RewindingRun(cal, commands, b);
    KeepsIdentity(cal, commands, b);
    var now, row := Run(cal, commands), cal.bookings[b];
    var later, earlier := Render(now, row), Render(cal, row);
    assert later[RequestId] == TextOf(now.requestTexts, row.request);
    assert earlier[RequestId] == TextOf(cal.requestTexts, row.request);
    assert later[TechnicianId] == TextOf(now.userTexts, row.technician);
    assert earlier[TechnicianId] == TextOf(cal.userTexts, row.technician);
  }

  lemma {:induction false} KeepsIdentity(cal: Cal, commands: seq<Command>, b: nat)
    requires b < |cal.bookings|
    ensures b < |Run(cal, commands).bookings|
    ensures Run(cal, commands).bookings[b].request == cal.bookings[b].request
    ensures Run(cal, commands).bookings[b].technician == cal.bookings[b].technician
  {
    if commands != [] {
      var n := |commands| - 1;
      KeepsIdentity(cal, commands[..n], b);
      StepMoves(Run(cal, commands[..n]), commands[n]);
    }
  }

  // ---------------------------------------------------------------- a log whose oldest entries are gone

  lemma {:induction false} ReplayConcat(early: seq<Entry<Column>>, late: seq<Entry<Column>>, b: nat)
    ensures Replay(early + late, b) == Replay(early, b) + Replay(late, b)
    decreases |late|
  {
    if late == [] {
      assert early + late == early;
    } else {
      var n := |late| - 1;
      assert early + late == (early + late[..n]) + [late[n]];
      ReplayAppend(early + late[..n], late[n], b);
      ReplayAppend(late[..n], late[n], b);
      assert late == late[..n] + [late[n]];
      ReplayConcat(early, late[..n], b);
    }
  }

  /** What the log gained since `cal` about a booking that was there names no borrowed column. */
  predicate GainsOwn(cal: Cal, cal': Cal, b: nat) {
    cal.log <= cal'.log && Replay(cal'.log[|cal.log|..], b).Keys !! BORROWED
  }

  lemma GainsThrough(cal: Cal, middle: Cal, last: Cal, b: nat)
    requires GainsOwn(cal, middle, b) && GainsOwn(middle, last, b)
    ensures GainsOwn(cal, last, b)
  {
    var early, late := middle.log[|cal.log|..], last.log[|middle.log|..];
    assert last.log[|cal.log|..] == early + late;
    ReplayConcat(early, late, b);
  }

  lemma {:induction false} OnlyOwnColumns(cal: Cal, commands: seq<Command>, b: nat)
    requires b < |cal.bookings|
    ensures GainsOwn(cal, Run(cal, commands), b)
  {
    if commands == [] {
      assert cal.log[|cal.log|..] == [];
    } else {
      var n := |commands| - 1;
      OnlyOwnColumns(cal, commands[..n], b);
      KeepsIdentity(cal, commands[..n], b);
      StepOwnColumns(Run(cal, commands[..n]), commands[n], b);
      GainsThrough(cal, Run(cal, commands[..n]), Run(cal, commands), b);
    }
  }

  lemma DeltaNotBorrowed(a: Booking, b: Booking)
    ensures DeltaOf(Body(a), Body(b)).after.Keys !! BORROWED
  {
    DeltaKeys(Body(a), Body(b));
  }

  lemma OneEntryReplays(e: Entry<Column>, b: nat)
    ensures Replay([e], b).Keys <= e.delta.after.Keys
    ensures e.resource != b ==> Replay([e], b) == map[]
  {
    ReplayAppend([], e, b);
    assert [] + [e] == [e];
  }

  lemma OneEntryOwn(cal: Cal, cal': Cal, e: Entry<Column>, b: nat)
    requires Entered(cal, cal', e, b)
    ensures GainsOwn(cal, cal', b)
  {
    assert cal'.log[|cal.log|..] == [e];
    OneEntryReplays(e, b);
    DeltaNotBorrowed(cal.bookings[b], cal'.bookings[b]);
  }

  lemma EditOwnColumns(cal: Cal, c: Command, cal': Cal, b: nat)
    requires b < |cal.bookings| && Edits(c) && Edited(cal, c, cal')
    ensures GainsOwn(cal, cal', b)
  {
    var e := EditEntry(cal, c, cal', b);
    OneEntryOwn(cal, cal', e, b);
  }

  lemma StepOwnColumns(cal: Cal, c: Command, b: nat)
    requires b < |cal.bookings|
    ensures GainsOwn(cal, Step(cal, c), b)
  {
    var cal' := Step(cal, c);
    if Edits(c) {
      StepEdits(cal, c);
      if cal' != cal { EditOwnColumns(cal, c, cal', b); }
    } else {
      StepOther(cal, c);
      if cal'.log != cal.log {
        var e := Creation(|cal.bookings|, Render(cal, CreatedRow(c)));
        assert cal'.log[|cal.log|..] == [] + [e];
        ReplayAppend([], e, b);
      }
    }
  }

  lemma KeptBringsForward(cut: Cal, now: Cal, b: nat)
    requires b < |cut.bookings| && b < |now.bookings| && Logged(cut, b) && Logged(now, b) && GainsOwn(cut, now, b)
    ensures Body(cut.bookings[b]) + Replay(now.log[|cut.log|..], b) == Body(now.bookings[b])
    ensures Replay(now.log[|cut.log|..], b) != Render(now, now.bookings[b])
  {
    var kept := now.log[|cut.log|..];
    assert now.log == cut.log + kept;
    ReplayConcat(cut.log, kept, b);
    BroughtForward(Replay(cut.log, b), Replay(kept, b), Body(cut.bookings[b]), Body(now.bookings[b]), BORROWED);
    assert RequestId in Render(now, now.bookings[b]) && RequestId !in Replay(kept, b);
  }

  /** Entries older than a year are purged, so at some time only those logged since `cut` are kept. They still
      take the current row back to the row at the cut, and bring the row at the cut forward to the current one;
      but replayed alone they never rebuild the row of a booking made before the cut. */
  lemma RetainedSuffix(early: seq<Command>, late: seq<Command>, b: nat)
    requires b < |Run(EMPTY, early).bookings|
    ensures var cut := Run(EMPTY, early);
            var now := Run(cut, late);
            && cut.log <= now.log && b < |now.bookings|
            && var kept := now.log[|cut.log|..];
            && Rewind(Render(now, now.bookings[b]), kept, b) == Render(now, cut.bookings[b])
            && Body(cut.bookings[b]) + Replay(kept, b) == Body(now.bookings[b])
            && Replay(kept, b) != Render(now, now.bookings[b])
  {
    var cut := Run(EMPTY, early);
    var now := Run(cut, late);
    RunRewinds(cut, late, b);
    OnlyOwnColumns(cut, late, b);
    RunAudited(early);
    AuditedRun(cut, late);
    assert Logged(cut, b) && Logged(now, b);
    KeptBringsForward(cut, now, b);
  }
}
