/** When the interleaved services do keep bookings and blackouts apart: for a booking call and a blackout call
    that both commit, exactly when their windows do not overlap for one technician; for whole runs, whenever no
    two unfinished calls have such windows. */
module CalendarMutex {
  import opened Prelude
  import opened Calendar
  import opened CalendarSafety
  import opened CalendarHistory
  import opened CalendarRaces

  /** The window an action's call is about to write overlaps no window that an unfinished call of the other
      kind is about to write for the same technician. */
  predicate Separate(w: World, a: Action) {
    a.Begin? ==>
      (Moving(a.call) && MovedRow(w.cal, a.call).Commit? ==>
         forall tx :: tx in w.inflight && w.inflight[tx].PlaceBlackout? ==>
           !Overlap(MovedRow(w.cal, a.call).state, w.inflight[tx].blackout)) &&
      (a.call.CreateBlackout? ==>
         forall tx :: tx in w.inflight && w.inflight[tx].PlaceBooking? ==>
           !Overlap(w.inflight[tx].row, Blackout(a.call.id, a.call.technician, a.call.from, a.call.until)))
  }

  predicate Overlap(row: Booking, b: Blackout) { BookingMeets(row, b.technician, b.start, b.end) }

  predicate AlwaysSeparate(actions: seq<Action>) {
    forall n :: 0 <= n < |actions| ==> Separate(Race(IDLE, actions[..n]), actions[n])
  }

  /** A pending booking row may be written as far as blackouts go. */
  predicate RowReady(cal: Cal, row: Booking) {
    && Active(row.status) && Placed(row)
    && !BlackoutConflict(cal.blackouts, row.technician, row.start.value, row.end.value)
  }

  predicate BlackoutReady(cal: Cal, b: Blackout) {
    b.start < b.end && !BookingConflict(cal.bookings, b.technician, b.start, b.end, -1)
  }

  predicate Ready(cal: Cal, intent: Intent) {
    match intent
    case PlaceBooking(_, row) => RowReady(cal, row)
    case PlaceBlackout(b) => BlackoutReady(cal, b)
  }

  predicate Apart(a: Intent, b: Intent) {
    a.PlaceBooking? && b.PlaceBlackout? ==> !Overlap(a.row, b.blackout)
  }

  predicate AllReady(w: World) {
    && Safe(w.cal) && LocksHold(w)
    && (forall tx :: tx in w.inflight ==> Ready(w.cal, w.inflight[tx]))
    && (forall tx, tx' :: tx in w.inflight && tx' in w.inflight ==> Apart(w.inflight[tx], w.inflight[tx']))
  }

  lemma MovedRowReady(cal: Cal, c: Command)
    requires Safe(cal) && Moving(c) && MovedRow(cal, c).Commit?
    ensures Exists(cal, c.booking) && RowReady(cal, MovedRow(cal, c).state)
    ensures MovedRow(cal, c).state.technician == cal.bookings[c.booking].technician
  {
    match c
    case Schedule(booking, start) => ScheduleChecked(cal, booking, start);
    case Reschedule(booking, start) => RescheduleChecked(cal, booking, start);
    case Extend(booking, days) => ExtendChecked(cal, booking, days);
  }

  lemma BeginReady(w: World, tx: nat, c: Command)
    requires AllReady(w) && Separate(w, Begin(tx, c))
    ensures AllReady(BeginStep(w, tx, c))
  {
    BeginKeeps(w, tx, c);
    if Moving(c) && MovedRow(w.cal, c).Commit? { MovedRowReady(w.cal, c); }
  }

  /** Writing a ready row keeps the calendar safe if the constraints take it. */
  lemma WrittenSafe(cal: Cal, booking: nat, row: Booking, cal': Cal)
    requires Safe(cal) && booking < |cal.bookings| && RowReady(cal, row)
    requires cal'.bookings == cal.bookings[booking := row] && cal'.blackouts == cal.blackouts
    requires DbAccepts(cal'.bookings)
    ensures Safe(cal')
  {
    forall i, k | 0 <= i < |cal'.bookings| && 0 <= k < |cal'.blackouts|
      ensures !Overlap(cal'.bookings[i], cal'.blackouts[k])
    {
      if i == booking {
        assert !BlackoutMeets(cal.blackouts[k], row.technician, row.start.value, row.end.value);
      }
    }
  }

  lemma OthersReady(cal: Cal, booking: nat, row: Booking, cal': Cal, intent: Intent)
    requires booking < |cal.bookings| && Ready(cal, intent)
    requires cal'.bookings == cal.bookings[booking := row] && cal'.blackouts == cal.blackouts
    requires intent.PlaceBlackout? ==> !Overlap(row, intent.blackout)
    ensures Ready(cal', intent)
  {}

  lemma BookingFinishes(w: World, tx: nat)
    requires AllReady(w) && tx in w.inflight && w.inflight[tx].PlaceBooking?
    ensures Safe(FinishStep(w, tx).cal)
    ensures forall other :: other in w.inflight && other != tx ==> Ready(FinishStep(w, tx).cal, w.inflight[other])
  {
    var c, row := w.inflight[tx].call, w.inflight[tx].row;
    var cal' := FinishStep(w, tx).cal;
    if SaveTx(w.cal, c, row).Commit? {
      SaveEdits(w.cal, c, row);
      WrittenSafe(w.cal, c.booking, row, cal');
      forall other | other in w.inflight && other != tx ensures Ready(cal', w.inflight[other]) {
        assert Apart(w.inflight[tx], w.inflight[other]);
        OthersReady(w.cal, c.booking, row, cal', w.inflight[other]);
      }
    }
  }

  lemma BlackoutFinishes(w: World, tx: nat)
    requires AllReady(w) && tx in w.inflight && w.inflight[tx].PlaceBlackout?
    ensures Safe(FinishStep(w, tx).cal)
    ensures forall other :: other in w.inflight && other != tx ==> Ready(FinishStep(w, tx).cal, w.inflight[other])
  {
    var b := w.inflight[tx].blackout;
    var cal' := FinishStep(w, tx).cal;
    if cal' != w.cal {
      assert cal'.blackouts == w.cal.blackouts + [b] && cal'.bookings == w.cal.bookings;
      forall i, k | 0 <= i < |cal'.bookings| && 0 <= k < |cal'.blackouts|
        ensures !Overlap(cal'.bookings[i], cal'.blackouts[k])
      {}
      forall other | other in w.inflight && other != tx ensures Ready(cal', w.inflight[other]) {
        assert Apart(w.inflight[other], w.inflight[tx]);
      }
    }
  }

  /** A checked booking row and a checked blackout are both written, in either order: the calendar is safe
      afterwards if and only if they are of different technicians or their windows do not overlap. */
  lemma FinishBothExact(w: World, t: nat, u: nat)
    requires Safe(w.cal) && LocksHold(w)
    requires t in w.inflight && w.inflight[t].PlaceBooking? && Ready(w.cal, w.inflight[t])
    requires u in w.inflight && w.inflight[u].PlaceBlackout? && Ready(w.cal, w.inflight[u])
    requires SaveTx(w.cal, w.inflight[t].call, w.inflight[t].row).Commit?
    requires InsertBlackoutTx(w.cal, w.inflight[u].blackout).Commit?
    ensures var row, b := w.inflight[t].row, w.inflight[u].blackout;
            Safe(FinishStep(FinishStep(w, t), u).cal) <==>
              row.technician != b.technician || row.end.value <= b.start || b.end <= row.start.value
    ensures FinishStep(FinishStep(w, u), t).cal == FinishStep(FinishStep(w, t), u).cal
  {
    var c, row, b := w.inflight[t].call, w.inflight[t].row, w.inflight[u].blackout;
    var saved := SaveTx(w.cal, c, row).state;
    SaveEdits(w.cal, c, row);
    WrittenSafe(w.cal, c.booking, row, saved);
    BookingThenBlackout(w, t, u);
    BlackoutThenBooking(w, t, u);
    BlackoutAddedExact(w.cal, c.booking, row, saved, b);
  }

  lemma CheckedTogether(w: World)
    requires Stage(w, [CREATED], [], map[0 := BOOKING_CHECKED, 1 := BLACKOUT_CHECKED])
    ensures Safe(w.cal) && LocksHold(w) && Ready(w.cal, w.inflight[0]) && Ready(w.cal, w.inflight[1])
    ensures SaveTx(w.cal, w.inflight[0].call, w.inflight[0].row).Commit?
    ensures InsertBlackoutTx(w.cal, w.inflight[1].blackout).Commit?
  {
    assert [CREATED][0 := PLACED] == [PLACED];
    assert DbAccepts([PLACED]);
  }

  /** In the overlapping run, once both calls have passed their checks, either order of writing leaves the
      calendar unsafe. */
  lemma CheckedTogetherUnsafe()
    ensures var w := Race(IDLE, [Atomic(Create(1, 7, None)), Begin(0, Schedule(0, 0)),
                                 Begin(1, CreateBlackout(9, 7, 0, DAY))]);
            && Safe(w.cal) && !Safe(FinishStep(FinishStep(w, 0), 1).cal) && !Safe(FinishStep(FinishStep(w, 1), 0).cal)
  {
    var create, schedule, blackout :=
      Atomic(Create(1, 7, None)), Begin(0, Schedule(0, 0)), Begin(1, CreateBlackout(9, 7, 0, DAY));
    BothChecked(create, schedule, blackout);
    var w := Race(IDLE, [create, schedule, blackout]);
    CheckedTogether(w);
    FinishBothExact(w, 0, 1);
  }

  /** The calendar with both written. */
  function Both(cal: Cal, c: Command, row: Booking, b: Blackout): Cal
    requires Moving(c) && Exists(cal, c.booking) && SaveTx(cal, c, row).Commit?
  {
    var saved := SaveTx(cal, c, row).state;
    saved.(blackouts := saved.blackouts + [b])
  }

  lemma BookingThenBlackout(w: World, t: nat, u: nat)
    requires LocksHold(w) && t in w.inflight && u in w.inflight
    requires w.inflight[t].PlaceBooking? && w.inflight[u].PlaceBlackout?
    requires SaveTx(w.cal, w.inflight[t].call, w.inflight[t].row).Commit?
    requires InsertBlackoutTx(w.cal, w.inflight[u].blackout).Commit?
    ensures FinishStep(FinishStep(w, t), u).cal ==
            Both(w.cal, w.inflight[t].call, w.inflight[t].row, w.inflight[u].blackout)
  {
    var w' := FinishStep(w, t);
    assert u in w'.inflight && w'.inflight[u] == w.inflight[u];
    assert w'.cal == SaveTx(w.cal, w.inflight[t].call, w.inflight[t].row).state;
  }

  lemma BlackoutThenBooking(w: World, t: nat, u: nat)
    requires LocksHold(w) && t in w.inflight && u in w.inflight
    requires w.inflight[t].PlaceBooking? && w.inflight[u].PlaceBlackout?
    requires SaveTx(w.cal, w.inflight[t].call, w.inflight[t].row).Commit?
    requires InsertBlackoutTx(w.cal, w.inflight[u].blackout).Commit?
    ensures FinishStep(FinishStep(w, u), t).cal ==
            Both(w.cal, w.inflight[t].call, w.inflight[t].row, w.inflight[u].blackout)
  {
    var w' := FinishStep(w, u);
    assert t in w'.inflight && w'.inflight[t] == w.inflight[t];
    assert w'.cal == w.cal.(blackouts := w.cal.blackouts + [w.inflight[u].blackout]);
  }

  lemma BlackoutAddedExact(cal: Cal, booking: nat, row: Booking, saved: Cal, b: Blackout)
    requires booking < |cal.bookings| && saved.bookings == cal.bookings[booking := row]
    requires Safe(saved) && RowReady(cal, row) && BlackoutReady(cal, b)
    ensures Safe(saved.(blackouts := saved.blackouts + [b])) <==> !Overlap(row, b)
  {
    var both := saved.(blackouts := saved.blackouts + [b]);
    var last := |saved.blackouts|;
    assert both.blackouts[last] == b && both.bookings[booking] == row;
    if !Overlap(row, b) {
      forall i, k | 0 <= i < |both.bookings| && 0 <= k < |both.blackouts|
        ensures !Overlap(both.bookings[i], both.blackouts[k])
      {
        assert i != booking ==> !BookingMeets(cal.bookings[i], b.technician, b.start, b.end);
      }
    } else {
      assert BookingMeets(both.bookings[booking], both.blackouts[last].technician, both.blackouts[last].start,
                          both.blackouts[last].end);
    }
  }

  lemma FinishReady(w: World, tx: nat)
    requires AllReady(w) && Consistent(w.cal)
    ensures AllReady(FinishStep(w, tx))
  {
    FinishKeeps(w, tx);
    if tx in w.inflight {
      if w.inflight[tx].PlaceBooking? { BookingFinishes(w, tx); } else { BlackoutFinishes(w, tx); }
    }
  }

  lemma RowStillReady(cal: Cal, cal': Cal, row: Booking)
    requires RowReady(cal, row) && forall k :: 0 <= k < |cal'.blackouts| ==> cal'.blackouts[k] in cal.blackouts
    ensures RowReady(cal', row)
  {
    forall k | 0 <= k < |cal'.blackouts|
      ensures !BlackoutMeets(cal'.blackouts[k], row.technician, row.start.value, row.end.value)
    {
      var j :| 0 <= j < |cal.blackouts| && cal.blackouts[j] == cal'.blackouts[k];
    }
  }

  /** A row that holds no more of its window than before. */
  predicate Frees(before: Booking, after: Booking) {
    Active(after.status) ==>
      Active(before.status) && after.technician == before.technician &&
      after.start == before.start && after.end == before.end
  }

  lemma StepFrees(cal: Cal, c: Command)
    requires !Moving(c) && !c.CreateBlackout?
    ensures |cal.bookings| <= |Step(cal, c).bookings|
    ensures forall i :: 0 <= i < |cal.bookings| ==> Frees(cal.bookings[i], Step(cal, c).bookings[i])
    ensures forall i :: |cal.bookings| <= i < |Step(cal, c).bookings| ==> !Active(Step(cal, c).bookings[i].status)
  {
    if Edits(c) { StepEdits(cal, c); } else { StepOther(cal, c); }
  }

  lemma BlackoutStillReady(cal: Cal, cal': Cal, b: Blackout)
    requires BlackoutReady(cal, b) && |cal.bookings| <= |cal'.bookings|
    requires forall i :: 0 <= i < |cal.bookings| ==> Frees(cal.bookings[i], cal'.bookings[i])
    requires forall i :: |cal.bookings| <= i < |cal'.bookings| ==> !Active(cal'.bookings[i].status)
    ensures BlackoutReady(cal', b)
  {
    forall i | 0 <= i < |cal'.bookings| ensures !BookingMeets(cal'.bookings[i], b.technician, b.start, b.end) {
      if i < |cal.bookings| { assert !BookingMeets(cal.bookings[i], b.technician, b.start, b.end); }
    }
  }

  /** Calls that move nothing can only free time. */
  lemma StillReady(cal: Cal, c: Command, intent: Intent)
    requires !Moving(c) && !c.CreateBlackout? && Ready(cal, intent)
    ensures Ready(Step(cal, c), intent)
  {
    match intent
    case PlaceBooking(_, row) =>
      NoNewBlackouts(cal, c);
      RowStillReady(cal, Step(cal, c), row);
    case PlaceBlackout(b) =>
      StepFrees(cal, c);
      BlackoutStillReady(cal, Step(cal, c), b);
  }

  lemma NoNewBlackouts(cal: Cal, c: Command)
    requires !c.CreateBlackout?
    ensures forall k :: 0 <= k < |Step(cal, c).blackouts| ==> Step(cal, c).blackouts[k] in cal.blackouts
  {
    match c
    case Create(_, _, _) =>
    case Schedule(_, _) =>
    case Reschedule(_, _) =>
    case Start(_, _) =>
    case Extend(_, _) =>
    case ReportNoShow(_, _, _) =>
    case Complete(_) =>
    case Cancel(_) =>
    case DeleteBlackout(_) =>
    case DescribeRequest(_, _) =>
    case DescribeUser(_, _) =>
  }

  lemma AtomicReady(w: World, c: Command)
    requires AllReady(w) && Consistent(w.cal)
    ensures AllReady(AtomicStep(w, c))
  {
    AtomicKeeps(w, c);
    if AtomicStep(w, c) != w {
      StepSafe(w.cal, c);
      forall tx | tx in w.inflight ensures Ready(Step(w.cal, c), w.inflight[tx]) {
        StillReady(w.cal, c, w.inflight[tx]);
      }
    }
  }

  lemma ActReady(w: World, a: Action)
    requires AllReady(w) && Consistent(w.cal) && Separate(w, a)
    ensures AllReady(Act(w, a))
  {
    match a
    case Begin(tx, c) => BeginReady(w, tx, c);
    case Finish(tx) => FinishReady(w, tx);
    case Atomic(c) => AtomicReady(w, c);
  }

  lemma PrefixSeparate(actions: seq<Action>)
    requires actions != [] && AlwaysSeparate(actions)
    ensures AlwaysSeparate(actions[..|actions| - 1])
    ensures Separate(Race(IDLE, actions[..|actions| - 1]), actions[|actions| - 1])
  {
    var n := |actions| - 1;
    forall m | 0 <= m < n ensures Separate(Race(IDLE, actions[..n][..m]), actions[..n][m]) {
      assert actions[..n][..m] == actions[..m];
    }
  }

  lemma {:induction false} SeparateRaceReady(actions: seq<Action>)
    requires AlwaysSeparate(actions)
    ensures AllReady(Race(IDLE, actions))
  {
    if actions != [] {
      var n := |actions| - 1;
      PrefixSeparate(actions);
      SeparateRaceReady(actions[..n]);
      RaceConsistent(actions[..n]);
      ActReady(Race(IDLE, actions[..n]), actions[n]);
    }
  }

  /** Under that discipline every interleaving is as safe as a serial run: bookings disjoint, and clear of
      their technician's blackouts. */
  lemma SeparateRaceSafe(actions: seq<Action>)
    requires AlwaysSeparate(actions)
    ensures Safe(Race(IDLE, actions).cal) && Exclusive(Race(IDLE, actions).cal)
  {
    SeparateRaceReady(actions);
    SafeIsExclusive(Race(IDLE, actions).cal);
  }
}
