/** The booking services when their checks and writes interleave. A call that checks a window first locks
    its booking row, reads, and writes later; other calls may commit in between. The row lock and the
    database constraints hold throughout, but no constraint spans bookings and blackouts. */
module CalendarRaces {
  import opened Prelude
  import opened Calendar
  import opened CalendarSafety
  import opened CalendarHistory
  import opened CalendarAudit

  /** What a call that has passed its check is about to write. */
  datatype Intent = PlaceBooking(call: Command, row: Booking) | PlaceBlackout(blackout: Blackout)

  datatype World = World(cal: Cal, inflight: map<nat, Intent>)

  datatype Action = Begin(tx: nat, call: Command) | Finish(txn: nat) | Atomic(one: Command)

  predicate Moving(c: Command) { c.Schedule? || c.Reschedule? || c.Extend? }

  /** Some unfinished call holds the row lock of this booking. */
  predicate Locked(w: World, booking: int) {
    exists tx :: tx in w.inflight && w.inflight[tx].PlaceBooking? && Edits(w.inflight[tx].call) &&
                 w.inflight[tx].call.booking == booking
  }

  /** The row a moving call has checked and will save. */
  function MovedRow(cal: Cal, c: Command): Tx<Booking>
    requires Moving(c)
  {
    match c
    case Schedule(booking, start) => ScheduleRow(cal, booking, start)
    case Reschedule(booking, start) => RescheduleRow(cal, booking, start)
    case Extend(booking, days) => ExtendRow(cal, booking, days)
  }

  /** The write of a checked booking row: constraints, audit entry, reschedule record. */
  function SaveTx(cal: Cal, c: Command, row: Booking): Tx<Cal>
    requires Moving(c) && Exists(cal, c.booking)
  {
    var before := cal.bookings[c.booking];
    match WriteTx(cal, c.booking, row)
    case Abort(e) => Abort(e)
    case Commit(saved) =>
      if c.Reschedule? && row.start.Some? && row.end.Some?
      then Commit(saved.(records := cal.records +
             [RescheduleRecord(c.booking, before.start, before.end, row.start.value, row.end.value)]))
      else Commit(saved)
  }

  function Settle<S>(outcome: Tx<S>, otherwise: S): S {
    match outcome
    case Commit(s) => s
    case Abort(_) => otherwise
  }

  function BeginStep(w: World, tx: nat, c: Command): World {
    if tx in w.inflight then w
    else if Moving(c) then
      if Locked(w, c.booking) then w
      else
        match MovedRow(w.cal, c)
        case Abort(_) => w
        case Commit(row) => w.(inflight := w.inflight[tx := PlaceBooking(c, row)])
    else if c.CreateBlackout? then
      match BlackoutRow(w.cal, c.id, c.technician, c.from, c.until)
      case Abort(_) => w
      case Commit(blackout) => w.(inflight := w.inflight[tx := PlaceBlackout(blackout)])
    else w
  }

  function FinishStep(w: World, tx: nat): World {
    if tx !in w.inflight then w
    else
      var rest := w.inflight - {tx};
      match w.inflight[tx]
      case PlaceBlackout(blackout) => World(Settle(InsertBlackoutTx(w.cal, blackout), w.cal), rest)
      case PlaceBooking(c, row) =>
        if Moving(c) && Exists(w.cal, c.booking) then World(Settle(SaveTx(w.cal, c, row), w.cal), rest)
        else w.(inflight := rest)
  }

  /** The remaining calls check nothing beyond the row they lock, so each is one step. */
  function AtomicStep(w: World, c: Command): World {
    if Moving(c) || c.CreateBlackout? || (Edits(c) && Locked(w, c.booking)) then w
    else w.(cal := Step(w.cal, c))
  }

  function Act(w: World, a: Action): World {
    match a
    case Begin(tx, c) => BeginStep(w, tx, c)
    case Finish(tx) => FinishStep(w, tx)
    case Atomic(c) => AtomicStep(w, c)
  }

  function Race(w: World, actions: seq<Action>): World {
    if actions == [] then w else Act(Race(w, actions[..|actions| - 1]), actions[|actions| - 1])
  }

  const IDLE: World := World(EMPTY, map[])

  /** Undisturbed, a call that checks and then writes is the calendar's own transaction, and so is every other call. */
  lemma UndisturbedCall(cal: Cal, c: Command)
    ensures Moving(c) || c.CreateBlackout? ==>
              Act(Act(World(cal, map[]), Begin(0, c)), Finish(0)).cal == Step(cal, c)
    ensures !Moving(c) && !c.CreateBlackout? ==> Act(World(cal, map[]), Atomic(c)).cal == Step(cal, c)
  {
    if Moving(c) {
      UndisturbedMove(cal, c);
    } else if c.CreateBlackout? {
      UndisturbedBlackout(cal, c);
    }
  }

  lemma UndisturbedMove(cal: Cal, c: Command)
    requires Moving(c)
    ensures Act(Act(World(cal, map[]), Begin(0, c)), Finish(0)).cal == Step(cal, c)
  {
    var row := MovedRow(cal, c);
    if row.Commit? {
      assert Act(World(cal, map[]), Begin(0, c)).inflight == map[0 := PlaceBooking(c, row.state)];
      SavedIsStep(cal, c, row.state);
    }
  }

  lemma SavedIsStep(cal: Cal, c: Command, row: Booking)
    requires Moving(c) && MovedRow(cal, c) == Commit(row) && Exists(cal, c.booking)
    ensures SaveTx(cal, c, row) == Execute(cal, c)
  {}

  lemma UndisturbedBlackout(cal: Cal, c: Command)
    requires c.CreateBlackout?
    ensures Act(Act(World(cal, map[]), Begin(0, c)), Finish(0)).cal == Step(cal, c)
  {}

  // ---------------------------------------------------------------- what no interleaving can break

  /** Every pending row was computed from the row still in the table, and no two calls hold one booking. */
  predicate LocksHold(w: World) {
    && (forall tx :: tx in w.inflight && w.inflight[tx].PlaceBooking? ==>
          var c, row := w.inflight[tx].call, w.inflight[tx].row;
          Moving(c) && Exists(w.cal, c.booking) && RowStep(c, w.cal.bookings[c.booking], row))
    && (forall tx, tx' :: tx in w.inflight && tx' in w.inflight && tx != tx' &&
                          w.inflight[tx].PlaceBooking? && w.inflight[tx'].PlaceBooking? ==>
          w.inflight[tx].call.booking != w.inflight[tx'].call.booking)
  }

  predicate Consistent(cal: Cal) {
    DbAccepts(cal.bookings) && Histories(cal) && Absences(cal) && Audited(cal)
  }

  /** Two active bookings of one technician never share an instant. */
  predicate BookingsDisjoint(cal: Cal) {
    forall i, j :: 0 <= i < |cal.bookings| && 0 <= j < |cal.bookings| && i != j ==>
      var a, b := cal.bookings[i], cal.bookings[j];
      a.technician == b.technician && OnDuty(a) && OnDuty(b) ==>
        a.start.Some? && a.end.Some? && b.start.Some? && b.end.Some? &&
        (a.end.value <= b.start.value || b.end.value <= a.start.value)
  }

  lemma ConsistentDisjoint(cal: Cal)
    requires Consistent(cal)
    ensures BookingsDisjoint(cal)
  {
    forall i, j | 0 <= i < |cal.bookings| && 0 <= j < |cal.bookings| && i != j &&
                  cal.bookings[i].technician == cal.bookings[j].technician &&
                  Active(cal.bookings[i].status) && Active(cal.bookings[j].status)
      ensures var a, b := cal.bookings[i], cal.bookings[j];
              a.start.Some? && a.end.Some? && b.start.Some? && b.end.Some? &&
              (a.end.value <= b.start.value || b.end.value <= a.start.value)
    {
      assert Compatible(cal.bookings[i], cal.bookings[j]);
      assert Told(cal.bookings[i], HistoryOf(cal.records, i)) && Told(cal.bookings[j], HistoryOf(cal.records, j));
    }
  }

  lemma EditConsistent(cal: Cal, c: Command, cal': Cal)
    requires Consistent(cal) && Edits(c) && Edited(cal, c, cal') && DbAccepts(cal'.bookings)
    ensures Consistent(cal')
  {
    EditTold(cal, c, cal');
    EditAbsences(cal, c, cal');
    EditAudited(cal, c, cal');
  }

  lemma StepConsistent(cal: Cal, c: Command)
    requires Consistent(cal)
    ensures Consistent(Step(cal, c))
  {
    StepTold(cal, c);
    StepAbsences(cal, c);
    StepAudited(cal, c);
    StepAccepted(cal, c);
  }

  lemma StepAccepted(cal: Cal, c: Command)
    requires DbAccepts(cal.bookings)
    ensures DbAccepts(Step(cal, c).bookings)
  {
    match c
    case Create(_, _, _) =>
    case Schedule(_, _) =>
    case Reschedule(_, _) =>
    case Start(_, _) =>
    case Extend(_, _) =>
    case ReportNoShow(_, _, _) =>
    case Complete(_) =>
    case Cancel(_) =>
    case CreateBlackout(_, _, _, _) =>
    case DeleteBlackout(_) =>
    case DescribeRequest(_, _) =>
    case DescribeUser(_, _) =>
  }

  lemma BlackoutsConsistent(cal: Cal, cal': Cal)
    requires Consistent(cal) && cal' == cal.(blackouts := cal'.blackouts)
    ensures Consistent(cal')
  {
    OtherAbsences(cal, cal');
    assert forall b :: 0 <= b < |cal.bookings| ==> Told(cal.bookings[b], HistoryOf(cal.records, b));
    forall b | 0 <= b < |cal'.bookings| ensures Logged(cal', b) { assert Logged(cal, b); }
  }

  lemma MovedRowStep(cal: Cal, c: Command)
    requires Moving(c) && MovedRow(cal, c).Commit?
    ensures Exists(cal, c.booking) && RowStep(c, cal.bookings[c.booking], MovedRow(cal, c).state)
  {}

  lemma SaveEdits(cal: Cal, c: Command, row: Booking)
    requires Moving(c) && Exists(cal, c.booking) && RowStep(c, cal.bookings[c.booking], row)
    ensures SaveTx(cal, c, row).Commit? ==>
              Edited(cal, c, SaveTx(cal, c, row).state) && DbAccepts(SaveTx(cal, c, row).state.bookings)
  {}

  lemma FinishKeeps(w: World, tx: nat)
    requires LocksHold(w) && Consistent(w.cal)
    ensures LocksHold(FinishStep(w, tx)) && Consistent(FinishStep(w, tx).cal)
  {
    if tx in w.inflight {
      var w' := FinishStep(w, tx);
      match w.inflight[tx]
      case PlaceBlackout(blackout) =>
        BlackoutsConsistent(w.cal, w'.cal);
      case PlaceBooking(c, row) =>
        SaveEdits(w.cal, c, row);
        if w'.cal != w.cal { EditConsistent(w.cal, c, w'.cal); }
        forall other | other in w'.inflight && w'.inflight[other].PlaceBooking?
          ensures w'.cal.bookings[w.inflight[other].call.booking] == w.cal.bookings[w.inflight[other].call.booking]
        {
          assert w.inflight[other].call.booking != c.booking;
        }
    }
  }

  lemma BeginKeeps(w: World, tx: nat, c: Command)
    requires LocksHold(w)
    ensures LocksHold(BeginStep(w, tx, c)) && BeginStep(w, tx, c).cal == w.cal
  {
    if Moving(c) && MovedRow(w.cal, c).Commit? { MovedRowStep(w.cal, c); }
  }

  /** A single-step call leaves every row that another call holds as it was. */
  lemma StepRespectsLocks(w: World, c: Command, b: nat)
    requires Exists(w.cal, b) && Locked(w, b)
    ensures b < |AtomicStep(w, c).cal.bookings| && AtomicStep(w, c).cal.bookings[b] == w.cal.bookings[b]
  {
    if Edits(c) { StepEdits(w.cal, c); } else { StepOther(w.cal, c); }
  }

  lemma AtomicKeeps(w: World, c: Command)
    requires LocksHold(w) && Consistent(w.cal)
    ensures LocksHold(AtomicStep(w, c)) && Consistent(AtomicStep(w, c).cal)
  {
    StepConsistent(w.cal, c);
    forall tx | tx in w.inflight && w.inflight[tx].PlaceBooking?
      ensures var b := w.inflight[tx].call.booking;
              0 <= b < |AtomicStep(w, c).cal.bookings| && AtomicStep(w, c).cal.bookings[b] == w.cal.bookings[b]
    {
      StepRespectsLocks(w, c, w.inflight[tx].call.booking);
    }
  }

  lemma ActKeeps(w: World, a: Action)
    requires LocksHold(w) && Consistent(w.cal)
    ensures LocksHold(Act(w, a)) && Consistent(Act(w, a).cal)
  {
    match a
    case Begin(tx, c) => BeginKeeps(w, tx, c);
    case Finish(tx) => FinishKeeps(w, tx);
    case Atomic(c) => AtomicKeeps(w, c);
  }

  /** However checks and writes interleave, bookings of one technician stay disjoint, and the reschedule
      chains, no-show records and audit log stay exact: the row lock and the constraint carry them all. */
  lemma {:induction false} RaceConsistent(actions: seq<Action>)
    ensures LocksHold(Race(IDLE, actions)) && Consistent(Race(IDLE, actions).cal)
    ensures BookingsDisjoint(Race(IDLE, actions).cal)
  {
    if actions != [] {
      var n := |actions| - 1;
      RaceConsistent(actions[..n]);
      ActKeeps(Race(IDLE, actions[..n]), actions[n]);
    }
    ConsistentDisjoint(Race(IDLE, actions).cal);
  }

  // ---------------------------------------------------------------- what an interleaving can break

  lemma RaceAppend(w: World, actions: seq<Action>, a: Action)
    ensures Race(w, actions + [a]) == Act(Race(w, actions), a)
  {
    assert (actions + [a])[..|actions|] == actions;
  }

  const CREATED: Booking := Booking(1, 7, Unscheduled, None, None, None, None, 0)
  const PLACED: Booking := CREATED.(start := Some(0), end := Some(DAY), status := Scheduled)
  const DARK: Blackout := Blackout(9, 7, 0, DAY)
  const BOOKING_CHECKED: Intent := PlaceBooking(Schedule(0, 0), PLACED)
  const BLACKOUT_CHECKED: Intent := PlaceBlackout(DARK)

  /** The stages of the run below: its rows, and what its two calls have checked and not yet written. */
  predicate Stage(w: World, bookings: seq<Booking>, blackouts: seq<Blackout>, inflight: map<nat, Intent>) {
    w.cal.bookings == bookings && w.cal.blackouts == blackouts && w.inflight == inflight
  }

  lemma CreatedAlone(w: World)
    requires w == IDLE
    ensures Stage(Act(w, Atomic(Create(1, 7, None))), [CREATED], [], map[])
  {
    assert EMPTY.bookings + [CREATED] == [CREATED];
  }

  lemma BookingChecked(w: World)
    requires Stage(w, [CREATED], [], map[])
    ensures Stage(Act(w, Begin(0, Schedule(0, 0))), [CREATED], [], map[0 := BOOKING_CHECKED])
  {}

  lemma BlackoutChecked(w: World)
    requires Stage(w, [CREATED], [], map[0 := BOOKING_CHECKED])
    ensures Stage(Act(w, Begin(1, CreateBlackout(9, 7, 0, DAY))), [CREATED], [],
                  map[0 := BOOKING_CHECKED, 1 := BLACKOUT_CHECKED])
  {}

  lemma BookingWritten(w: World)
    requires Stage(w, [CREATED], [], map[0 := BOOKING_CHECKED, 1 := BLACKOUT_CHECKED])
    ensures Stage(Act(w, Finish(0)), [PLACED], [], map[1 := BLACKOUT_CHECKED])
  {
    assert [CREATED][0 := PLACED] == [PLACED];
    assert w.inflight - {0} == map[1 := BLACKOUT_CHECKED];
  }

  lemma BlackoutWritten(w: World)
    requires Stage(w, [PLACED], [], map[1 := BLACKOUT_CHECKED])
    ensures Stage(Act(w, Finish(1)), [PLACED], [DARK], map[])
  {
    assert w.inflight - {1} == map[];
  }

  lemma BothChecked(create: Action, schedule: Action, blackout: Action)
    requires create == Atomic(Create(1, 7, None)) && schedule == Begin(0, Schedule(0, 0))
    requires blackout == Begin(1, CreateBlackout(9, 7, 0, DAY))
    ensures Stage(Race(IDLE, [create, schedule, blackout]), [CREATED], [],
                  map[0 := BOOKING_CHECKED, 1 := BLACKOUT_CHECKED])
  {
    RaceAppend(IDLE, [], create);
    CreatedAlone(Race(IDLE, []));
    RaceAppend(IDLE, [create], schedule);
    BookingChecked(Race(IDLE, [create]));
    RaceAppend(IDLE, [create, schedule], blackout);
    BlackoutChecked(Race(IDLE, [create, schedule]));
    assert [] + [create] == [create] && [create] + [schedule] == [create, schedule];
    assert [create, schedule] + [blackout] == [create, schedule, blackout];
  }

  lemma BothWritten(checked: seq<Action>)
    requires Stage(Race(IDLE, checked), [CREATED], [], map[0 := BOOKING_CHECKED, 1 := BLACKOUT_CHECKED])
    ensures Stage(Race(IDLE, checked + [Finish(0), Finish(1)]), [PLACED], [DARK], map[])
  {
    RaceAppend(IDLE, checked, Finish(0));
    BookingWritten(Race(IDLE, checked));
    RaceAppend(IDLE, checked + [Finish(0)], Finish(1));
    BlackoutWritten(Race(IDLE, checked + [Finish(0)]));
    assert (checked + [Finish(0)]) + [Finish(1)] == checked + [Finish(0), Finish(1)];
  }

  /** Nothing stops a booking and a blackout of one technician from each passing its check before the
      other commits: after these five actions both stand, on the same day. */
  lemma BlackoutRaceOverlaps()
    ensures var cal := Race(IDLE, [Atomic(Create(1, 7, None)), Begin(0, Schedule(0, 0)),
                                   Begin(1, CreateBlackout(9, 7, 0, DAY)), Finish(0), Finish(1)]).cal;
            && |cal.bookings| == 1 && |cal.blackouts| == 1
            && BookingMeets(cal.bookings[0], cal.blackouts[0].technician, cal.blackouts[0].start, cal.blackouts[0].end)
            && !Exclusive(cal)
  {
    var create, schedule, blackout :=
      Atomic(Create(1, 7, None)), Begin(0, Schedule(0, 0)), Begin(1, CreateBlackout(9, 7, 0, DAY));
    BothChecked(create, schedule, blackout);
    BothWritten([create, schedule, blackout]);
    assert [create, schedule, blackout] + [Finish(0), Finish(1)] ==
           [create, schedule, blackout, Finish(0), Finish(1)];
  }
}
