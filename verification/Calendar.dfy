/** The booking calendar: bookings, blackouts, their histories and audit log, and the transactions of
    SchedulingService, BookingService, NoShowService and AvailabilityService. Row ids are row numbers. */
module Calendar {
  import opened Prelude
  import opened AuditTrail

  datatype Status = Unscheduled | Scheduled | InProgress | Completed | Cancelled | NoShow

  datatype Booking = Booking(request: int, technician: int, status: Status, start: Option<int>, end: Option<int>,
                             startedAt: Option<int>, duration: Option<int>, reschedules: int)

  datatype Blackout = Blackout(id: int, technician: int, start: int, end: int)

  datatype RescheduleRecord = RescheduleRecord(booking: nat, previousStart: Option<int>, previousEnd: Option<int>,
                                               newStart: int, newEnd: int)

  datatype NoShowRecord = NoShowRecord(booking: nat, absentParty: string, declaredAt: int)

  /** The calendar's tables, and how requests and users describe themselves: their other services change
      those texts, and the audit log copies them. */
  datatype Cal = Cal(bookings: seq<Booking>, blackouts: seq<Blackout>, records: seq<RescheduleRecord>,
                     absences: seq<NoShowRecord>, log: seq<Entry<Column>>,
                     requestTexts: map<int, string>, userTexts: map<int, string>)

  const GRACE: int := 2 * HOUR
  const MAX_RESCHEDULES: int := 3

  predicate Active(status: Status) { status.Scheduled? || status.InProgress? }
  predicate Ended(status: Status) { status.Completed? || status.Cancelled? || status.NoShow? }
  predicate Exists(cal: Cal, booking: int) { 0 <= booking < |cal.bookings| }

  /** `duration_days or 1`. */
  function DaysOf(duration: Option<int>): int {
    if duration.None? || duration.value == 0 then 1 else duration.value
  }

  // ---------------------------------------------------------------- what the database itself enforces

  /** A range bound that is null reaches to infinity. */
  predicate Below(low: Option<int>, high: Option<int>) {
    low.None? || high.None? || low.value < high.value
  }

  predicate RangesOverlap(a: Booking, b: Booking) {
    Below(a.start, a.end) && Below(b.start, b.end) && Below(a.start, b.end) && Below(b.start, a.end)
  }

  /** The CHECK constraints of one row. */
  predicate RowChecks(b: Booking) {
    && 0 <= b.reschedules <= MAX_RESCHEDULES
    && Below(b.start, b.end)
    && (b.duration.Some? ==> b.duration.value >= 0)
  }

  /** The exclusion constraint and the one-booking-per-request column, between two rows. */
  predicate Compatible(a: Booking, b: Booking) {
    && a.request != b.request
    && !(a.technician == b.technician && Active(a.status) && Active(b.status) && RangesOverlap(a, b))
  }

  predicate DbAccepts(bookings: seq<Booking>) {
    && (forall i :: 0 <= i < |bookings| ==> RowChecks(bookings[i]))
    && (forall i, j :: 0 <= i < |bookings| && 0 <= j < |bookings| && i != j ==> Compatible(bookings[i], bookings[j]))
  }

  // ---------------------------------------------------------------- conflict query

  /** A stored window meets [start, end); null columns never match. */
  predicate BookingMeets(b: Booking, technician: int, start: int, end: int) {
    && b.technician == technician && Active(b.status)
    && b.start.Some? && b.start.value < end
    && b.end.Some? && start < b.end.value
  }

  predicate BlackoutMeets(b: Blackout, technician: int, start: int, end: int) {
    b.technician == technician && b.start < end && start < b.end
  }

  predicate BookingConflict(bookings: seq<Booking>, technician: int, start: int, end: int, except: int) {
    exists i :: 0 <= i < |bookings| && i != except && BookingMeets(bookings[i], technician, start, end)
  }

  predicate BlackoutConflict(blackouts: seq<Blackout>, technician: int, start: int, end: int) {
    exists k :: 0 <= k < |blackouts| && BlackoutMeets(blackouts[k], technician, start, end)
  }

  /** `has_conflict`; `except` is -1 when no booking is left out. */
  predicate HasConflict(cal: Cal, technician: int, start: int, end: int, except: int) {
    BookingConflict(cal.bookings, technician, start, end, except) ||
    BlackoutConflict(cal.blackouts, technician, start, end)
  }

  // ---------------------------------------------------------------- audit

  function StatusText(status: Status): string {
    match status
    case Unscheduled => "unscheduled"
    case Scheduled => "scheduled"
    case InProgress => "in_progress"
    case Completed => "completed"
    case Cancelled => "cancelled"
    case NoShow => "no_show"
  }

  function Nullable(n: Option<int>): Value { if n.Some? then Number(n.value) else Null }

  function TextOf(texts: map<int, string>, id: int): Value { Text(if id in texts then texts[id] else "") }

  /** The columns of the booking table, as the log names them. */
  datatype Column =
    | RequestId | TechnicianId | StatusCode | StartTime | EndTime | StartedAt | DurationDays | RescheduleCount

  /** The fields of a booking row that are its own columns. */
  function Body(b: Booking): (row: Fields<Column>)
    ensures row.Keys == {StatusCode, StartTime, EndTime, StartedAt, DurationDays, RescheduleCount}
  {
    map[StatusCode := Text(StatusText(b.status)), StartTime := Nullable(b.start), EndTime := Nullable(b.end),
        StartedAt := Nullable(b.startedAt), DurationDays := Nullable(b.duration),
        RescheduleCount := Number(b.reschedules)]
  }

  /** The two foreign keys are logged as the text of the row they point to, which is not the booking's own. */
  const BORROWED: set<Column> := {RequestId, TechnicianId}

  function Lent(request: Value, technician: Value): (fields: Fields<Column>)
    ensures fields.Keys == BORROWED
  {
    map[RequestId := request, TechnicianId := technician]
  }

  function LentTo(cal: Cal, b: Booking): Fields<Column> {
    Lent(TextOf(cal.requestTexts, b.request), TextOf(cal.userTexts, b.technician))
  }

  /** A booking row as the audit log sees it when the calendar is `cal`. */
  function Render(cal: Cal, b: Booking): Fields<Column> { Body(b) + LentTo(cal, b) }

  // ---------------------------------------------------------------- transactions

  /** Saves a changed row, if the constraints let it, and logs the transition. */
  function WriteTx(cal: Cal, booking: nat, row: Booking): Tx<Cal>
    requires booking < |cal.bookings|
  {
    var bookings := cal.bookings[booking := row];
    if !DbAccepts(bookings) then Abort(Conflict)
    else Commit(cal.(bookings := bookings,
                     log := cal.log + [Transition(booking, Render(cal, cal.bookings[booking]), Render(cal, row))]))
  }

  function CreateTx(cal: Cal, request: int, technician: int, duration: Option<int>): Tx<Cal> {
    var row := Booking(request, technician, Unscheduled, None, None, None, duration, 0);
    if exists i :: 0 <= i < |cal.bookings| && cal.bookings[i].request == request then Abort(Invalid)
    else if !DbAccepts(cal.bookings + [row]) then Abort(Conflict)
    else Commit(cal.(bookings := cal.bookings + [row],
                     log := cal.log + [Creation(|cal.bookings|, Render(cal, row))]))
  }

  /** The row `schedule_booking` would save. */
  function ScheduleRow(cal: Cal, booking: int, start: int): Tx<Booking> {
    if !Exists(cal, booking) then Abort(NotFound)
    else
      var row := cal.bookings[booking];
      if !row.status.Unscheduled? then Abort(Invalid)
      else
        var end := start + DaysOf(row.duration) * DAY;
        if HasConflict(cal, row.technician, start, end, -1) then Abort(Invalid)
        else Commit(row.(start := Some(start), end := Some(end), status := Scheduled))
  }

  function ScheduleTx(cal: Cal, booking: int, start: int): Tx<Cal> {
    match ScheduleRow(cal, booking, start)
    case Abort(e) => Abort(e)
    case Commit(row) => WriteTx(cal, booking, row)
  }

  /** The row `reschedule_booking` would save. */
  function RescheduleRow(cal: Cal, booking: int, start: int): Tx<Booking> {
    if !Exists(cal, booking) then Abort(NotFound)
    else
      var row := cal.bookings[booking];
      if !row.status.Scheduled? then Abort(Invalid)
      else if row.reschedules >= MAX_RESCHEDULES then Abort(Invalid)
      else
        var end := start + DaysOf(row.duration) * DAY;
        if HasConflict(cal, row.technician, start, end, booking) then Abort(Invalid)
        else Commit(row.(start := Some(start), end := Some(end), reschedules := row.reschedules + 1))
  }

  function RescheduleTx(cal: Cal, booking: int, start: int): Tx<Cal> {
    match RescheduleRow(cal, booking, start)
    case Abort(e) => Abort(e)
    case Commit(row) =>
      var before := cal.bookings[booking];
      match WriteTx(cal, booking, row)
      case Abort(e) => Abort(e)
      case Commit(saved) =>
        Commit(saved.(records := cal.records +
          [RescheduleRecord(booking, before.start, before.end, row.start.value, row.end.value)]))
  }

  function StartTx(cal: Cal, booking: int, now: int): Tx<Cal> {
    if !Exists(cal, booking) then Abort(NotFound)
    else if !cal.bookings[booking].status.Scheduled? then Abort(Invalid)
    else WriteTx(cal, booking, cal.bookings[booking].(status := InProgress, startedAt := Some(now)))
  }

  /** The row `extend_duration` would save. */
  function ExtendRow(cal: Cal, booking: int, days: int): Tx<Booking> {
    if !Exists(cal, booking) then Abort(NotFound)
    else
      var row := cal.bookings[booking];
      if !Active(row.status) then Abort(Invalid)
      else if days <= (if row.duration.Some? then row.duration.value else 0) then Abort(Invalid)
      else if row.start.None? then Abort(Crashed)
      else
        var end := row.start.value + days * DAY;
        if HasConflict(cal, row.technician, row.start.value, end, booking) then Abort(Invalid)
        else Commit(row.(duration := Some(days), end := Some(end)))
  }

  function ExtendTx(cal: Cal, booking: int, days: int): Tx<Cal> {
    match ExtendRow(cal, booking, days)
    case Abort(e) => Abort(e)
    case Commit(row) => WriteTx(cal, booking, row)
  }

  function ReportNoShowTx(cal: Cal, booking: int, absentParty: string, now: int): Tx<Cal> {
    if !Exists(cal, booking) then Abort(NotFound)
    else
      var row := cal.bookings[booking];
      if !Active(row.status) then Abort(Invalid)
      else if row.start.None? then Abort(Crashed)
      else if now < row.start.value + GRACE then Abort(Invalid)
      else if exists k :: 0 <= k < |cal.absences| && cal.absences[k].booking == booking then Abort(Conflict)
      else
        match WriteTx(cal, booking, row.(status := NoShow))
        case Abort(e) => Abort(e)
        case Commit(saved) => Commit(saved.(absences := cal.absences + [NoShowRecord(booking, absentParty, now)]))
  }

  /** `sync_completion` looks at no status at all. */
  function CompleteTx(cal: Cal, booking: int): Tx<Cal> {
    if !Exists(cal, booking) then Abort(NotFound)
    else WriteTx(cal, booking, cal.bookings[booking].(status := Completed))
  }

  function CancelTx(cal: Cal, booking: int): Tx<Cal> {
    if !Exists(cal, booking) then Abort(NotFound)
    else if Ended(cal.bookings[booking].status) then Commit(cal)
    else WriteTx(cal, booking, cal.bookings[booking].(status := Cancelled))
  }

  function WithId(id: int): Blackout -> bool { (b: Blackout) => b.id == id }

  /** The blackout `create_blackout_date` would insert. */
  function BlackoutRow(cal: Cal, id: int, technician: int, start: int, end: int): Tx<Blackout> {
    if end <= start then Abort(Invalid)
    else if BookingConflict(cal.bookings, technician, start, end, -1) then Abort(Invalid)
    else Commit(Blackout(id, technician, start, end))
  }

  function InsertBlackoutTx(cal: Cal, blackout: Blackout): Tx<Cal> {
    if blackout.end <= blackout.start || FindFirst(cal.blackouts, WithId(blackout.id)).Some? then Abort(Conflict)
    else Commit(cal.(blackouts := cal.blackouts + [blackout]))
  }

  function CreateBlackoutTx(cal: Cal, id: int, technician: int, start: int, end: int): Tx<Cal> {
    match BlackoutRow(cal, id, technician, start, end)
    case Abort(e) => Abort(e)
    case Commit(blackout) => InsertBlackoutTx(cal, blackout)
  }

  function DeleteBlackoutTx(cal: Cal, id: int): Tx<Cal> {
    match FindFirst(cal.blackouts, WithId(id))
    case None => Abort(Invalid)
    case Some(k) => Commit(cal.(blackouts := cal.blackouts[..k] + cal.blackouts[k + 1..]))
  }

  // ---------------------------------------------------------------- runs

  datatype Command =
    | Create(request: int, technician: int, duration: Option<int>)
    | Schedule(booking: int, start: int)
    | Reschedule(booking: int, newStart: int)
    | Start(booking: int, now: int)
    | Extend(booking: int, days: int)
    | ReportNoShow(booking: int, absentParty: string, now: int)
    | Complete(booking: int)
    | Cancel(booking: int)
    | CreateBlackout(id: int, technician: int, from: int, until: int)
    | DeleteBlackout(id: int)
    | DescribeRequest(subject: int, text: string)
    | DescribeUser(subject: int, text: string)

  function Execute(cal: Cal, c: Command): Tx<Cal> {
    match c
    case Create(request, technician, duration) => CreateTx(cal, request, technician, duration)
    case Schedule(booking, start) => ScheduleTx(cal, booking, start)
    case Reschedule(booking, start) => RescheduleTx(cal, booking, start)
    case Start(booking, now) => StartTx(cal, booking, now)
    case Extend(booking, days) => ExtendTx(cal, booking, days)
    case ReportNoShow(booking, absentParty, now) => ReportNoShowTx(cal, booking, absentParty, now)
    case Complete(booking) => CompleteTx(cal, booking)
    case Cancel(booking) => CancelTx(cal, booking)
    case CreateBlackout(id, technician, start, end) => CreateBlackoutTx(cal, id, technician, start, end)
    case DeleteBlackout(id) => DeleteBlackoutTx(cal, id)
    case DescribeRequest(request, text) => Commit(cal.(requestTexts := cal.requestTexts[request := text]))
    case DescribeUser(user, text) => Commit(cal.(userTexts := cal.userTexts[user := text]))
  }

  function Step(cal: Cal, c: Command): Cal {
    match Execute(cal, c)
    case Commit(cal') => cal'
    case Abort(_) => cal
  }

  function Run(cal: Cal, commands: seq<Command>): Cal {
    if commands == [] then cal else Step(Run(cal, commands[..|commands| - 1]), commands[|commands| - 1])
  }

  const EMPTY: Cal := Cal([], [], [], [], [], map[], map[])
}
