/** One notification delivery and everything that may happen to it: dispatch tasks, Celery's retries of
    them, crashed workers and the sweep of failed deliveries, in any order. */
module Delivery {

  datatype Channel = InApp | Email | Push
  datatype Status = Pending | Processing | Sent | Failed | DeadLettered

  /** The stored row with the numbers of its DeliveryRetry records; `claims` counts how often a task has
      taken the row from pending to processing. */
  datatype Row = Row(channel: Channel, status: Status, retries: int, claims: int, attempts: seq<int>)

  const MAX_RETRIES: int := 10

  function Created(channel: Channel): Row { Row(channel, Pending, 0, 0, []) }

  // ---------------------------------------------------------------- writes of the services

  function Claimed(row: Row): Row { row.(status := Processing, claims := row.claims + 1) }
  function Recorded(row: Row): Row { row.(attempts := row.attempts + [row.retries + 1]) }
  predicate Sweepable(row: Row) { row.status.Failed? && row.retries < MAX_RETRIES }

  /** The sweep saves the row object it read: its counter plus one, whatever the row holds by now. */
  function Swept(row: Row, readRetries: int): Row { row.(status := Pending, retries := readRetries + 1) }

  // ---------------------------------------------------------------- interleavings

  /** Where a task is: it has found the row pending and not yet claimed it, is about to hear from the provider or to
      write the success to the audit log (e-mail only), or handles a failure, before and after its DeliveryRetry
      record. */
  datatype Phase = Found | Sending | Auditing | Recording | Marking

  /** A delivery, the tasks working on it, and the counters that unfinished sweeps have read. */
  datatype World = World(row: Row, tasks: map<nat, Phase>, sweeps: map<nat, int>)

  datatype Action =
    | Finds(task: nat)
    | Claim(task: nat)
    | ProviderAccepts(task: nat)
    | ProviderFails(task: nat)
    | ProviderRejects(task: nat)
    | AuditWritten(task: nat)
    | AuditFails(task: nat)
    | Record(task: nat)
    | MarkFailed(task: nat)
    | TaskDies(task: nat)
    | SweepReads(sweep: nat)
    | SweepWrites(sweep: nat)
    | SweepDies(sweep: nat)

  predicate At(w: World, task: nat, phase: Phase) { task in w.tasks && w.tasks[task] == phase }

  function Act(w: World, a: Action): World {
    match a
    case Finds(t) =>
      if t in w.tasks || !w.row.status.Pending? || w.row.channel.InApp? then w else w.(tasks := w.tasks[t := Found])
    case Claim(t) =>
      // whatever the row holds by now
      if !At(w, t, Found) then w else w.(row := Claimed(w.row), tasks := w.tasks[t := Sending])
    case ProviderAccepts(t) =>
      if !At(w, t, Sending) then w
      else w.(row := w.row.(status := Sent),
              tasks := if w.row.channel.Email? then w.tasks[t := Auditing] else w.tasks - {t})
    case ProviderFails(t) => if !At(w, t, Sending) then w else w.(tasks := w.tasks[t := Recording])
    case ProviderRejects(t) =>
      // only the e-mail task tells permanent failures apart
      if !At(w, t, Sending) || !w.row.channel.Email? then w
      else w.(row := w.row.(status := DeadLettered), tasks := w.tasks - {t})
    case AuditWritten(t) => if !At(w, t, Auditing) then w else w.(tasks := w.tasks - {t})
    case AuditFails(t) => if !At(w, t, Auditing) then w else w.(tasks := w.tasks[t := Recording])
    case Record(t) => if !At(w, t, Recording) then w else w.(row := Recorded(w.row), tasks := w.tasks[t := Marking])
    case MarkFailed(t) =>
      if !At(w, t, Marking) then w else w.(row := w.row.(status := Failed), tasks := w.tasks - {t})
    case TaskDies(t) => w.(tasks := w.tasks - {t})
    case SweepReads(s) =>
      if s in w.sweeps || !Sweepable(w.row) then w else w.(sweeps := w.sweeps[s := w.row.retries])
    case SweepWrites(s) =>
      if s !in w.sweeps then w else w.(row := Swept(w.row, w.sweeps[s]), sweeps := w.sweeps - {s})
    case SweepDies(s) => w.(sweeps := w.sweeps - {s})
  }

  function Run(w: World, actions: seq<Action>): World {
    if actions == [] then w else Act(Run(w, actions[..|actions| - 1]), actions[|actions| - 1])
  }

  function Fresh(channel: Channel): World { World(Created(channel), map[], map[]) }

  lemma {:induction false} RunConcat(w: World, early: seq<Action>, late: seq<Action>)
    ensures Run(w, early + late) == Run(Run(w, early), late)
    decreases |late|
  {
    if late == [] {
      assert early + late == early;
    } else {
      var n := |late| - 1;
      assert (early + late)[..|early + late| - 1] == early + late[..n];
      RunConcat(w, early, late[..n]);
    }
  }

  // ---------------------------------------------------------------- the attempt bound

  /** Every claim but the current one has been paid for by a sweep. */
  predicate ClaimLaw(row: Row) {
    row.claims == row.retries + (if row.status.Pending? then 0 else 1)
  }

  /** The retry records number the attempts 1, 2, 3, ... */
  predicate Numbered(attempts: seq<int>) {
    forall k :: 0 <= k < |attempts| ==> attempts[k] == k + 1
  }

  predicate PhaseFits(row: Row, phase: Phase) {
    match phase
    case Found => true
    case Sending => row.status.Processing? && |row.attempts| == row.retries
    case Auditing => row.status.Sent? && |row.attempts| == row.retries
    case Recording => (row.status.Processing? || row.status.Sent?) && |row.attempts| == row.retries
    case Marking => (row.status.Processing? || row.status.Sent?) && |row.attempts| == row.retries + 1
  }

  predicate RowLaw(row: Row) {
    && ClaimLaw(row) && Numbered(row.attempts)
    && 0 <= row.retries <= MAX_RETRIES
    && row.retries <= |row.attempts| <= row.retries + 1
    && (row.status.Pending? ==> |row.attempts| == row.retries)
    && (row.status.Failed? ==> |row.attempts| == row.retries + 1)
  }

  predicate AtWork(w: World, t: nat) { t in w.tasks && !w.tasks[t].Found? }

  /** No two tasks have claimed the row and not finished with it. */
  predicate OneAtWork(w: World) {
    forall t, t' :: t in w.tasks && t' in w.tasks && AtWork(w, t) && AtWork(w, t') ==> t == t'
  }

  /** Tasks fit the row and never work two at a time. An unfinished sweep has read a counter below the limit;
      it is still the row's counter only while the row has failed, otherwise it has been overtaken. */
  predicate Sound(w: World) {
    && RowLaw(w.row)
    && (forall t :: t in w.tasks ==> PhaseFits(w.row, w.tasks[t]))
    && OneAtWork(w)
    && (forall s :: s in w.sweeps ==>
          0 <= w.sweeps[s] <= w.row.retries && w.sweeps[s] < MAX_RETRIES &&
          (w.sweeps[s] == w.row.retries ==> w.row.status.Failed?))
  }

  /** A sweep that writes finds that no task has claimed the row since the sweep read it, and a task that claims
      the row finds it still pending. */
  predicate Current(w: World, a: Action) {
    && (a.SweepWrites? && a.sweep in w.sweeps ==> w.row.claims == w.sweeps[a.sweep] + 1)
    && (a.Claim? && At(w, a.task, Found) ==> w.row.status.Pending?)
  }

  predicate AllCurrent(w: World, actions: seq<Action>) {
    forall n :: 0 <= n < |actions| ==> Current(Run(w, actions[..n]), actions[n])
  }

  lemma ClaimStepSound(w: World, t: nat)
    requires Sound(w) && Current(w, Claim(t))
    ensures Sound(Act(w, Claim(t)))
  {
    assert forall u :: u in w.tasks ==> PhaseFits(w.row, w.tasks[u]);
  }

  /** The task hears from the provider. */
  predicate Hears(a: Action) { a.ProviderAccepts? || a.ProviderFails? || a.ProviderRejects? }

  lemma HearStepSound(w: World, a: Action)
    requires Sound(w) && Hears(a)
    ensures Sound(Act(w, a))
  {
    assert a.task in w.tasks ==> PhaseFits(w.row, w.tasks[a.task]);
  }

  lemma TaskStepSound(w: World, a: Action)
    requires Sound(w) && !a.SweepReads? && !a.SweepWrites? && !a.SweepDies? && !a.Claim? && !Hears(a)
    ensures Sound(Act(w, a))
  {
    assert a.task in w.tasks ==> PhaseFits(w.row, w.tasks[a.task]);
  }

  lemma SweepStepSound(w: World, a: Action)
    requires Sound(w) && (a.SweepReads? || a.SweepWrites? || a.SweepDies?) && Current(w, a)
    ensures Sound(Act(w, a))
  {
    assert forall t :: t in w.tasks ==> PhaseFits(w.row, w.tasks[t]);
  }

  /** From a sound world a step keeps the claim law, and everything else that makes the world sound, if and
      only if it is neither a sweep writing back a row that has been claimed since it was read nor a task claiming
      a row that is no longer pending. */
  lemma StepSoundExactly(w: World, a: Action)
    requires Sound(w)
    ensures Sound(Act(w, a)) <==> Current(w, a)
    ensures ClaimLaw(Act(w, a).row) <==> Current(w, a)
  {
    if Current(w, a) {
      if a.SweepReads? || a.SweepWrites? || a.SweepDies? {
        SweepStepSound(w, a);
      } else if a.Claim? {
        ClaimStepSound(w, a.task);
      } else if Hears(a) {
        HearStepSound(w, a);
      } else {
        TaskStepSound(w, a);
      }
    }
  }

  lemma AllCurrentSplit(w: World, early: seq<Action>, late: seq<Action>)
    requires AllCurrent(w, early + late)
    ensures AllCurrent(w, early) && AllCurrent(Run(w, early), late)
  {
    var all := early + late;
    forall n | 0 <= n < |early| ensures Current(Run(w, early[..n]), early[n]) {
      assert Current(Run(w, all[..n]), all[n]);
      assert all[..n] == early[..n];
    }
    forall n | 0 <= n < |late| ensures Current(Run(Run(w, early), late[..n]), late[n]) {
      assert Current(Run(w, all[..|early| + n]), all[|early| + n]);
      assert all[..|early| + n] == early + late[..n];
      RunConcat(w, early, late[..n]);
    }
  }

  lemma LastCurrent(w: World, actions: seq<Action>)
    requires actions != [] && AllCurrent(w, actions)
    ensures AllCurrent(w, actions[..|actions| - 1])
    ensures Current(Run(w, actions[..|actions| - 1]), actions[|actions| - 1])
  {
    var n := |actions| - 1;
    assert actions == actions[..n] + [actions[n]];
    AllCurrentSplit(w, actions[..n], [actions[n]]);
  }

  lemma {:induction false} SoundRun(w: World, actions: seq<Action>)
    requires Sound(w) && AllCurrent(w, actions)
    ensures Sound(Run(w, actions))
  {
    if actions != [] {
      LastCurrent(w, actions);
      SoundRun(w, actions[..|actions| - 1]);
      StepSoundExactly(Run(w, actions[..|actions| - 1]), actions[|actions| - 1]);
    }
  }

  /** However tasks, retries, crashes and sweeps interleave and overlap, as long as no sweep writes back a row
      claimed since its read and no task claims a row that is no longer pending: claims equal the retry counter plus
      the one in progress or done, so there are at most eleven; the retry records are numbered 1, 2, 3, ... without
      repeats; at most one task is at work. */
  lemma RunSound(channel: Channel, actions: seq<Action>)
    requires AllCurrent(Fresh(channel), actions)
    ensures var w := Run(Fresh(channel), actions);
            && w.row.claims == w.row.retries + (if w.row.status.Pending? then 0 else 1) <= 11
            && (forall k :: 0 <= k < |w.row.attempts| ==> w.row.attempts[k] == k + 1)
            && OneAtWork(w)
            && Sound(w)
  {
    SoundRun(Fresh(channel), actions);
  }

  // ---------------------------------------------------------------- which runs are current

  /** A sweep starts only when no other sweep is still between its read and its write. */
  predicate SweepsApart(w: World, actions: seq<Action>) {
    forall n :: 0 <= n < |actions| && actions[n].SweepReads? ==> Run(w, actions[..n]).sweeps == map[]
  }

  predicate NoneFound(w: World) { forall t :: t in w.tasks ==> !w.tasks[t].Found? }

  /** A task finds the row pending only when no other task is still between its read and its claim. */
  predicate FindsApart(w: World, actions: seq<Action>) {
    forall n :: 0 <= n < |actions| && actions[n].Finds? ==> NoneFound(Run(w, actions[..n]))
  }

  /** The only unfinished sweep, if there is one, holds the counter of a row that is still failed. */
  predicate OneSweep(w: World) {
    && (forall s :: s in w.sweeps ==> w.row.status.Failed? && w.sweeps[s] == w.row.retries)
    && (forall s, s' :: s in w.sweeps && s' in w.sweeps ==> s == s')
  }

  /** The only task about to claim the row, if there is one, will find it pending. */
  predicate OneFind(w: World) {
    && (forall t :: t in w.tasks && w.tasks[t].Found? ==> w.row.status.Pending?)
    && (forall t, t' :: t in w.tasks && t' in w.tasks && w.tasks[t].Found? && w.tasks[t'].Found? ==> t == t')
  }

  lemma ApartStep(w: World, a: Action)
    requires Sound(w) && OneSweep(w) && OneFind(w)
    requires (a.SweepReads? ==> w.sweeps == map[]) && (a.Finds? ==> NoneFound(w))
    ensures Current(w, a) && OneSweep(Act(w, a)) && OneFind(Act(w, a))
  {
    assert forall t :: t in w.tasks ==> PhaseFits(w.row, w.tasks[t]);
  }

  lemma LastApart(w: World, actions: seq<Action>)
    requires actions != [] && SweepsApart(w, actions) && FindsApart(w, actions)
    ensures SweepsApart(w, actions[..|actions| - 1]) && FindsApart(w, actions[..|actions| - 1])
    ensures actions[|actions| - 1].SweepReads? ==> Run(w, actions[..|actions| - 1]).sweeps == map[]
    ensures actions[|actions| - 1].Finds? ==> NoneFound(Run(w, actions[..|actions| - 1]))
  {
    var n := |actions| - 1;
    forall m | 0 <= m < n && actions[..n][m].SweepReads? ensures Run(w, actions[..n][..m]).sweeps == map[] {
      assert actions[..n][..m] == actions[..m];
    }
    forall m | 0 <= m < n && actions[..n][m].Finds? ensures NoneFound(Run(w, actions[..n][..m])) {
      assert actions[..n][..m] == actions[..m];
    }
  }

  lemma AllCurrentAppend(w: World, actions: seq<Action>)
    requires actions != [] && AllCurrent(w, actions[..|actions| - 1])
    requires Current(Run(w, actions[..|actions| - 1]), actions[|actions| - 1])
    ensures AllCurrent(w, actions)
  {
    var n := |actions| - 1;
    forall m | 0 <= m < |actions| ensures Current(Run(w, actions[..m]), actions[m]) {
      if m < n {
        assert Current(Run(w, actions[..n][..m]), actions[..n][m]);
        assert actions[..n][..m] == actions[..m];
      }
    }
  }

  /** One sweep at a time, and one task at a time between finding the row and claiming it, are enough. */
  lemma {:induction false} ApartIsCurrent(w: World, actions: seq<Action>)
    requires Sound(w) && OneSweep(w) && OneFind(w) && SweepsApart(w, actions) && FindsApart(w, actions)
    ensures AllCurrent(w, actions) && OneSweep(Run(w, actions)) && OneFind(Run(w, actions))
  {
    if actions != [] {
      var early := actions[..|actions| - 1];
      LastApart(w, actions);
      ApartIsCurrent(w, early);
      SoundRun(w, early);
      ApartStep(Run(w, early), actions[|actions| - 1]);
      AllCurrentAppend(w, actions);
    }
  }

  /** The sweep neither starts again, writes nor dies in these actions. */
  predicate Untouched(actions: seq<Action>, s: nat) {
    SweepReads(s) !in actions && SweepWrites(s) !in actions && SweepDies(s) !in actions
  }

  lemma {:induction false} SnapshotStays(w: World, actions: seq<Action>, s: nat)
    requires s in w.sweeps && Untouched(actions, s)
    ensures s in Run(w, actions).sweeps && Run(w, actions).sweeps[s] == w.sweeps[s]
  {
    if actions != [] {
      var n := |actions| - 1;
      assert actions[n] in actions;
      SnapshotStays(w, actions[..n], s);
    }
  }

  predicate Claims(w: World, a: Action) { Act(w, a).row.claims != w.row.claims }

  /** None of the actions claims the row. */
  predicate Unclaimed(w: World, actions: seq<Action>) {
    actions == [] ||
    (Unclaimed(w, actions[..|actions| - 1]) && !Claims(Run(w, actions[..|actions| - 1]), actions[|actions| - 1]))
  }

  lemma ClaimsGrow(w: World, a: Action)
    ensures w.row.claims <= Act(w, a).row.claims
  {}

  lemma {:induction false} ClaimsOnlyGrow(w: World, actions: seq<Action>)
    ensures w.row.claims <= Run(w, actions).row.claims
    ensures w.row.claims == Run(w, actions).row.claims <==> Unclaimed(w, actions)
  {
    if actions != [] {
      var early := actions[..|actions| - 1];
      ClaimsOnlyGrow(w, early);
      ClaimsGrow(Run(w, early), actions[|actions| - 1]);
    }
  }

  /** A sweep reads, other tasks and sweeps run, the sweep writes: the write keeps the claim law exactly when
      none of the actions in between claimed the row. */
  lemma StaleSweepExact(w: World, s: nat, between: seq<Action>)
    requires Sound(w) && s !in w.sweeps && Sweepable(w.row)
    requires Untouched(between, s) && AllCurrent(Act(w, SweepReads(s)), between)
    ensures var read := Act(w, SweepReads(s));
            ClaimLaw(Act(Run(read, between), SweepWrites(s)).row) <==> Unclaimed(read, between)
  {
    var read := Act(w, SweepReads(s));
    StepSoundExactly(w, SweepReads(s));
    SoundRun(read, between);
    SnapshotStays(read, between, s);
    ClaimsOnlyGrow(read, between);
    StepSoundExactly(Run(read, between), SweepWrites(s));
  }

  lemma {:induction false} FoundStays(w: World, actions: seq<Action>, t: nat)
    requires At(w, t, Found) && Claim(t) !in actions && TaskDies(t) !in actions
    ensures At(Run(w, actions), t, Found)
  {
    if actions != [] {
      var n := |actions| - 1;
      assert actions[n] in actions;
      FoundStays(w, actions[..n], t);
    }
  }

  /** A task finds the row pending, other tasks and sweeps run, the task claims it: the claim keeps the law exactly
      when each claim in between has been paid for by one more retry. */
  lemma StaleClaimExact(w: World, t: nat, between: seq<Action>)
    requires Sound(w) && t !in w.tasks && w.row.status.Pending? && !w.row.channel.InApp?
    requires Claim(t) !in between && TaskDies(t) !in between && AllCurrent(Act(w, Finds(t)), between)
    ensures var later := Run(Act(w, Finds(t)), between);
            ClaimLaw(Act(later, Claim(t)).row) <==>
            later.row.claims - w.row.claims == later.row.retries - w.row.retries
  {
    var found := Act(w, Finds(t));
    StepSoundExactly(w, Finds(t));
    SoundRun(found, between);
    FoundStays(found, between, t);
    StepSoundExactly(Run(found, between), Claim(t));
  }

  // ---------------------------------------------------------------- where deliveries end

  /** The claim of a task that found the row pending. */
  predicate ClaimsFound(w: World, a: Action) { a.Claim? && At(w, a.task, Found) }

  /** The write of a sweep that read the row failed. */
  predicate WritesBack(w: World, a: Action) { a.SweepWrites? && a.sweep in w.sweeps }

  predicate NoAuditFailure(actions: seq<Action>) { forall n :: 0 <= n < |actions| ==> !actions[n].AuditFails? }

  /** Only three steps ever take a sent row out of sent: the failure handling of a success that could not be
      audited, the late write of a sweep, and the late claim of a task. */
  lemma SentLeavesExactly(w: World, a: Action)
    requires Sound(w) && w.row.status.Sent?
    ensures Act(w, a).row.status.Sent? <==>
            !(a.MarkFailed? && At(w, a.task, Marking)) && !WritesBack(w, a) && !ClaimsFound(w, a)
    ensures WritesBack(w, a) || ClaimsFound(w, a) ==> !Current(w, a)
    ensures Act(w, a).row.status.Sent? && !a.Record? ==> Act(w, a).row == w.row
  {
    assert forall t :: t in w.tasks ==> PhaseFits(w.row, w.tasks[t]);
  }

  predicate FailingIsProcessing(w: World) {
    forall t :: t in w.tasks && (w.tasks[t].Recording? || w.tasks[t].Marking?) ==> w.row.status.Processing?
  }

  lemma StepFailingIsProcessing(w: World, a: Action)
    requires Sound(w) && FailingIsProcessing(w) && !a.AuditFails? && Current(w, a)
    ensures FailingIsProcessing(Act(w, a))
  {
    assert forall t :: t in w.tasks ==> PhaseFits(w.row, w.tasks[t]);
  }

  lemma {:induction false} RunFailingIsProcessing(w: World, actions: seq<Action>)
    requires Sound(w) && FailingIsProcessing(w) && AllCurrent(w, actions) && NoAuditFailure(actions)
    ensures FailingIsProcessing(Run(w, actions))
  {
    if actions != [] {
      var early := actions[..|actions| - 1];
      LastCurrent(w, actions);
      RunFailingIsProcessing(w, early);
      SoundRun(w, early);
      StepFailingIsProcessing(Run(w, early), actions[|actions| - 1]);
    }
  }

  lemma SentStays(w: World, a: Action)
    requires Sound(w) && FailingIsProcessing(w) && w.row.status.Sent? && !a.AuditFails? && Current(w, a)
    ensures Act(w, a).row == w.row
  {
    SentLeavesExactly(w, a);
  }

  lemma {:induction false} SentForever(w: World, actions: seq<Action>)
    requires Sound(w) && FailingIsProcessing(w) && w.row.status.Sent?
    requires AllCurrent(w, actions) && NoAuditFailure(actions)
    ensures Run(w, actions).row == w.row
  {
    if actions != [] {
      var early, last := actions[..|actions| - 1], actions[|actions| - 1];
      LastCurrent(w, actions);
      SentForever(w, early);
      SoundRun(w, early);
      RunFailingIsProcessing(w, early);
      SentStays(Run(w, early), last);
    }
  }

  /** Sent is absorbing in every run in which no audit write of a success fails and no sweep writes back a row
      claimed since its read and no task claims a row no longer pending; sweeps and tasks may overlap. */
  lemma SentAbsorbing(channel: Channel, early: seq<Action>, late: seq<Action>)
    requires AllCurrent(Fresh(channel), early + late) && NoAuditFailure(early) && NoAuditFailure(late)
    requires Run(Fresh(channel), early).row.status.Sent?
    ensures Run(Fresh(channel), early + late).row == Run(Fresh(channel), early).row
  {
    AllCurrentSplit(Fresh(channel), early, late);
    RunSound(channel, early);
    RunFailingIsProcessing(Fresh(channel), early);
    SentForever(Run(Fresh(channel), early), late);
    RunConcat(Fresh(channel), early, late);
  }

  /** Dead-lettered, or failed with all ten retries used. */
  predicate GivenUp(row: Row) { row.status.DeadLettered? || (row.status.Failed? && row.retries >= MAX_RETRIES) }

  /** The late write of a sweep and the late claim of a task are the only steps that revive a delivery that was
      given up. */
  lemma GivenUpLeavesExactly(w: World, a: Action)
    requires Sound(w) && GivenUp(w.row)
    ensures Act(w, a).row == w.row <==> !WritesBack(w, a) && !ClaimsFound(w, a)
    ensures WritesBack(w, a) || ClaimsFound(w, a) ==> !Current(w, a)
  {
    assert forall t :: t in w.tasks ==> PhaseFits(w.row, w.tasks[t]);
  }

  /** Where no sweep writes and no task claims late, a delivery that was given up is never touched again,
      whatever tasks and sweeps are unfinished. */
  lemma {:induction false} GivenUpForever(w: World, actions: seq<Action>)
    requires Sound(w) && GivenUp(w.row) && AllCurrent(w, actions)
    ensures Run(w, actions).row == w.row
  {
    if actions != [] {
      var early := actions[..|actions| - 1];
      LastCurrent(w, actions);
      GivenUpForever(w, early);
      SoundRun(w, early);
      GivenUpLeavesExactly(Run(w, early), actions[|actions| - 1]);
    }
  }

  lemma AuditLost(w: World, t: nat)
    requires w.row.channel.Email? && At(w, t, Auditing)
    ensures Act(Act(Act(w, AuditFails(t)), Record(t)), MarkFailed(t)) ==
            World(Recorded(w.row).(status := Failed), w.tasks - {t}, w.sweeps)
  {
    var recording := Act(w, AuditFails(t));
    assert recording == w.(tasks := w.tasks[t := Recording]);
    var marking := Act(recording, Record(t));
    assert marking == World(Recorded(w.row), w.tasks[t := Marking], w.sweeps);
    assert marking.tasks - {t} == w.tasks - {t};
  }

  lemma SweptAndSent(w: World, t: nat, s: nat)
    requires Sweepable(w.row) && !w.row.channel.InApp? && t !in w.tasks && s !in w.sweeps
    ensures var back := Act(Act(w, SweepReads(s)), SweepWrites(s));
            Act(Act(Act(back, Finds(t)), Claim(t)), ProviderAccepts(t)).row ==
              w.row.(status := Sent, retries := w.row.retries + 1, claims := w.row.claims + 1)
  {
    var back := Act(Act(w, SweepReads(s)), SweepWrites(s));
    assert back.row == Swept(w.row, w.row.retries) && back.tasks == w.tasks;
    var claimed := Act(Act(back, Finds(t)), Claim(t));
    assert claimed.row == Claimed(back.row) && At(claimed, t, Sending);
  }

  /** When the audit of a success does fail, the e-mail goes out again: the sent row is recorded as failed,
      swept, and claimed by a later task. */
  lemma LostAuditSendsTwice(w: World, t: nat, t': nat, s: nat)
    requires w.row.channel.Email? && At(w, t, Auditing) && Sound(w)
    requires w.row.retries < MAX_RETRIES && s !in w.sweeps
    requires t' !in w.tasks || t' == t
    ensures var w1 := Act(Act(Act(w, AuditFails(t)), Record(t)), MarkFailed(t));
            var w2 := Act(Act(w1, SweepReads(s)), SweepWrites(s));
            Act(Act(Act(w2, Finds(t')), Claim(t')), ProviderAccepts(t')).row ==
              w.row.(retries := w.row.retries + 1, claims := w.row.claims + 1,
                     attempts := w.row.attempts + [w.row.retries + 1])
  {
    assert PhaseFits(w.row, w.tasks[t]);
    AuditLost(w, t);
    SweptAndSent(World(Recorded(w.row).(status := Failed), w.tasks - {t}, w.sweeps), t', s);
  }

  lemma RunPrefix(w: World, actions: seq<Action>, n: nat)
    requires n < |actions|
    ensures Run(w, actions[..n + 1]) == Act(Run(w, actions[..n]), actions[n])
  {
    assert actions[..n + 1][..n] == actions[..n];
  }

  // ---------------------------------------------------------------- overlapping sweeps

  lemma RunOne(w: World, a: Action)
    ensures Run(w, [a]) == Act(w, a)
  {
    assert [a][..0] == [];
  }

  lemma RunTwo(w: World, a: Action, b: Action)
    ensures Run(w, [a, b]) == Act(Act(w, a), b)
  {
    var both := [a, b];
    RunPrefix(w, both, 0);
    RunPrefix(w, both, 1);
    assert both[..0] == [] && both[..2] == both;
  }

  lemma RunThree(w: World, a: Action, b: Action, c: Action)
    ensures Run(w, [a, b, c]) == Act(Act(Act(w, a), b), c)
  {
    var all := [a, b, c];
    RunPrefix(w, all, 0);
    RunPrefix(w, all, 1);
    RunPrefix(w, all, 2);
    assert all[..0] == [] && all[..3] == all;
  }

  /** A task finds the row and claims it. */
  function Taking(task: nat): seq<Action> { [Finds(task), Claim(task)] }

  function FailedAttempt(task: nat): seq<Action> {
    Taking(task) + [ProviderFails(task), Record(task), MarkFailed(task)]
  }

  lemma TakingRuns(w: World, task: nat)
    requires w.row.status.Pending? && !w.row.channel.InApp? && task !in w.tasks
    ensures Run(w, Taking(task)) == w.(row := Claimed(w.row), tasks := w.tasks[task := Sending])
  {
    RunTwo(w, Finds(task), Claim(task));
  }

  lemma FailureSteps(w: World, task: nat)
    requires w.tasks == map[task := Sending]
    ensures Act(Act(Act(w, ProviderFails(task)), Record(task)), MarkFailed(task)) ==
            World(Recorded(w.row).(status := Failed), map[], w.sweeps)
  {
    var recording := Act(w, ProviderFails(task));
    assert recording == w.(tasks := map[task := Recording]);
    var marking := Act(recording, Record(task));
    assert marking == World(Recorded(w.row), map[task := Marking], w.sweeps);
    assert marking.tasks - {task} == map[];
  }

  lemma FailedAttemptRuns(w: World, task: nat)
    requires w.row.status.Pending? && !w.row.channel.InApp? && w.tasks == map[]
    ensures Run(w, FailedAttempt(task)) ==
            w.(row := w.row.(status := Failed, claims := w.row.claims + 1,
                             attempts := w.row.attempts + [w.row.retries + 1]))
  {
    var claimed := World(Claimed(w.row), map[task := Sending], w.sweeps);
    TakingRuns(w, task);
    RunConcat(w, Taking(task), [ProviderFails(task), Record(task), MarkFailed(task)]);
    RunThree(claimed, ProviderFails(task), Record(task), MarkFailed(task));
    FailureSteps(claimed, task);
  }

  /** Two sweeps overlap: both read the row before either writes. */
  function TwoReads(): seq<Action> { [SweepReads(0), SweepReads(1), SweepWrites(0)] }

  /** The second writes after a further attempt has failed. */
  function Overlapping(): seq<Action> {
    ((FailedAttempt(0) + TwoReads()) + FailedAttempt(1)) + ([SweepWrites(1)] + FailedAttempt(2))
  }

  lemma FirstSweepBack()
    ensures Run(Fresh(Push), FailedAttempt(0) + TwoReads()) == World(Row(Push, Pending, 1, 1, [1]), map[], map[1 := 0])
  {
    FailedAttemptRuns(Fresh(Push), 0);
    RunConcat(Fresh(Push), FailedAttempt(0), TwoReads());
    RunThree(Run(Fresh(Push), FailedAttempt(0)), SweepReads(0), SweepReads(1), SweepWrites(0));
  }

  lemma SecondSweepBack(w: World)
    requires w == World(Row(Push, Failed, 1, 2, [1, 2]), map[], map[1 := 0])
    ensures Run(w, [SweepWrites(1)] + FailedAttempt(2)).row == Row(Push, Failed, 1, 3, [1, 2, 2])
  {
    RunConcat(w, [SweepWrites(1)], FailedAttempt(2));
    RunOne(w, SweepWrites(1));
    FailedAttemptRuns(Act(w, SweepWrites(1)), 2);
  }

  /** Then an attempt number is recorded twice and the claim law is gone. */
  lemma OverlapRepeatsAttempt()
    ensures Run(Fresh(Push), Overlapping()).row == Row(Push, Failed, 1, 3, [1, 2, 2])
  {
    var start := FailedAttempt(0) + TwoReads();
    FirstSweepBack();
    RunConcat(Fresh(Push), start, FailedAttempt(1));
    FailedAttemptRuns(Run(Fresh(Push), start), 1);
    SecondSweepBack(Run(Fresh(Push), start + FailedAttempt(1)));
    RunConcat(Fresh(Push), start + FailedAttempt(1), [SweepWrites(1)] + FailedAttempt(2));
  }

  function Delivering(task: nat): seq<Action> { Taking(task) + [ProviderAccepts(task)] }

  lemma DeliveringRuns(w: World, task: nat)
    requires w.row.status.Pending? && w.row.channel.Push? && task !in w.tasks
    ensures Run(w, Delivering(task)) == w.(row := Claimed(w.row).(status := Sent))
  {
    TakingRuns(w, task);
    RunConcat(w, Taking(task), [ProviderAccepts(task)]);
    RunOne(Run(w, Taking(task)), ProviderAccepts(task));
    assert w.tasks[task := Sending] - {task} == w.tasks;
  }

  /** The same overlap, with the attempt in between accepted by the provider. */
  function Resending(): seq<Action> {
    (FailedAttempt(0) + TwoReads()) + (Delivering(1) + ([SweepWrites(1)] + Delivering(2)))
  }

  lemma SentThenSwept(w: World)
    requires w == World(Row(Push, Pending, 1, 1, [1]), map[], map[1 := 0])
    ensures Run(w, Delivering(1)).row == Row(Push, Sent, 1, 2, [1])
    ensures Run(w, Delivering(1) + ([SweepWrites(1)] + Delivering(2))).row == Row(Push, Sent, 1, 3, [1])
  {
    DeliveringRuns(w, 1);
    RunConcat(w, Delivering(1), [SweepWrites(1)] + Delivering(2));
    RunConcat(Run(w, Delivering(1)), [SweepWrites(1)], Delivering(2));
    RunOne(Run(w, Delivering(1)), SweepWrites(1));
    DeliveringRuns(Act(Run(w, Delivering(1)), SweepWrites(1)), 2);
  }

  /** Without any audit failure, a late sweep write takes a sent notification back and it is sent again. */
  lemma OverlapSendsAgain()
    ensures NoAuditFailure(Resending())
    ensures Run(Fresh(Push), (FailedAttempt(0) + TwoReads()) + Delivering(1)).row == Row(Push, Sent, 1, 2, [1])
    ensures Run(Fresh(Push), Resending()).row == Row(Push, Sent, 1, 3, [1])
  {
    var start := FailedAttempt(0) + TwoReads();
    FirstSweepBack();
    SentThenSwept(Run(Fresh(Push), start));
    RunConcat(Fresh(Push), start, Delivering(1));
    RunConcat(Fresh(Push), start, Delivering(1) + ([SweepWrites(1)] + Delivering(2)));
  }

  // ---------------------------------------------------------------- overlapping tasks

  /** Two tasks find the row pending before either claims it. */
  function BothFind(): seq<Action> { [Finds(0), Finds(1), Claim(0)] }

  /** Then both send, with no failure and no sweep at all. */
  lemma OverlapSendsTwice()
    ensures Run(Fresh(Push), BothFind() + [ProviderAccepts(0)]).row == Row(Push, Sent, 0, 1, [])
    ensures Run(Fresh(Push), (BothFind() + [ProviderAccepts(0)]) + [Claim(1), ProviderAccepts(1)]).row ==
            Row(Push, Sent, 0, 2, [])
  {
    var once := BothFind() + [ProviderAccepts(0)];
    RunThree(Fresh(Push), Finds(0), Finds(1), Claim(0));
    RunConcat(Fresh(Push), BothFind(), [ProviderAccepts(0)]);
    RunOne(Run(Fresh(Push), BothFind()), ProviderAccepts(0));
    RunConcat(Fresh(Push), once, [Claim(1), ProviderAccepts(1)]);
    RunTwo(Run(Fresh(Push), once), Claim(1), ProviderAccepts(1));
  }
}
