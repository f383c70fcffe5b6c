/** Where a delivery ends and why: each status has one kind of step that writes it, and the last one decides. */
module DeliveryEnds {
  import opened Prelude
  import opened Delivery
  import opened DeliveryService

  /** The status a step writes, if it takes effect: what a task or a sweep does in the phase it is in. */
  function Writes(w: World, a: Action): Option<Status> {
    match a
    case Claim(t) => if t in w.tasks && w.tasks[t] == Found then Some(Status.Processing) else None
    case ProviderAccepts(t) => if t in w.tasks && w.tasks[t] == Sending then Some(Status.Sent) else None
    case ProviderRejects(t) =>
      if t in w.tasks && w.tasks[t] == Sending && w.row.channel == Email then Some(Status.DeadLettered) else None
    case MarkFailed(t) => if t in w.tasks && w.tasks[t] == Marking then Some(Status.Failed) else None
    case SweepWrites(s) => if s in w.sweeps then Some(Status.Pending) else None
    case _ => None
  }

  /** The status written last along a run. */
  function LastWritten(w: World, actions: seq<Action>): Option<Status> {
    if actions == [] then None
    else
      var n := |actions| - 1;
      if Writes(Run(w, actions[..n]), actions[n]).Some? then Writes(Run(w, actions[..n]), actions[n])
      else LastWritten(w, actions[..n])
  }

  lemma StepWrites(w: World, a: Action)
    ensures Act(w, a).row.status == if Writes(w, a).Some? then Writes(w, a).value else w.row.status
  {}

  /** After any run the row has the status that was written last, or that of the start. */
  lemma {:induction false} LastWriteDecides(w: World, actions: seq<Action>)
    ensures Run(w, actions).row.status ==
            if LastWritten(w, actions).Some? then LastWritten(w, actions).value else w.row.status
  {
    if actions != [] {
      var n := |actions| - 1;
      LastWriteDecides(w, actions[..n]);
      StepWrites(Run(w, actions[..n]), actions[n]);
    }
  }

  /** Some step of the run takes effect and writes the status. */
  predicate Written(w: World, actions: seq<Action>, status: Status) {
    exists n :: 0 <= n < |actions| && Writes(Run(w, actions[..n]), actions[n]) == Some(status)
  }

  lemma {:induction false} LastWrittenIsWritten(w: World, actions: seq<Action>)
    ensures LastWritten(w, actions).Some? ==> Written(w, actions, LastWritten(w, actions).value)
  {
    if actions != [] {
      var n := |actions| - 1;
      LastWrittenIsWritten(w, actions[..n]);
      if Writes(Run(w, actions[..n]), actions[n]).None? && LastWritten(w, actions[..n]).Some? {
        var m :| 0 <= m < n &&
          Writes(Run(w, actions[..n][..m]), actions[..n][m]) == Some(LastWritten(w, actions[..n]).value);
        assert actions[..n][..m] == actions[..m] && actions[..n][m] == actions[m];
      }
    }
  }

  /** In any run from a new delivery, however steps interleave and overlap: it reads sent only if the provider
      accepted it for a task that was sending, dead-lettered only if it is an e-mail that the provider rejected for
      such a task, and failed only if a task marked it after its retry record. */
  lemma EndsForAReason(channel: Channel, actions: seq<Action>)
    ensures var status := Run(Fresh(channel), actions).row.status;
            !status.Pending? ==>
              exists n :: 0 <= n < |actions| && Writes(Run(Fresh(channel), actions[..n]), actions[n]) == Some(status)
  {
    LastWriteDecides(Fresh(channel), actions);
    LastWrittenIsWritten(Fresh(channel), actions);
  }

  /** Once the provider has rejected an e-mail, the delivery is dead-lettered, with no attempt recorded, and stays as it
      is in every later current run. */
  lemma RejectedForever(w: World, t: nat, later: seq<Action>)
    requires Sound(w) && w.row.channel.Email? && At(w, t, Sending)
    requires AllCurrent(Act(w, ProviderRejects(t)), later)
    ensures Run(Act(w, ProviderRejects(t)), later).row == w.row.(status := DeadLettered)
  {
    StepSoundExactly(w, ProviderRejects(t));
    GivenUpForever(Act(w, ProviderRejects(t)), later);
  }

  predicate ChannelFits(w: World, channel: Channel) {
    && w.row.channel == channel
    && (channel.Push? ==> !w.row.status.DeadLettered?)
    && (channel.InApp? ==> w == Fresh(InApp))
  }

  lemma ChannelStep(w: World, a: Action, channel: Channel)
    requires ChannelFits(w, channel)
    ensures ChannelFits(Act(w, a), channel)
  {
    StepWrites(w, a);
  }

  /** A push delivery is never dead-lettered, and one for the app alone never leaves pending. */
  lemma {:induction false} ChannelEnds(channel: Channel, actions: seq<Action>)
    ensures ChannelFits(Run(Fresh(channel), actions), channel)
  {
    if actions != [] {
      var n := |actions| - 1;
      ChannelEnds(channel, actions[..n]);
      ChannelStep(Run(Fresh(channel), actions[..n]), actions[n], channel);
    }
  }

  // ---------------------------------------------------------------- whole tasks

  /** What an e-mail task makes of a pending delivery, and what it leaves of any other. */
  lemma EmailTaskEnds(row: Row, verdict: Verdict)
    ensures !row.status.Pending? ==> EmailDone(row, verdict) == row
    ensures row.status.Pending? ==>
              var done := EmailDone(row, verdict);
              && done.channel == row.channel && done.retries == row.retries && done.claims == row.claims + 1
              && (done.status.Sent? <==> verdict == Accepted(true))
              && (done.status.DeadLettered? <==> verdict == Rejected)
              && (done.status.Failed? <==> verdict == Accepted(false) || verdict == Unavailable)
              && done.attempts == if done.status.Failed? then row.attempts + [row.retries + 1] else row.attempts
  {}

  /** The same of a push task; every failure counts as transient. */
  lemma PushTaskEnds(row: Row, accepted: bool)
    ensures !row.status.Pending? ==> PushDone(row, accepted) == row
    ensures row.status.Pending? ==>
              var done := PushDone(row, accepted);
              && done.channel == row.channel && done.retries == row.retries && done.claims == row.claims + 1
              && done.status == (if accepted then Status.Sent else Status.Failed)
              && done.attempts == if accepted then row.attempts else row.attempts + [row.retries + 1]
  {}

  // ---------------------------------------------------------------- sweeps

  /** How many of the rows a sweep may take. */
  function Sweepables(rows: seq<Row>): nat {
    if rows == [] then 0
    else
      var row := rows[|rows| - 1];
      Sweepables(rows[..|rows| - 1]) + if row.status.Failed? && row.retries < 10 then 1 else 0
  }

  lemma {:induction false} PicksSome(rows: seq<Row>)
    ensures |Picks(rows)| == if Sweepables(rows) < 1000 then Sweepables(rows) else 1000
  {
    if rows != [] { PicksSome(rows[..|rows| - 1]); }
  }

  predicate TakesLast(rows: seq<Row>)
    requires rows != []
  {
    rows[|rows| - 1].status.Failed? && rows[|rows| - 1].retries < 10 && Sweepables(rows[..|rows| - 1]) < 1000
  }

  lemma PicksLast(rows: seq<Row>)
    requires rows != []
    ensures Picks(rows) == Picks(rows[..|rows| - 1]) + (if TakesLast(rows) then [|rows| - 1] else [])
  {
    PicksSome(rows[..|rows| - 1]);
  }

  lemma {:induction false} PicksInOrder(rows: seq<Row>, i: nat)
    requires i < |rows|
    ensures i in Picks(rows) <==> TakesLast(rows[..i + 1])
  {
    var n := |rows| - 1;
    PicksLast(rows);
    if i < n {
      PicksInOrder(rows[..n], i);
      assert rows[..n][..i + 1] == rows[..i + 1];
    } else {
      assert rows[..i + 1] == rows;
      assert n !in Picks(rows[..n]);
    }
  }

  lemma TakesAt(rows: seq<Row>, i: nat)
    requires i < |rows|
    ensures TakesLast(rows[..i + 1]) <==>
            rows[i].status.Failed? && rows[i].retries < 10 && Sweepables(rows[..i]) < 1000
  {
    assert rows[..i + 1][..i] == rows[..i];
  }

  /** A sweep puts back exactly the first thousand failed deliveries with fewer than ten retries, each with one retry
      more, and leaves all others alone. */
  lemma SweepPutsBack(rows: seq<Row>, i: nat)
    requires i < |rows|
    ensures SweepEach(rows, Picks(rows))[i] ==
            if rows[i].status.Failed? && rows[i].retries < 10 && Sweepables(rows[..i]) < 1000
            then rows[i].(status := Status.Pending, retries := rows[i].retries + 1) else rows[i]
  {
    PicksInOrder(rows, i);
    TakesAt(rows, i);
    SweepExact(rows, Picks(rows), i);
  }

  // ---------------------------------------------------------------- the bound is reached

  /** A push task fails, and a sweep puts the delivery back. */
  function Round(): seq<Action> { FailedAttempt(0) + [SweepReads(0), SweepWrites(0)] }

  function Rounds(n: nat): seq<Action> { if n == 0 then [] else Rounds(n - 1) + Round() }

  function UpTo(n: nat): (s: seq<int>)
    ensures |s| == n
  {
    seq(n, i => i + 1)
  }

  lemma RoundRuns(n: nat)
    requires n < 10
    ensures Run(World(Row(Push, Pending, n, n, UpTo(n)), map[], map[]), Round()) ==
            World(Row(Push, Pending, n + 1, n + 1, UpTo(n + 1)), map[], map[])
  {
    var w := World(Row(Push, Pending, n, n, UpTo(n)), map[], map[]);
    FailedAttemptRuns(w, 0);
    var failed := World(Row(Push, Failed, n, n + 1, UpTo(n + 1)), map[], map[]);
    assert UpTo(n) + [n + 1] == UpTo(n + 1);
    RunConcat(w, FailedAttempt(0), [SweepReads(0), SweepWrites(0)]);
    SweepIsRun(failed, 0);
  }

  lemma {:induction false} RoundsRun(n: nat)
    requires n <= 10
    ensures Run(Fresh(Push), Rounds(n)) == World(Row(Push, Pending, n, n, UpTo(n)), map[], map[])
  {
    if n > 0 {
      RoundsRun(n - 1);
      RunConcat(Fresh(Push), Rounds(n - 1), Round());
      RoundRuns(n - 1);
    }
  }

  /** The bound of eleven claims is reached: a delivery that keeps failing is swept ten times, and then no more. */
  lemma ElevenAttempts()
    ensures var w := Run(Fresh(Push), Rounds(10) + FailedAttempt(0));
            && w.row == Row(Push, Failed, 10, 11, UpTo(11)) && w.tasks == map[]
            && forall s :: Act(w, SweepReads(s)) == w
  {
    RoundsRun(10);
    RunConcat(Fresh(Push), Rounds(10), FailedAttempt(0));
    FailedAttemptRuns(Run(Fresh(Push), Rounds(10)), 0);
    assert UpTo(10) + [11] == UpTo(11);
  }
}
