/** The dispatch tasks and the sweep as they run, one after the other, over the table of deliveries. */
module DeliveryService {
  import opened Delivery

  /** What the provider did with a message and, for e-mail, whether the success could be audited. */
  datatype Verdict = Accepted(audited: bool) | Unavailable | Rejected

  /** The row an e-mail task leaves behind. */
  function EmailDone(row: Row, verdict: Verdict): Row {
    if !row.status.Pending? then row
    else
      match verdict
      case Accepted(true) => Claimed(row).(status := Sent)
      case Accepted(false) => Recorded(Claimed(row)).(status := Failed)
      case Unavailable => Recorded(Claimed(row)).(status := Failed)
      case Rejected => Claimed(row).(status := DeadLettered)
  }

  function PushDone(row: Row, accepted: bool): Row {
    if !row.status.Pending? then row
    else if accepted then Claimed(row).(status := Sent)
    else Recorded(Claimed(row)).(status := Failed)
  }

  const CHUNK: nat := 1000

  /** The rows one sweep fetches. */
  function Picks(rows: seq<Row>): (picked: seq<nat>)
    ensures forall k :: 0 <= k < |picked| ==> picked[k] < |rows| && Sweepable(rows[picked[k]])
    ensures forall j, k :: 0 <= j < k < |picked| ==> picked[j] < picked[k]
    ensures |picked| <= CHUNK
    ensures |picked| < CHUNK ==> forall i :: 0 <= i < |rows| && Sweepable(rows[i]) ==> i in picked
  {
    if rows == [] then []
    else
      var earlier := Picks(rows[..|rows| - 1]);
      if Sweepable(rows[|rows| - 1]) && |earlier| < CHUNK then earlier + [|rows| - 1] else earlier
  }

  class DeliveryTable {
    var rows: seq<Row>

    constructor ()
      ensures rows == []
    {
      rows := [];
    }

    method Put(id: nat, row: Row)
      requires id < |rows|
      modifies this
      ensures rows == old(rows)[id := row]
    {
      rows := rows[id := row];
    }

    method CreateDelivery(channel: Channel)
      modifies this
      ensures rows == old(rows) + [Created(channel)]
    {
      rows := rows + [Created(channel)];
    }

    /** `classify_and_handle_failure`: only a transient failure leaves a retry record. */
    method ClassifyAndHandleFailure(id: nat, transient: bool)
      requires id < |rows|
      modifies this
      ensures rows == old(rows)[id := if transient then Recorded(old(rows)[id]).(status := Failed)
                                      else old(rows)[id].(status := DeadLettered)]
    {
      if transient {
        Put(id, rows[id].(attempts := rows[id].attempts + [rows[id].retries + 1]));
        Put(id, rows[id].(status := Failed));
      } else {
        Put(id, rows[id].(status := DeadLettered));
      }
    }

    method DispatchEmail(id: nat, verdict: Verdict)
      modifies this
      ensures rows == if id < |old(rows)| then old(rows)[id := EmailDone(old(rows)[id], verdict)] else old(rows)
    {
      if id >= |rows| || rows[id].status != Pending {
        return;
      }
      Put(id, rows[id].(status := Processing, claims := rows[id].claims + 1));
      match verdict {
        case Accepted(audited) =>
          Put(id, rows[id].(status := Sent));
          if !audited {
            ClassifyAndHandleFailure(id, true);
          }
        case Unavailable => ClassifyAndHandleFailure(id, true);
        case Rejected => ClassifyAndHandleFailure(id, false);
      }
    }

    method DispatchPush(id: nat, accepted: bool)
      modifies this
      ensures rows == if id < |old(rows)| then old(rows)[id := PushDone(old(rows)[id], accepted)] else old(rows)
    {
      if id >= |rows| || rows[id].status != Pending {
        return;
      }
      Put(id, rows[id].(status := Processing, claims := rows[id].claims + 1));
      if accepted {
        Put(id, rows[id].(status := Sent));
      } else {
        ClassifyAndHandleFailure(id, true);
      }
    }

    /** The saves of a sweep, one after the other: each writes status and counter only, from the row as read. */
    method WriteBack(stuck: seq<nat>)
      requires forall k :: 0 <= k < |stuck| ==> stuck[k] < |rows|
      modifies this
      ensures rows == SweepEach(old(rows), stuck)
    {
      var read := rows;
      var k := 0;
      while k < |stuck|
        invariant 0 <= k <= |stuck|
        invariant rows == SweepEach(read, stuck[..k])
      {
        var id := stuck[k];
        SweepOneMore(read, stuck, k);
        Put(id, rows[id].(status := Pending, retries := read[id].retries + 1));
        k := k + 1;
      }
      assert stuck[..k] == stuck;
    }

    /** The sweep: the picked rows are fetched at once and written back one by one. */
    method SweepTransientFailures()
      modifies this
      ensures rows == SweepEach(old(rows), Picks(old(rows)))
    {
      WriteBack(Picks(rows));
    }
  }

  /** The rows after the sweep has saved the picked ones. */
  function SweepEach(read: seq<Row>, picked: seq<nat>): (after: seq<Row>)
    requires forall k :: 0 <= k < |picked| ==> picked[k] < |read|
    ensures |after| == |read|
  {
    if picked == [] then read
    else
      var last := picked[|picked| - 1];
      var earlier := SweepEach(read, picked[..|picked| - 1]);
      earlier[last := Swept(earlier[last], read[last].retries)]
  }

  lemma SweepOneMore(read: seq<Row>, picked: seq<nat>, k: nat)
    requires k < |picked| && forall j :: 0 <= j < |picked| ==> picked[j] < |read|
    ensures var earlier := SweepEach(read, picked[..k]);
            SweepEach(read, picked[..k + 1]) ==
              earlier[picked[k] := Swept(earlier[picked[k]], read[picked[k]].retries)]
  {
    assert picked[..k + 1][..k] == picked[..k];
  }

  /** A sweep puts exactly the rows it picked back to pending, each with one more retry. */
  lemma {:induction false} SweepExact(read: seq<Row>, picked: seq<nat>, i: nat)
    requires i < |read| && forall k :: 0 <= k < |picked| ==> picked[k] < |read|
    requires forall j, k :: 0 <= j < k < |picked| ==> picked[j] < picked[k]
    ensures SweepEach(read, picked)[i] == if i in picked then Swept(read[i], read[i].retries) else read[i]
  {
    if picked != [] {
      var n := |picked| - 1;
      SweepExact(read, picked[..n], i);
      assert picked == picked[..n] + [picked[n]];
    }
  }

  // ---------------------------------------------------------------- tasks are runs of the interleaved machine

  /** The steps an undisturbed e-mail task takes for each verdict. */
  function EmailSteps(task: nat, verdict: Verdict): seq<Action> {
    match verdict
    case Accepted(true) => Taking(task) + [ProviderAccepts(task), AuditWritten(task)]
    case Accepted(false) =>
      Taking(task) + ([ProviderAccepts(task), AuditFails(task)] + [Record(task), MarkFailed(task)])
    case Unavailable => FailedAttempt(task)
    case Rejected => Taking(task) + [ProviderRejects(task)]
  }

  lemma FailureIsRun(w: World, task: nat)
    requires At(w, task, Recording)
    ensures Run(w, [Record(task), MarkFailed(task)]) ==
            World(Recorded(w.row).(status := Failed), w.tasks - {task}, w.sweeps)
  {
    RunTwo(w, Record(task), MarkFailed(task));
    assert w.tasks[task := Marking] - {task} == w.tasks - {task};
  }

  lemma UnauditedIsRun(w: World, task: nat)
    requires w.row.channel.Email? && w.row.status.Pending? && w.tasks == map[]
    ensures Run(w, EmailSteps(task, Accepted(false))) == w.(row := EmailDone(w.row, Accepted(false)))
  {
    var claimed := Run(w, Taking(task));
    var unheard := [ProviderAccepts(task), AuditFails(task)];
    TakingRuns(w, task);
    RunConcat(w, Taking(task), unheard + [Record(task), MarkFailed(task)]);
    RunConcat(claimed, unheard, [Record(task), MarkFailed(task)]);
    RunTwo(claimed, ProviderAccepts(task), AuditFails(task));
    FailureIsRun(Run(claimed, unheard), task);
    assert map[task := Recording] - {task} == map[];
  }

  /** An e-mail task run to its end is one such run; so are all serial runs of the table's methods. */
  lemma EmailTaskIsRun(w: World, task: nat, verdict: Verdict)
    requires w.row.channel.Email? && w.row.status.Pending? && w.tasks == map[]
    ensures Run(w, EmailSteps(task, verdict)) == w.(row := EmailDone(w.row, verdict))
  {
    match verdict
    case Accepted(true) =>
      TakingRuns(w, task);
      RunConcat(w, Taking(task), [ProviderAccepts(task), AuditWritten(task)]);
      RunTwo(Run(w, Taking(task)), ProviderAccepts(task), AuditWritten(task));
      assert map[task := Auditing] - {task} == map[];
    case Accepted(false) => UnauditedIsRun(w, task);
    case Unavailable => FailedAttemptRuns(w, task);
    case Rejected =>
      TakingRuns(w, task);
      RunConcat(w, Taking(task), [ProviderRejects(task)]);
      RunOne(Run(w, Taking(task)), ProviderRejects(task));
  }

  lemma PushTaskIsRun(w: World, task: nat, accepted: bool)
    requires w.row.channel.Push? && w.row.status.Pending? && w.tasks == map[]
    ensures Run(w, if accepted then Delivering(task) else FailedAttempt(task)) ==
            w.(row := PushDone(w.row, accepted))
  {
    if accepted { DeliveringRuns(w, task); } else { FailedAttemptRuns(w, task); }
  }

  lemma SweepIsRun(w: World, sweep: nat)
    requires Sweepable(w.row) && w.sweeps == map[]
    ensures Run(w, [SweepReads(sweep), SweepWrites(sweep)]) == w.(row := Swept(w.row, w.row.retries))
  {
    RunTwo(w, SweepReads(sweep), SweepWrites(sweep));
    assert map[sweep := w.row.retries] - {sweep} == map[];
  }
}
