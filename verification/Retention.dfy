/** Audit-log retention: batched archiving of old security entries and purging of old general ones. */
module Retention {
  import opened Prelude

  datatype Class = Security | General

  datatype LogRow = LogRow(class_: Class, held: bool, archivedAt: Option<int>, createdAt: int)
  type Rows = map<int, LogRow>

  const SECURITY_RETENTION: int := 7 * 365 * DAY
  const GENERAL_RETENTION: int := 365 * DAY

  datatype Summary = Summary(archived: int, purged: int)

  predicate Archivable(row: LogRow, now: int) {
    row.class_.Security? && !row.held && row.archivedAt.None? && row.createdAt < now - SECURITY_RETENTION
  }

  predicate Purgeable(row: LogRow, now: int) {
    row.class_.General? && !row.held && row.createdAt < now - GENERAL_RETENTION
  }

  function ToArchive(rows: Rows, now: int): set<int> { set pk | pk in rows && Archivable(rows[pk], now) }
  function ToPurge(rows: Rows, now: int): set<int> { set pk | pk in rows && Purgeable(rows[pk], now) }

  /** The table with the given rows archived. */
  function Archived(rows: Rows, pks: set<int>, now: int): Rows {
    map pk | pk in rows :: if pk in pks then rows[pk].(archivedAt := Some(now)) else rows[pk]
  }

  /** What a run leaves of the table. */
  function Kept(rows: Rows, now: int): Rows { Archived(rows, ToArchive(rows, now), now) - ToPurge(rows, now) }

  /** The result of a call and the table it leaves. Only PostgreSQL's trigger decides whether the archiving
      UPDATE is let through. */
  datatype Outcome = Outcome(result: Tx<Summary>, rows: Rows)

  function Retain(rows: Rows, dryRun: bool, chunk: int, now: int, updatesAllowed: bool): Outcome {
    var archivable, purgeable := |ToArchive(rows, now)|, |ToPurge(rows, now)|;
    if dryRun then Outcome(Commit(Summary(archivable, purgeable)), rows)
    else if chunk < 0 && archivable + purgeable > 0 then Outcome(Abort(Invalid), rows)
    else if chunk <= 0 then Outcome(Commit(Summary(0, 0)), rows)
    else if archivable > 0 && !updatesAllowed then Outcome(Abort(Crashed), rows)
    else Outcome(Commit(Summary(archivable, purgeable)), Kept(rows, now))
  }

  function Least(a: nat, b: nat): nat { if a < b then a else b }

  /** The slice of a query: some of the matching keys, as many as asked for if there are that many. */
  method Slice(matching: set<int>, limit: nat) returns (pks: set<int>)
    ensures pks <= matching && |pks| == Least(limit, |matching|)
  {
    pks := {};
    while |pks| < limit && pks != matching
      invariant pks <= matching && |pks| <= limit
      decreases matching - pks
    {
      SubsetSize(matching, pks);
      SomeMember(matching - pks);
      var pk :| pk in matching - pks;
      pks := pks + {pk};
    }
    SubsetSize(matching, pks);
  }

  lemma SubsetSize(all: set<int>, part: set<int>)
    requires part <= all
    ensures |part| + |all - part| == |all|
    ensures part != all ==> all - part != {}
  {
    assert all == part + (all - part);
  }

  lemma ArchiveMore(rows: Rows, done: set<int>, pks: set<int>, now: int)
    requires done <= ToArchive(rows, now) && pks <= ToArchive(rows, now)
    ensures Archived(Archived(rows, done, now), pks, now) == Archived(rows, done + pks, now)
    ensures ToArchive(Archived(rows, done, now), now) == ToArchive(rows, now) - done
  {
    var after := Archived(rows, done, now);
    assert after.Keys == rows.Keys;
    forall pk ensures pk in ToArchive(after, now) <==> pk in ToArchive(rows, now) - done {
      assert pk in rows && pk !in done ==> after[pk] == rows[pk];
    }
  }

  lemma PurgeMore(rows: Rows, done: set<int>, now: int)
    requires done <= ToPurge(rows, now)
    ensures ToPurge(rows - done, now) == ToPurge(rows, now) - done
  {}

  class AuditTable {
    var rows: Rows
    const updatesAllowed: bool

    constructor (rows: Rows, updatesAllowed: bool)
      ensures this.rows == rows && this.updatesAllowed == updatesAllowed
    {
      this.rows := rows;
      this.updatesAllowed := updatesAllowed;
    }

    /** Archives batch after batch until the query comes back empty. */
    method ArchiveLoop(chunk: int, now: int) returns (count: int, error: Option<Error>)
      modifies this
      ensures chunk < 0 ==> error == Some(Invalid) && rows == old(rows)
      ensures chunk == 0 ==> error.None? && count == 0 && rows == old(rows)
      ensures chunk > 0 && !updatesAllowed && ToArchive(old(rows), now) != {} ==>
                error == Some(Crashed) && rows == old(rows)
      ensures chunk > 0 && (updatesAllowed || ToArchive(old(rows), now) == {}) ==>
                error.None? && count == |ToArchive(old(rows), now)| &&
                rows == Archived(old(rows), ToArchive(old(rows), now), now)
    {
      count := 0;
      error := None;
      if chunk < 0 {
        return count, Some(Invalid);
      }
      ghost var all := ToArchive(rows, now);
      ghost var done: set<int> := {};
      assert rows == Archived(rows, {}, now);
      while true
        invariant done <= all && count == |done|
        invariant rows == Archived(old(rows), done, now)
        invariant chunk == 0 || !updatesAllowed ==> done == {}
        decreases all - done
      {
        ArchiveMore(old(rows), done, {}, now);
        var pks := Slice(ToArchive(rows, now), chunk);
        if pks == {} {
          break;
        }
        if !updatesAllowed {
          return 0, Some(Crashed);
        }
        ArchiveMore(old(rows), done, pks, now);
        rows := map pk | pk in rows :: if pk in pks then rows[pk].(archivedAt := Some(now)) else rows[pk];
        count := count + |pks|;
        assert |done + pks| == |done| + |pks|;
        done := done + pks;
      }
      SubsetSize(all, done);
      assert chunk > 0 ==> all - done == {};
    }

    /** Deletes batch after batch until the query comes back empty. */
    method PurgeLoop(chunk: int, now: int) returns (count: int, error: Option<Error>)
      modifies this
      ensures chunk < 0 ==> error == Some(Invalid) && rows == old(rows)
      ensures chunk == 0 ==> error.None? && count == 0 && rows == old(rows)
      ensures chunk > 0 ==>
                error.None? && count == |ToPurge(old(rows), now)| && rows == old(rows) - ToPurge(old(rows), now)
    {
      count := 0;
      error := None;
      if chunk < 0 {
        return count, Some(Invalid);
      }
      ghost var all := ToPurge(rows, now);
      ghost var done: set<int> := {};
      assert rows == rows - {};
      while true
        invariant done <= all && count == |done|
        invariant rows == old(rows) - done
        invariant chunk == 0 ==> done == {}
        decreases all - done
      {
        PurgeMore(old(rows), done, now);
        var pks := Slice(ToPurge(rows, now), chunk);
        if pks == {} {
          break;
        }
        assert old(rows) - done - pks == old(rows) - (done + pks);
        rows := rows - pks;
        count := count + |pks|;
        assert |done + pks| == |done| + |pks|;
        done := done + pks;
      }
      SubsetSize(all, done);
      assert chunk > 0 ==> all - done == {};
    }

    /** `run_retention`: nothing is left half done, whatever the batch size. */
    method RunRetention(dryRun: bool, chunk: int, now: int) returns (result: Tx<Summary>)
      modifies this
      ensures Outcome(result, rows) == Retain(old(rows), dryRun, chunk, now, updatesAllowed)
    {
      var archivable, purgeable := |ToArchive(rows, now)|, |ToPurge(rows, now)|;
      var archived, purged := 0, 0;
      if !dryRun {
        var error: Option<Error>;
        if archivable > 0 {
          archived, error := ArchiveLoop(chunk, now);
          if error.Some? {
            return Abort(error.value);
          }
        }
        ArchivingKeepsPurgeable(old(rows), now);
        if purgeable > 0 {
          purged, error := PurgeLoop(chunk, now);
          if error.Some? {
            return Abort(error.value);
          }
        }
        KeptWhenNothingMatches(old(rows), now);
      }
      result := Commit(Summary(if dryRun then (if archived != 0 then archived else archivable) else archived,
                               if dryRun then (if purged != 0 then purged else purgeable) else purged));
    }
  }

  lemma ArchivingKeepsPurgeable(rows: Rows, now: int)
    ensures ToPurge(Archived(rows, ToArchive(rows, now), now), now) == ToPurge(rows, now)
  {
    var after := Archived(rows, ToArchive(rows, now), now);
    assert after.Keys == rows.Keys;
    forall pk ensures pk in ToPurge(after, now) <==> pk in ToPurge(rows, now) {
      assert pk in rows ==> after[pk] == rows[pk] || Archivable(rows[pk], now);
    }
  }

  lemma KeptWhenNothingMatches(rows: Rows, now: int)
    ensures ToArchive(rows, now) == {} ==> Archived(rows, ToArchive(rows, now), now) == rows
    ensures ToPurge(rows, now) == {} ==> Kept(rows, now) == Archived(rows, ToArchive(rows, now), now)
  {}

  /** The rows a run deletes, and those it stamps, by class, hold and age in days. */
  function Gone(rows: Rows, now: int): set<int> {
    set pk | pk in rows && rows[pk].class_ == General && !rows[pk].held &&
             rows[pk].createdAt < now - 365 * 24 * 3600 * 1000000
  }

  function Stamped(rows: Rows, now: int): set<int> {
    set pk | pk in rows && rows[pk].class_ == Security && !rows[pk].held && rows[pk].archivedAt == None &&
             rows[pk].createdAt < now - 7 * 365 * 24 * 3600 * 1000000
  }

  /** A run touches exactly the unheld rows past the cutoff of their class: security rows of more than seven years stay
      and are stamped once, general rows of more than a year go, everything else is as it was. */
  lemma KeptExact(rows: Rows, now: int, pk: int)
    ensures pk in Kept(rows, now) <==>
            pk in rows && !(rows[pk].class_ == General && !rows[pk].held &&
                            rows[pk].createdAt < now - 365 * 24 * 3600 * 1000000)
    ensures pk in Kept(rows, now) ==>
              Kept(rows, now)[pk] ==
                if rows[pk].class_ == Security && !rows[pk].held && rows[pk].archivedAt == None &&
                   rows[pk].createdAt < now - 7 * 365 * 24 * 3600 * 1000000
                then rows[pk].(archivedAt := Some(now)) else rows[pk]
    ensures pk in rows && rows[pk].held ==> pk in Kept(rows, now) && Kept(rows, now)[pk] == rows[pk]
  {}

  /** What a run answers and leaves: a dry run counts the rows and touches none; a run in batches of a positive size
      counts and treats exactly those, unless the archiving UPDATE is refused; batches of no rows do nothing, and a
      negative size is an error if there is anything to do. */
  lemma RunExact(rows: Rows, chunk: int, now: int, updatesAllowed: bool)
    ensures var counts := Summary(|Stamped(rows, now)|, |Gone(rows, now)|);
            && Retain(rows, true, chunk, now, updatesAllowed) == Outcome(Commit(counts), rows)
            && (chunk > 0 && (updatesAllowed || Stamped(rows, now) == {}) ==>
                  Retain(rows, false, chunk, now, updatesAllowed) == Outcome(Commit(counts), Kept(rows, now)))
            && (chunk > 0 && !updatesAllowed && Stamped(rows, now) != {} ==>
                  Retain(rows, false, chunk, now, updatesAllowed) == Outcome(Abort(Crashed), rows))
            && (chunk == 0 ==> Retain(rows, false, chunk, now, updatesAllowed) == Outcome(Commit(Summary(0, 0)), rows))
            && (chunk < 0 ==>
                  Retain(rows, false, chunk, now, updatesAllowed) ==
                  if Stamped(rows, now) == {} && Gone(rows, now) == {}
                  then Outcome(Commit(Summary(0, 0)), rows) else Outcome(Abort(Invalid), rows))
  {
    forall pk ensures pk in Stamped(rows, now) <==> pk in ToArchive(rows, now)
              ensures pk in Gone(rows, now) <==> pk in ToPurge(rows, now) {}
    assert Stamped(rows, now) == ToArchive(rows, now) && Gone(rows, now) == ToPurge(rows, now);
    assert |Stamped(rows, now)| == 0 <==> Stamped(rows, now) == {};
    assert |Gone(rows, now)| == 0 <==> Gone(rows, now) == {};
  }

  /** A dry run predicts the counts of the real run exactly when there is nothing to do, or the batch size is
      positive and the archiving UPDATE, if there is one, is let through. */
  lemma DryRunPredictsExactly(rows: Rows, chunk: int, now: int, updatesAllowed: bool)
    ensures Retain(rows, false, chunk, now, updatesAllowed).result ==
            Retain(rows, true, chunk, now, updatesAllowed).result <==>
            (ToArchive(rows, now) == {} && ToPurge(rows, now) == {}) ||
            (chunk >= 1 && (ToArchive(rows, now) == {} || updatesAllowed))
    ensures Retain(rows, true, chunk, now, updatesAllowed).rows == rows
  {
    assert |ToArchive(rows, now)| == 0 <==> ToArchive(rows, now) == {};
    assert |ToPurge(rows, now)| == 0 <==> ToPurge(rows, now) == {};
  }

  function Sign(n: int): int { if n < 0 then -1 else if n == 0 then 0 else 1 }

  /** Two batch sizes have the same result and leave the same table if and only if nothing matches or they have
      the same sign: every positive size archives and purges the same rows and counts them the same. */
  lemma BatchSizeExact(rows: Rows, chunk: int, chunk': int, now: int, updatesAllowed: bool)
    ensures Retain(rows, false, chunk, now, updatesAllowed) == Retain(rows, false, chunk', now, updatesAllowed) <==>
            (ToArchive(rows, now) == {} && ToPurge(rows, now) == {}) || Sign(chunk) == Sign(chunk')
  {
    assert |ToArchive(rows, now)| == 0 <==> ToArchive(rows, now) == {};
    assert |ToPurge(rows, now)| == 0 <==> ToPurge(rows, now) == {};
    KeptWhenNothingMatches(rows, now);
  }

  /** After a successful run, running again at the same time finds nothing left. */
  lemma RetentionIdempotent(rows: Rows, chunk: int, now: int, updatesAllowed: bool)
    requires chunk >= 1 && Retain(rows, false, chunk, now, updatesAllowed).result.Commit?
    ensures var after := Retain(rows, false, chunk, now, updatesAllowed).rows;
            Retain(after, false, chunk, now, updatesAllowed) == Outcome(Commit(Summary(0, 0)), after)
  {
    var after := Kept(rows, now);
    assert ToArchive(after, now) == {} by {
      forall pk | pk in after ensures !Archivable(after[pk], now) { KeptExact(rows, now, pk); }
    }
    assert ToPurge(after, now) == {} by {
      forall pk | pk in after ensures !Purgeable(after[pk], now) { KeptExact(rows, now, pk); }
    }
    KeptWhenNothingMatches(after, now);
  }

  /** Where the trigger refuses updates, one archivable row keeps every general row from being purged. */
  lemma ForbiddenUpdateBlocksPurge(rows: Rows, chunk: int, now: int)
    requires chunk >= 1 && ToArchive(rows, now) != {}
    ensures Retain(rows, false, chunk, now, false) == Outcome(Abort(Crashed), rows)
  {
    assert |ToArchive(rows, now)| > 0;
  }
}
