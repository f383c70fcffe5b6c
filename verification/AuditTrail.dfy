/** Field deltas of the audit log: what log_transition records, and what can be rebuilt from it. */
module AuditTrail {
  /** A field as the log stores it. */
  datatype Value = Null | Number(n: int) | Text(s: string)

  /** A row by its columns; `K` names the columns of one table. */
  type Fields<!K(==)> = map<K, Value>

  datatype Delta<!K(==)> = Delta(before: Fields<K>, after: Fields<K>)

  /** One log row: the resource it is about and the fields it recorded. */
  datatype Entry<!K(==)> = Entry(resource: nat, delta: Delta<K>)

  /** Dictionary lookup with a missing key read as null. */
  function Get<K(==)>(fields: Fields<K>, key: K): Value {
    if key in fields then fields[key] else Null
  }

  function DeltaOf<K(==)>(before: Fields<K>, after: Fields<K>): Delta<K> {
    Delta(map k | k in after && Get(before, k) != after[k] :: Get(before, k),
          map k | k in after && Get(before, k) != after[k] :: after[k])
  }

  lemma DeltaKeys<K>(before: Fields<K>, after: Fields<K>)
    ensures DeltaOf(before, after).after.Keys <= after.Keys
    ensures DeltaOf(before, after).before.Keys == DeltaOf(before, after).after.Keys
  {}

  /** The delta loop: one pass over the later fields, in whatever order they come. */
  method LogTransition<K(==)>(before: Fields<K>, after: Fields<K>) returns (delta: Delta<K>)
    ensures delta == DeltaOf(before, after)
  {
    var changedBefore: Fields<K>, changedAfter: Fields<K> := map[], map[];
    var left := after.Keys;
    while left != {}
      invariant left <= after.Keys
      invariant forall k :: k in changedAfter <==> k in after && k !in left && Get(before, k) != after[k]
      invariant changedBefore.Keys == changedAfter.Keys
      invariant forall k :: k in changedAfter ==> changedAfter[k] == after[k] && changedBefore[k] == Get(before, k)
      decreases left
    {
      var k :| k in left;
      if Get(before, k) != after[k] {
        changedBefore := changedBefore[k := Get(before, k)];
        changedAfter := changedAfter[k := after[k]];
      }
      left := left - {k};
    }
    delta := Delta(changedBefore, changedAfter);
    assert changedBefore == DeltaOf(before, after).before && changedAfter == DeltaOf(before, after).after;
  }

  /** Applying a delta to the earlier fields gives the later ones exactly when no field disappeared and no
      field appeared as null. */
  lemma ForwardExact<K>(before: Fields<K>, after: Fields<K>)
    ensures before + DeltaOf(before, after).after == after <==>
            before.Keys <= after.Keys && forall k :: k in after && k !in before ==> after[k] != Null
  {
    var forward := before + DeltaOf(before, after).after;
    assert forward.Keys == before.Keys + DeltaOf(before, after).after.Keys;
    if forward == after {
      forall k | k in after && k !in before ensures after[k] != Null {
        assert k in forward;
      }
    }
    if before.Keys <= after.Keys && forall k :: k in after && k !in before ==> after[k] != Null {
      forall k | k in after ensures k in forward && forward[k] == after[k] {
        assert k in before || k in DeltaOf(before, after).after;
      }
      assert forward.Keys == after.Keys;
    }
  }

  /** Applying the recorded previous values to the later fields gives the earlier ones back exactly when both
      have the same fields. */
  lemma InverseExact<K>(before: Fields<K>, after: Fields<K>)
    ensures after + DeltaOf(before, after).before == before <==> before.Keys == after.Keys
  {
    var back := after + DeltaOf(before, after).before;
    assert back.Keys == after.Keys;
  }

  /** Both directions hold for two versions of one model row, which have the same fields. */
  lemma SameFieldsRoundTrip<K>(before: Fields<K>, after: Fields<K>)
    requires before.Keys == after.Keys
    ensures before + DeltaOf(before, after).after == after
    ensures after + DeltaOf(before, after).before == before
  {
    ForwardExact(before, after);
    InverseExact(before, after);
  }

  /** Fields that both versions borrow alike never show in the delta. */
  lemma LentCancels<K>(before: Fields<K>, after: Fields<K>, lent: Fields<K>)
    requires before.Keys == after.Keys && lent.Keys !! after.Keys
    ensures DeltaOf(before + lent, after + lent) == DeltaOf(before, after)
  {
    assert DeltaOf(before + lent, after + lent).after == DeltaOf(before, after).after;
    assert DeltaOf(before + lent, after + lent).before == DeltaOf(before, after).before;
  }

  /** Undoing a delta beneath borrowed fields leaves those alone. */
  lemma UndoBeneath<K>(before: Fields<K>, after: Fields<K>, lent: Fields<K>)
    requires before.Keys == after.Keys && lent.Keys !! after.Keys
    ensures (after + lent) + DeltaOf(before, after).before == before + lent
  {
    SameFieldsRoundTrip(before, after);
    assert (after + lent) + DeltaOf(before, after).before == (after + DeltaOf(before, after).before) + lent;
  }

  /** Applying a delta to fields that hold the earlier version beside others gives the later one beside them. */
  lemma RedoBeside<K>(told: Fields<K>, before: Fields<K>, after: Fields<K>, others: set<K>)
    requires before.Keys == after.Keys && others !! after.Keys && told - others == before
    ensures (told + DeltaOf(before, after).after) - others == after
    ensures (told + DeltaOf(before, after).after).Keys == told.Keys
    ensures forall k :: k in others ==> Get(told + DeltaOf(before, after).after, k) == Get(told, k)
  {
    SameFieldsRoundTrip(before, after);
    assert (told + DeltaOf(before, after).after) - others == (told - others) + DeltaOf(before, after).after;
    assert forall k :: k in (told - others) ==> k in told;
  }

  function Creation<K(==)>(resource: nat, row: Fields<K>): Entry<K> { Entry(resource, Delta(map[], row)) }
  function Transition<K(==)>(resource: nat, before: Fields<K>, after: Fields<K>): Entry<K> {
    Entry(resource, DeltaOf(before, after))
  }

  /** The fields of one resource as the log tells them, oldest entry first. */
  function Replay<K(==)>(log: seq<Entry<K>>, resource: nat): Fields<K> {
    if log == [] then map[]
    else
      var soFar := Replay(log[..|log| - 1], resource);
      var last := log[|log| - 1];
      if last.resource == resource then soFar + last.delta.after else soFar
  }

  /** Takes the entries of one resource back off its current fields, newest first. */
  function Rewind<K(==)>(row: Fields<K>, log: seq<Entry<K>>, resource: nat): Fields<K>
    decreases |log|
  {
    if log == [] then row
    else
      var last := log[|log| - 1];
      Rewind(if last.resource == resource then row + last.delta.before else row, log[..|log| - 1], resource)
  }

  lemma ReplayAppend<K>(log: seq<Entry<K>>, e: Entry<K>, resource: nat)
    ensures Replay(log + [e], resource) ==
            if e.resource == resource then Replay(log, resource) + e.delta.after else Replay(log, resource)
  {
    assert (log + [e])[..|log|] == log;
  }

  lemma RewindAppend<K>(row: Fields<K>, log: seq<Entry<K>>, e: Entry<K>, resource: nat)
    ensures Rewind(row, log + [e], resource) ==
            Rewind(if e.resource == resource then row + e.delta.before else row, log, resource)
  {
    assert (log + [e])[..|log|] == log;
  }

  /** Undoing one entry, if it is about the resource, beneath borrowed fields. */
  lemma EntryRewinds<K>(earlier: Fields<K>, later: Fields<K>, e: Entry<K>, resource: nat, lent: Fields<K>)
    requires earlier.Keys == later.Keys && lent.Keys !! later.Keys
    requires if e.resource == resource then e.delta == DeltaOf(earlier, later) else earlier == later
    ensures Rewind(later + lent, [e], resource) == earlier + lent
  {
    RewindAppend(later + lent, [], e, resource);
    assert [] + [e] == [e];
    UndoBeneath(earlier, later, lent);
  }

  /** What later entries tell beside `others` brings an earlier version forward. */
  lemma BroughtForward<K>(told: Fields<K>, more: Fields<K>, earlier: Fields<K>, later: Fields<K>, others: set<K>)
    requires told - others == earlier && (told + more) - others == later && more.Keys !! others
    ensures earlier + more == later
  {
    assert (told + more) - others == (told - others) + more;
  }
}
