/** Free slots of a technician's day: interval subtraction, and what survives of it once windows are
    projected to times of day. */
module Availability {

  // ---------------------------------------------------------------- interval subtraction

  /** A half-open stretch of times, `start` to `end`. */
  datatype Block = Block(start: int, end: int)

  predicate Within(b: Block, t: int) { b.start <= t < b.end }

  predicate Covers(blocks: seq<Block>, t: int) {
    exists k :: 0 <= k < |blocks| && Within(blocks[k], t)
  }

  /** Nonempty, sorted and disjoint. */
  predicate Ordered(blocks: seq<Block>) {
    && (forall k :: 0 <= k < |blocks| ==> blocks[k].start < blocks[k].end)
    && (forall i, j :: 0 <= i < j < |blocks| ==> blocks[i].end <= blocks[j].start)
  }

  predicate Misses(block: Block, cut: Block) { cut.start >= block.end || cut.end <= block.start }

  /** What one block leaves behind. */
  function SubtractOne(block: Block, cut: Block): seq<Block> {
    if Misses(block, cut) then [block]
    else if cut.start > block.start && cut.end < block.end
    then [Block(block.start, cut.start), Block(cut.end, block.end)]
    else if cut.start <= block.start && cut.end < block.end then [Block(cut.end, block.end)]
    else if cut.start > block.start && cut.end >= block.end then [Block(block.start, cut.start)]
    else []
  }

  function Subtract(blocks: seq<Block>, cut: Block): seq<Block> {
    if blocks == [] then []
    else Subtract(blocks[..|blocks| - 1], cut) + SubtractOne(blocks[|blocks| - 1], cut)
  }

  method SubtractRange(blocks: seq<Block>, cut: Block) returns (left: seq<Block>)
    ensures left == Subtract(blocks, cut)
  {
    left := [];
    var i := 0;
    while i < |blocks|
      invariant 0 <= i <= |blocks|
      invariant left == Subtract(blocks[..i], cut)
    {
      var block := blocks[i];
      assert blocks[..i + 1][..i] == blocks[..i];
      if cut.start >= block.end || cut.end <= block.start {
        left := left + [block];
      } else if cut.start > block.start && cut.end < block.end {
        left := left + [Block(block.start, cut.start)] + [Block(cut.end, block.end)];
      } else if cut.start <= block.start && cut.end < block.end {
        left := left + [Block(cut.end, block.end)];
      } else if cut.start > block.start && cut.end >= block.end {
        left := left + [Block(block.start, cut.start)];
      }
      i := i + 1;
    }
    assert blocks[..i] == blocks;
  }

  lemma CoversConcat(a: seq<Block>, b: seq<Block>, t: int)
    ensures Covers(a + b, t) <==> Covers(a, t) || Covers(b, t)
  {
    if Covers(a, t) {
      var k :| 0 <= k < |a| && Within(a[k], t);
      assert Within((a + b)[k], t);
    }
    if Covers(b, t) {
      var k :| 0 <= k < |b| && Within(b[k], t);
      assert Within((a + b)[|a| + k], t);
    }
  }

  lemma SubtractOneCovers(block: Block, cut: Block, t: int)
    ensures Covers(SubtractOne(block, cut), t) <==> Within(block, t) && !Within(cut, t)
  {
    var left := SubtractOne(block, cut);
    if Within(block, t) && !Within(cut, t) {
      assert Within(left[0], t) || Within(left[|left| - 1], t);
    }
  }

  /** Subtraction covers exactly the instants it was given minus the cut, for any blocks and any cut,
      inverted ones included. */
  lemma {:induction false} SubtractCovers(blocks: seq<Block>, cut: Block, t: int)
    ensures Covers(Subtract(blocks, cut), t) <==> Covers(blocks, t) && !Within(cut, t)
  {
    if blocks != [] {
      var n := |blocks| - 1;
      SubtractCovers(blocks[..n], cut, t);
      SubtractOneCovers(blocks[n], cut, t);
      CoversConcat(Subtract(blocks[..n], cut), SubtractOne(blocks[n], cut), t);
      CoversConcat(blocks[..n], [blocks[n]], t);
      assert Covers([blocks[n]], t) <==> Within(blocks[n], t) by { assert [blocks[n]][0] == blocks[n]; }
      assert blocks == blocks[..n] + [blocks[n]];
    }
  }

  predicate Inside(piece: Block, blocks: seq<Block>) {
    exists j :: 0 <= j < |blocks| && blocks[j].start <= piece.start && piece.end <= blocks[j].end
  }

  /** Every piece is nonempty and lies inside a block it came from. */
  lemma {:induction false} PiecesInside(blocks: seq<Block>, cut: Block)
    requires forall k :: 0 <= k < |blocks| ==> blocks[k].start < blocks[k].end
    requires cut.start <= cut.end || forall k :: 0 <= k < |blocks| ==> Misses(blocks[k], cut)
    ensures forall k :: 0 <= k < |Subtract(blocks, cut)| ==>
              Subtract(blocks, cut)[k].start < Subtract(blocks, cut)[k].end && Inside(Subtract(blocks, cut)[k], blocks)
  {
    if blocks != [] {
      var n := |blocks| - 1;
      PiecesInside(blocks[..n], cut);
      var early := Subtract(blocks[..n], cut);
      forall k | 0 <= k < |Subtract(blocks, cut)|
        ensures Subtract(blocks, cut)[k].start < Subtract(blocks, cut)[k].end
        ensures Inside(Subtract(blocks, cut)[k], blocks)
      {
        var piece := Subtract(blocks, cut)[k];
        if k < |early| {
          assert piece == early[k];
          var j :| 0 <= j < n && blocks[..n][j].start <= piece.start && piece.end <= blocks[..n][j].end;
          assert blocks[j].start <= piece.start && piece.end <= blocks[j].end;
        } else {
          assert blocks[n].start <= piece.start && piece.end <= blocks[n].end;
        }
      }
    }
  }

  lemma InsideEarlier(piece: Block, blocks: seq<Block>, n: nat)
    requires n < |blocks| && Ordered(blocks) && Inside(piece, blocks[..n])
    ensures piece.end <= blocks[n].start
  {
    var j :| 0 <= j < n && blocks[..n][j].start <= piece.start && piece.end <= blocks[..n][j].end;
    assert blocks[j].end <= blocks[n].start;
  }

  lemma OrderedJoin(early: seq<Block>, late: seq<Block>, border: int)
    requires Ordered(early) && Ordered(late)
    requires forall i :: 0 <= i < |early| ==> early[i].end <= border
    requires forall j :: 0 <= j < |late| ==> border <= late[j].start
    ensures Ordered(early + late)
  {}

  lemma {:induction false} SubtractOrdered(blocks: seq<Block>, cut: Block)
    requires Ordered(blocks)
    requires cut.start <= cut.end || forall k :: 0 <= k < |blocks| ==> Misses(blocks[k], cut)
    ensures Ordered(Subtract(blocks, cut))
  {
    if blocks != [] {
      var n := |blocks| - 1;
      SubtractOrdered(blocks[..n], cut);
      PiecesInside(blocks[..n], cut);
      var early, late := Subtract(blocks[..n], cut), SubtractOne(blocks[n], cut);
      forall i | 0 <= i < |early| ensures early[i].end <= blocks[n].start {
        InsideEarlier(early[i], blocks, n);
      }
      OrderedJoin(early, late, blocks[n].start);
    }
  }

  lemma {:induction false} InvertedOverlaps(blocks: seq<Block>, cut: Block, k: nat)
    requires Ordered(blocks) && cut.end < cut.start && k < |blocks| && !Misses(blocks[k], cut)
    ensures !Ordered(Subtract(blocks, cut))
  {
    var n := |blocks| - 1;
    var early, late := Subtract(blocks[..n], cut), SubtractOne(blocks[n], cut);
    if k == n {
      assert late == [Block(blocks[n].start, cut.start), Block(cut.end, blocks[n].end)];
      var all := early + late;
      assert all[|early|] == late[0] && all[|early| + 1] == late[1];
    } else {
      InvertedOverlaps(blocks[..n], cut, k);
      if forall i :: 0 <= i < |early| ==> early[i].start < early[i].end {
        var i, j :| 0 <= i < j < |early| && early[i].end > early[j].start;
        assert (early + late)[i] == early[i] && (early + late)[j] == early[j];
      } else {
        var i :| 0 <= i < |early| && early[i].start >= early[i].end;
        assert (early + late)[i] == early[i];
      }
    }
  }

  /** Sorted disjoint nonempty blocks stay so exactly when the cut is not inverted, or meets no block. */
  lemma SubtractOrderedExact(blocks: seq<Block>, cut: Block)
    requires Ordered(blocks)
    ensures Ordered(Subtract(blocks, cut)) <==>
            cut.start <= cut.end || forall k :: 0 <= k < |blocks| ==> Misses(blocks[k], cut)
  {
    if cut.start <= cut.end || forall k :: 0 <= k < |blocks| ==> Misses(blocks[k], cut) {
      SubtractOrdered(blocks, cut);
    } else {
      var k :| 0 <= k < |blocks| && !Misses(blocks[k], cut);
      InvertedOverlaps(blocks, cut, k);
    }
  }

  predicate Splits(block: Block, cut: Block) {
    block.start < cut.start < block.end && block.start < cut.end < block.end
  }

  /** A cut adds at most one block, and only by splitting one. */
  lemma {:induction false} SubtractGrowsByOne(blocks: seq<Block>, cut: Block)
    requires Ordered(blocks)
    ensures |Subtract(blocks, cut)| <= |blocks| + 1
    ensures (forall k :: 0 <= k < |blocks| ==> !Splits(blocks[k], cut)) ==> |Subtract(blocks, cut)| <= |blocks|
  {
    if blocks != [] {
      var n := |blocks| - 1;
      SubtractGrowsByOne(blocks[..n], cut);
      if Splits(blocks[n], cut) {
        forall k | 0 <= k < n ensures !Splits(blocks[..n][k], cut) {
          assert blocks[k].end <= blocks[n].start;
        }
      }
    }
  }

  /** The subtraction loop over a list of windows. */
  function SubtractAll(blocks: seq<Block>, cuts: seq<Block>): seq<Block> {
    if cuts == [] then blocks else Subtract(SubtractAll(blocks, cuts[..|cuts| - 1]), cuts[|cuts| - 1])
  }

  lemma SubtractAllAppend(blocks: seq<Block>, cuts: seq<Block>, cut: Block)
    ensures SubtractAll(blocks, cuts + [cut]) == Subtract(SubtractAll(blocks, cuts), cut)
  {
    assert (cuts + [cut])[..|cuts|] == cuts;
  }

  lemma {:induction false} SubtractAllCovers(blocks: seq<Block>, cuts: seq<Block>, t: int)
    ensures Covers(SubtractAll(blocks, cuts), t) <==> Covers(blocks, t) && !Covers(cuts, t)
  {
    if cuts != [] {
      var n := |cuts| - 1;
      SubtractAllCovers(blocks, cuts[..n], t);
      SubtractCovers(SubtractAll(blocks, cuts[..n]), cuts[n], t);
      CoversConcat(cuts[..n], [cuts[n]], t);
      assert Covers([cuts[n]], t) <==> Within(cuts[n], t) by { assert [cuts[n]][0] == cuts[n]; }
      assert cuts == cuts[..n] + [cuts[n]];
    }
  }

  /** The order in which the database returns the windows does not change what is free. */
  lemma CutOrderIrrelevant(blocks: seq<Block>, cuts: seq<Block>, cuts': seq<Block>, t: int)
    requires multiset(cuts) == multiset(cuts')
    ensures Covers(SubtractAll(blocks, cuts), t) <==> Covers(SubtractAll(blocks, cuts'), t)
  {
    SubtractAllCovers(blocks, cuts, t);
    SubtractAllCovers(blocks, cuts', t);
    if Covers(cuts, t) {
      var k :| 0 <= k < |cuts| && Within(cuts[k], t);
      assert cuts[k] in multiset(cuts');
      var j :| 0 <= j < |cuts'| && cuts'[j] == cuts[k];
      assert Within(cuts'[j], t);
    }
    if Covers(cuts', t) {
      var k :| 0 <= k < |cuts'| && Within(cuts'[k], t);
      assert cuts'[k] in multiset(cuts);
      var j :| 0 <= j < |cuts| && cuts[j] == cuts'[k];
      assert Within(cuts[j], t);
    }
  }

  /** Windows that are not inverted leave sorted disjoint slots, at most one more per window. */
  lemma {:induction false} SubtractAllOrdered(blocks: seq<Block>, cuts: seq<Block>)
    requires Ordered(blocks) && forall k :: 0 <= k < |cuts| ==> cuts[k].start <= cuts[k].end
    ensures Ordered(SubtractAll(blocks, cuts))
    ensures |SubtractAll(blocks, cuts)| <= |blocks| + |cuts|
  {
    if cuts != [] {
      var n := |cuts| - 1;
      SubtractAllOrdered(blocks, cuts[..n]);
      SubtractOrdered(SubtractAll(blocks, cuts[..n]), cuts[n]);
      SubtractGrowsByOne(SubtractAll(blocks, cuts[..n]), cuts[n]);
    }
  }
}
