/** The hole map: the ordered list of the byte ranges of a file that have not arrived yet. */
module HoleMap {
  /** A range of bytes, both ends included. */
  datatype Gap = Gap(start: int, end: int) {
    function Length(): nat {
      if start <= end then end - start + 1 else 0
    }
  }

  // ----- what the list means

  predicate IsMissing(gaps: seq<Gap>, x: int) {
    gaps != [] && (gaps[0].start <= x <= gaps[0].end || IsMissing(gaps[1..], x))
  }

  /** Sorted, every gap non-empty, and at least one filled byte between neighbours. */
  ghost predicate WellFormed(gaps: seq<Gap>) {
    gaps != [] ==>
      gaps[0].start <= gaps[0].end && WellFormed(gaps[1..]) &&
      (|gaps| > 1 ==> gaps[0].end + 1 < gaps[1].start)
  }

  ghost predicate AllMissing(gaps: seq<Gap>, b: Gap) {
    forall x :: b.start <= x <= b.end ==> IsMissing(gaps, x)
  }

  // ----- one fill, on values

  /** The branches of hole_map_fill_gap, in their order, with the result of the recursive call kept. */
  function Fill(gaps: seq<Gap>, s: int, e: int): seq<Gap> {
    if gaps == [] then gaps
    else
      var g := gaps[0];
      if s < g.start then gaps
      else if s > g.end && |gaps| > 1 then [g] + Fill(gaps[1..], s, e)
      else if s == g.start then
        if e < g.end then [Gap(e + 1, g.end)] + gaps[1..]
        else if e == g.end then gaps[1..]
        else gaps
      else if e < g.end then [Gap(g.start, s - 1), Gap(e + 1, g.end)] + gaps[1..]
      else if e == g.end then [Gap(g.start, s - 1)] + gaps[1..]
      else gaps
  }

  /** The block lies inside one gap. */
  predicate InsideOne(gaps: seq<Gap>, s: int, e: int) {
    gaps != [] && ((gaps[0].start <= s && e <= gaps[0].end) || InsideOne(gaps[1..], s, e))
  }

  lemma {:induction false} NoneBelow(gaps: seq<Gap>, x: int)
    requires WellFormed(gaps) && (gaps != [] ==> x < gaps[0].start)
    ensures !IsMissing(gaps, x)
    ensures forall e :: x <= e ==> !InsideOne(gaps, x, e)
  {
    if gaps == [] {
    } else {
      NoneBelow(gaps[1..], x);
    }
  }

  /** Neighbours are separated, so a wholly missing block cannot straddle two gaps. */
  lemma {:induction false} MissingBlockInsideOne(gaps: seq<Gap>, s: int, e: int)
    requires WellFormed(gaps) && s <= e
    ensures AllMissing(gaps, Gap(s, e)) <==> InsideOne(gaps, s, e)
  {
    if gaps == [] {
      assert !IsMissing(gaps, s);
    } else {
      var g, rest := gaps[0], gaps[1..];
      MissingBlockInsideOne(rest, s, e);
      NoneBelow(rest, g.end + 1);
      if s <= g.end {
        NoneBelow(rest, s);
        assert IsMissing(gaps, s) <==> g.start <= s;
        assert IsMissing(gaps, g.end + 1) <==> false;
      } else {
        assert forall x :: s <= x <= e ==> (IsMissing(gaps, x) <==> IsMissing(rest, x));
      }
    }
  }

  lemma IsMissingCons(g: Gap, rest: seq<Gap>, x: int)
    ensures IsMissing([g] + rest, x) <==> g.start <= x <= g.end || IsMissing(rest, x)
  {
    assert ([g] + rest)[1..] == rest;
  }

  /** The branches that touch the first gap. */
  lemma FillFirst(gaps: seq<Gap>, s: int, e: int)
    requires WellFormed(gaps) && s <= e && gaps != []
    requires gaps[0].start <= s && (s <= gaps[0].end || |gaps| == 1)
    ensures WellFormed(Fill(gaps, s, e))
    ensures Fill(gaps, s, e) != [] ==> gaps[0].start <= Fill(gaps, s, e)[0].start
    ensures InsideOne(gaps, s, e) <==> Fill(gaps, s, e) != gaps
    ensures InsideOne(gaps, s, e) ==>
              forall x :: IsMissing(Fill(gaps, s, e), x) <==> IsMissing(gaps, x) && !(s <= x <= e)
  {
    var g, rest := gaps[0], gaps[1..];
    if s <= g.end {
      NoneBelow(rest, s);
    }
    if s <= g.end && e <= g.end {
      var upper := if e < g.end then [Gap(e + 1, g.end)] + rest else rest;
      assert e < g.end ==> upper[1..] == rest;
      assert WellFormed(upper);
      var filled := if g.start < s then [Gap(g.start, s - 1)] + upper else upper;
      assert g.start < s ==> filled[1..] == upper;
      assert filled == Fill(gaps, s, e);
      forall x
        ensures IsMissing(filled, x) <==> IsMissing(gaps, x) && !(s <= x <= e)
      {
        if x <= g.end { NoneBelow(rest, x); }
        IsMissingCons(Gap(e + 1, g.end), rest, x);
        IsMissingCons(Gap(g.start, s - 1), upper, x);
      }
      assert |gaps| > 0 && gaps == [g] + rest;
    }
  }

  lemma {:induction false} FillInside(gaps: seq<Gap>, s: int, e: int)
    requires WellFormed(gaps) && s <= e
    ensures WellFormed(Fill(gaps, s, e))
    ensures Fill(gaps, s, e) != [] ==> gaps != [] && gaps[0].start <= Fill(gaps, s, e)[0].start
    ensures InsideOne(gaps, s, e) <==> Fill(gaps, s, e) != gaps
    ensures InsideOne(gaps, s, e) ==>
              forall x :: IsMissing(Fill(gaps, s, e), x) <==> IsMissing(gaps, x) && !(s <= x <= e)
  {
    if gaps == [] {
    } else {
      var g, rest := gaps[0], gaps[1..];
      var filled := Fill(gaps, s, e);
      if s < g.start {
        NoneBelow(gaps, s);
      } else if s > g.end && |gaps| > 1 {
        FillInside(rest, s, e);
        assert filled[1..] == Fill(rest, s, e) && gaps == [g] + rest;
      } else {
        FillFirst(gaps, s, e);
      }
    }
  }

  /** One fill: accepted exactly when every byte of the block is missing; then exactly those bytes leave
      the missing set; otherwise nothing changes. */
  lemma FillMeaning(gaps: seq<Gap>, s: int, e: int)
    requires WellFormed(gaps) && s <= e
    ensures WellFormed(Fill(gaps, s, e))
    ensures AllMissing(gaps, Gap(s, e)) <==> Fill(gaps, s, e) != gaps
    ensures AllMissing(gaps, Gap(s, e)) ==>
              forall x :: IsMissing(Fill(gaps, s, e), x) <==> IsMissing(gaps, x) && !(s <= x <= e)
  {
    MissingBlockInsideOne(gaps, s, e);
    FillInside(gaps, s, e);
  }

  // ----- counting bytes

  function TotalLength(gaps: seq<Gap>): nat {
    if gaps == [] then 0 else gaps[0].Length() + TotalLength(gaps[1..])
  }

  ghost function Bytes(start: int, end: int): (bytes: set<int>)
    ensures forall x :: x in bytes <==> start <= x <= end
    ensures |bytes| == Gap(start, end).Length()
    decreases end - start
  {
    if start > end then {} else Bytes(start, end - 1) + {end}
  }

  ghost function MissingBytes(gaps: seq<Gap>): (bytes: set<int>)
    ensures forall x :: x in bytes <==> IsMissing(gaps, x)
  {
    if gaps == [] then {} else Bytes(gaps[0].start, gaps[0].end) + MissingBytes(gaps[1..])
  }

  lemma {:induction false} CountMissing(gaps: seq<Gap>)
    requires WellFormed(gaps)
    ensures |MissingBytes(gaps)| == TotalLength(gaps)
  {
    if gaps == [] {
    } else {
      var g, rest := gaps[0], gaps[1..];
      CountMissing(rest);
      forall x | g.start <= x <= g.end ensures !IsMissing(rest, x) { NoneBelow(rest, x); }
      assert Bytes(g.start, g.end) !! MissingBytes(rest);
    }
  }

  lemma {:induction false} FillLength(gaps: seq<Gap>, s: int, e: int)
    requires WellFormed(gaps) && s <= e && InsideOne(gaps, s, e)
    ensures TotalLength(Fill(gaps, s, e)) + Gap(s, e).Length() == TotalLength(gaps)
  {
    var g, rest := gaps[0], gaps[1..];
    var filled := Fill(gaps, s, e);
    if s < g.start {
      NoneBelow(gaps, s);
      assert false;
    } else if s > g.end && |gaps| > 1 {
      FillLength(rest, s, e);
      assert filled[1..] == Fill(rest, s, e);
    } else {
      NoneBelow(rest, s);
      var upper := if e < g.end then [Gap(e + 1, g.end)] + rest else rest;
      assert e < g.end ==> upper[1..] == rest;
      assert g.start < s ==> filled == [Gap(g.start, s - 1)] + upper && filled[1..] == upper;
      assert g.start == s ==> filled == upper;
    }
  }

  // ----- any sequence of fills

  function After(gaps: seq<Gap>, blocks: seq<Gap>): seq<Gap>
    decreases |blocks|
  {
    if blocks == [] then gaps else After(Fill(gaps, blocks[0].start, blocks[0].end), blocks[1..])
  }

  /** The blocks that changed the map. */
  function Accepted(gaps: seq<Gap>, blocks: seq<Gap>): seq<Gap>
    decreases |blocks|
  {
    if blocks == [] then []
    else
      var next := Fill(gaps, blocks[0].start, blocks[0].end);
      (if next != gaps then [blocks[0]] else []) + Accepted(next, blocks[1..])
  }

  ghost predicate Covers(blocks: seq<Gap>, x: int) {
    exists b <- blocks :: b.start <= x <= b.end
  }

  ghost predicate Disjoint(b: Gap, c: Gap) {
    b.end < c.start || c.end < b.start
  }

  ghost predicate PairwiseDisjoint(blocks: seq<Gap>) {
    forall i, j :: 0 <= i < j < |blocks| ==> Disjoint(blocks[i], blocks[j])
  }

  ghost predicate Forward(blocks: seq<Gap>) {
    forall b <- blocks :: b.start <= b.end
  }

  /** Bytes a later block takes are still missing after the first block, so the two are disjoint. */
  lemma AcceptedLater(gaps: seq<Gap>, b: Gap, c: Gap)
    requires WellFormed(gaps) && b.start <= b.end && c.start <= c.end
    requires AllMissing(gaps, b) && AllMissing(Fill(gaps, b.start, b.end), c)
    ensures AllMissing(gaps, c) && Disjoint(b, c)
  {
    var next := Fill(gaps, b.start, b.end);
    FillMeaning(gaps, b.start, b.end);
    assert IsMissing(next, c.start) && IsMissing(next, c.end);
    assert c.start <= b.start <= c.end ==> IsMissing(next, b.start);
  }

  lemma CoversCons(b: Gap, blocks: seq<Gap>, x: int)
    ensures Covers([b] + blocks, x) <==> b.start <= x <= b.end || Covers(blocks, x)
  {
    assert b in [b] + blocks;
  }

  /** Over any run the accepted blocks are missing at the start and pairwise disjoint. */
  lemma {:induction false} AcceptedDisjoint(gaps: seq<Gap>, blocks: seq<Gap>)
    requires WellFormed(gaps) && Forward(blocks)
    ensures forall b <- Accepted(gaps, blocks) :: b.start <= b.end && AllMissing(gaps, b)
    ensures PairwiseDisjoint(Accepted(gaps, blocks))
    decreases |blocks|
  {
    hide Fill, InsideOne, IsMissing, WellFormed, AllMissing, Disjoint;
    if blocks == [] {
    } else {
      var b := blocks[0];
      var next := Fill(gaps, b.start, b.end);
      var later := Accepted(next, blocks[1..]);
      FillMeaning(gaps, b.start, b.end);
      AcceptedDisjoint(next, blocks[1..]);
      if next != gaps {
        forall c <- later ensures AllMissing(gaps, c) && Disjoint(b, c) { AcceptedLater(gaps, b, c); }
        assert Accepted(gaps, blocks) == [b] + later;
      }
    }
  }

  /** Over any run the map stays well formed, the bytes still missing are those no accepted block covers,
      and lengths add up. */
  lemma {:induction false} RunConserves(gaps: seq<Gap>, blocks: seq<Gap>)
    requires WellFormed(gaps) && Forward(blocks)
    ensures WellFormed(After(gaps, blocks))
    ensures forall x :: IsMissing(After(gaps, blocks), x) <==> IsMissing(gaps, x) && !Covers(Accepted(gaps, blocks), x)
    ensures TotalLength(Accepted(gaps, blocks)) + TotalLength(After(gaps, blocks)) == TotalLength(gaps)
    decreases |blocks|
  {
    hide Fill, InsideOne, IsMissing, WellFormed, AllMissing;
    if blocks == [] {
    } else {
      var b := blocks[0];
      var next := Fill(gaps, b.start, b.end);
      var later, all := Accepted(next, blocks[1..]), Accepted(gaps, blocks);
      FillMeaning(gaps, b.start, b.end);
      RunConserves(next, blocks[1..]);
      if next != gaps {
        MissingBlockInsideOne(gaps, b.start, b.end);
        FillLength(gaps, b.start, b.end);
        assert all == [b] + later && all[1..] == later;
        forall x ensures Covers(all, x) <==> b.start <= x <= b.end || Covers(later, x) { CoversCons(b, later, x); }
      } else {
        assert all == later;
      }
    }
  }

  /** hole_map_new (0, size - 1), as the file cache calls it. */
  function NewFileMap(size: nat): seq<Gap> {
    [Gap(0, size - 1)]
  }

  /** From a new map of at least one byte: the accepted blocks are inside the file and pairwise disjoint, their
      lengths and the missing bytes add up to the size, and the map is NULL exactly when every byte is covered. */
  lemma FileRun(size: nat, blocks: seq<Gap>)
    requires size >= 1 && Forward(blocks)
    ensures var left, accepted := After(NewFileMap(size), blocks), Accepted(NewFileMap(size), blocks);
            && PairwiseDisjoint(accepted)
            && (forall b <- accepted :: 0 <= b.start <= b.end < size)
            && TotalLength(accepted) + |MissingBytes(left)| == size
            && (left == [] <==> forall x :: 0 <= x < size ==> Covers(accepted, x))
  {
    var map0 := NewFileMap(size);
    var left, accepted := After(map0, blocks), Accepted(map0, blocks);
    assert forall x :: IsMissing(map0, x) <==> 0 <= x < size;
    assert TotalLength(map0) == size;
    AcceptedDisjoint(map0, blocks);
    RunConserves(map0, blocks);
    CountMissing(left);
    forall b <- accepted
      ensures 0 <= b.start <= b.end < size
    {
      assert IsMissing(map0, b.start) && IsMissing(map0, b.end);
    }
    if left != [] {
      assert IsMissing(left, left[0].start);
    }
  }

  lemma {:induction false} DisjointBlocksAllAccepted(gaps: seq<Gap>, blocks: seq<Gap>)
    requires WellFormed(gaps) && Forward(blocks) && PairwiseDisjoint(blocks)
    requires forall b <- blocks :: AllMissing(gaps, b)
    ensures Accepted(gaps, blocks) == blocks
    decreases |blocks|
  {
    if blocks == [] {
    } else {
      var b := blocks[0];
      var next := Fill(gaps, b.start, b.end);
      FillMeaning(gaps, b.start, b.end);
      forall i | 0 <= i < |blocks[1..]|
        ensures AllMissing(next, blocks[1..][i])
      {
        var c := blocks[i + 1];
        assert blocks[1..][i] == c && Disjoint(b, c) && AllMissing(gaps, c);
        forall x | c.start <= x <= c.end ensures IsMissing(next, x) { assert IsMissing(gaps, x); }
      }
      DisjointBlocksAllAccepted(next, blocks[1..]);
    }
  }

  /** Any partition of the file, in any arrival order, completes it. */
  lemma PartitionCompletes(size: nat, blocks: seq<Gap>)
    requires size >= 1 && Forward(blocks) && PairwiseDisjoint(blocks)
    requires forall x :: 0 <= x < size <==> Covers(blocks, x)
    ensures After(NewFileMap(size), blocks) == []
  {
    var map0 := NewFileMap(size);
    forall b <- blocks
      ensures AllMissing(map0, b)
    {
      forall x | b.start <= x <= b.end ensures IsMissing(map0, x) { assert Covers(blocks, x); }
    }
    DisjointBlocksAllAccepted(map0, blocks);
    FileRun(size, blocks);
  }

  /** An empty file gets the map (0, -1), which no block ever completes: the code needs a first byte. */
  lemma {:induction false} EmptyFileNeverCompletes(blocks: seq<Gap>)
    requires Forward(blocks)
    ensures After(NewFileMap(0), blocks) == NewFileMap(0) != []
  {
    if blocks != [] {
      assert Fill(NewFileMap(0), blocks[0].start, blocks[0].end) == NewFileMap(0);
      EmptyFileNeverCompletes(blocks[1..]);
    }
  }
}
