/** hole_map.c on the heap: linked nodes whose start, end and next are overwritten in place. */
module HoleList {
  import opened HoleMap

  /** A C int. */
  type CInt = x: int | -0x8000_0000 <= x < 0x8000_0000

  class Hole {
    var start: CInt
    var end: CInt
    var next: Hole?

    /** hole_map_new */
    constructor (s: CInt, e: CInt)
      ensures start == s && end == e && next == null
    {
      start, end, next := s, e, null;
    }
  }

  /** The nodes reached from head, in order. */
  ghost predicate Chain(head: Hole?, nodes: seq<Hole>)
    reads nodes
  {
    if nodes == [] then head == null
    else head == nodes[0] && head !in nodes[1..] && Chain(head.next, nodes[1..])
  }

  ghost function Gaps(nodes: seq<Hole>): (gaps: seq<Gap>)
    reads nodes
    ensures |gaps| == |nodes|
  {
    if nodes == [] then [] else [Gap(nodes[0].start, nodes[0].end)] + Gaps(nodes[1..])
  }

  /** Nodes still linked are old or new; the old ones that are no longer linked are the freed ones. */
  twostate predicate Accounted(nodes: seq<Hole>, new after: seq<Hole>, new freed: set<Hole>) {
    && (forall n <- after :: n in nodes || fresh(n))
    && (forall n <- nodes :: n in after <==> n !in freed)
    && (forall n <- freed :: n in nodes)
  }

  lemma GapsCons(hole: Hole, rest: seq<Hole>)
    ensures Gaps([hole] + rest) == [Gap(hole.start, hole.end)] + Gaps(rest)
  {
    assert ([hole] + rest)[1..] == rest;
  }

  lemma ChainCons(hole: Hole, rest: seq<Hole>)
    requires Chain(hole.next, rest) && hole !in rest
    ensures Chain(hole, [hole] + rest)
  {
    assert ([hole] + rest)[1..] == rest;
  }

  /** The block lies inside the hole: the hole ends before it, and a new hole starts after it. */
  method Split(hole: Hole, s: CInt, e: CInt, ghost rest: seq<Hole>) returns (ghost inserted: Hole)
    requires Chain(hole.next, rest) && hole !in rest && hole.start < s && e < hole.end
    modifies hole
    ensures fresh(inserted) && Chain(hole, [hole] + ([inserted] + rest))
    ensures Gaps([hole] + ([inserted] + rest)) ==
            [Gap(old(hole.start), s - 1)] + ([Gap(e + 1, old(hole.end))] + old(Gaps(rest)))
  {
    hide Chain, Gaps;
    var node := new Hole(e + 1, hole.end);
    hole.end := s - 1;
    node.next := hole.next;
    ChainCons(node, rest);
    hole.next := node;
    ChainCons(hole, [node] + rest);
    GapsCons(node, rest);
    GapsCons(hole, [node] + rest);
    inserted := node;
  }

  /** The branches of hole_map_fill_gap that treat the first hole. */
  method FillHere(hole: Hole, s: CInt, e: CInt, ghost nodes: seq<Hole>)
    returns (r: Hole?, ghost after: seq<Hole>, ghost freed: set<Hole>)
    requires Chain(hole, nodes)
    requires s >= hole.start && (s <= hole.end || hole.next == null)
    modifies hole
    ensures Chain(r, after) && Accounted(nodes, after, freed)
    ensures Gaps(after) == Fill(old(Gaps(nodes)), s, e)
    ensures if s == old(hole.start) && e == old(hole.end)
            then r == hole.next && freed == {hole} && unchanged(hole)
            else r == hole && freed == {}
  {
    r, after, freed := hole, nodes, {};
    ghost var rest := nodes[1..];
    ghost var restGaps := Gaps(rest);
    assert Gaps(nodes)[1..] == restGaps && nodes == [hole] + rest;
    if s == hole.start {
      if e < hole.end {
        hole.start := e + 1;
      } else if e == hole.end {
        r, after, freed := hole.next, rest, {hole};
      }
    } else if e < hole.end {
      ghost var inserted := Split(hole, s, e, rest);
      after := [hole] + ([inserted] + rest);
    } else if e == hole.end {
      hole.end := s - 1;
    }
    assert Gaps(rest) == restGaps;
  }

  /** hole_map_fill_gap with the recursive result stored in map->next, as intended. */
  method FillGap(hole: Hole?, s: CInt, e: CInt, ghost nodes: seq<Hole>)
    returns (r: Hole?, ghost after: seq<Hole>, ghost freed: set<Hole>)
    requires Chain(hole, nodes)
    modifies nodes
    ensures Chain(r, after) && Accounted(nodes, after, freed)
    ensures Gaps(after) == Fill(old(Gaps(nodes)), s, e)
    decreases |nodes|
  {
    r, after, freed := hole, nodes, {};
    if hole == null || s < hole.start {
      return;
    }
    ghost var rest := nodes[1..];
    assert Gaps(nodes)[1..] == Gaps(rest);
    if s > hole.end && hole.next != null {
      ghost var tail;
      hole.next, tail, freed := FillGap(hole.next, s, e, rest);
      after := [hole] + tail;
      assert after[1..] == tail;
    } else {
      r, after, freed := FillHere(hole, s, e, nodes);
    }
  }

  // ----- hole_map_fill_gap as written: line 42 drops the recursive result

  predicate FreesFirst(gaps: seq<Gap>, s: int, e: int) {
    gaps != [] && gaps[0] == Gap(s, e)
  }

  /** The walk goes past the first hole and frees a later one. */
  predicate FreesLater(gaps: seq<Gap>, s: int, e: int) {
    |gaps| > 1 && gaps[0].start <= s && gaps[0].end < s &&
    (FreesFirst(gaps[1..], s, e) || FreesLater(gaps[1..], s, e))
  }

  /** On a well-formed map: a hole after the first is filled exactly. */
  lemma {:induction false} FreesLaterMeaning(gaps: seq<Gap>, s: int, e: int)
    requires WellFormed(gaps) && s <= e
    ensures FreesLater(gaps, s, e) <==> exists i :: 1 <= i < |gaps| && gaps[i] == Gap(s, e)
  {
    if |gaps| > 1 {
      var g, rest := gaps[0], gaps[1..];
      FreesLaterMeaning(rest, s, e);
      if FreesLater(rest, s, e) {
        var i :| 1 <= i < |rest| && rest[i] == Gap(s, e);
        assert gaps[i + 1] == Gap(s, e);
      }
      if i :| 1 <= i < |gaps| && gaps[i] == Gap(s, e) {
        assert rest[i - 1] == Gap(s, e);
        Ascending(gaps, i);
      }
    }
  }

  /** Bytes 5 to 9 have arrived, now 10 to 14 do: the second hole is freed and stays linked. */
  lemma FreesLaterExample()
    ensures var gaps := After(NewFileMap(15), [Gap(5, 9)]);
            WellFormed(gaps) && FreesLater(gaps, 10, 14) && Fill(gaps, 10, 14) == [Gap(0, 4)]
  {
    assert After(NewFileMap(15), [Gap(5, 9)]) == [Gap(0, 4), Gap(10, 14)];
  }

  lemma {:induction false} Ascending(gaps: seq<Gap>, i: nat)
    requires WellFormed(gaps) && 1 <= i < |gaps|
    ensures gaps[0].end < gaps[i].start
  {
    if i > 1 {
      Ascending(gaps[1..], i - 1);
    }
  }

  /** As written, the list that stays linked is the intended one unless a hole after the first is freed; then
      nothing is unlinked or changed, and the freed node is still in the list. */
  method FillGapAsWritten(hole: Hole?, s: CInt, e: CInt, ghost nodes: seq<Hole>)
    returns (r: Hole?, ghost after: seq<Hole>, ghost freed: set<Hole>)
    requires Chain(hole, nodes) && s <= e
    modifies nodes
    ensures Chain(r, after)
    ensures FreesLater(old(Gaps(nodes)), s, e) <==> exists n <- freed :: n in after
    ensures if FreesLater(old(Gaps(nodes)), s, e)
            then after == nodes && Gaps(after) == old(Gaps(nodes))
            else Accounted(nodes, after, freed) && Gaps(after) == Fill(old(Gaps(nodes)), s, e)
    ensures if FreesFirst(old(Gaps(nodes)), s, e)
            then r == old(hole.next) && freed == {hole} && Chain(hole, nodes) && Gaps(nodes) == old(Gaps(nodes))
            else r == hole
    decreases |nodes|
  {
    r, after, freed := hole, nodes, {};
    if hole == null || s < hole.start {
      return;
    }
    ghost var rest := nodes[1..];
    assert Gaps(nodes)[1..] == Gaps(rest);
    if s > hole.end && hole.next != null {
      ghost var firstFreed := FreesFirst(Gaps(rest), s, e);
      ghost var tail;
      var dropped;
      dropped, tail, freed := FillGapAsWritten(hole.next, s, e, rest);
      tail := if firstFreed then rest else tail;
      after := [hole] + tail;
      assert after[1..] == tail;
    } else {
      r, after, freed := FillHere(hole, s, e, nodes);
    }
  }

  /** hole_map_free: every node is freed once, the last one first. */
  method Free(hole: Hole?, ghost nodes: seq<Hole>) returns (ghost freed: seq<Hole>)
    requires Chain(hole, nodes)
    ensures |freed| == |nodes| && forall i :: 0 <= i < |nodes| ==> freed[i] == nodes[|nodes| - 1 - i]
    decreases |nodes|
  {
    freed := [];
    if hole == null {
      return;
    }
    if hole.next != null {
      freed := Free(hole.next, nodes[1..]);
    }
    freed := freed + [hole];
  }

  /** A file of the given size whose blocks arrive one after the other: the list goes through the maps on values. */
  method FillAll(size: nat, blocks: seq<Gap>) returns (head: Hole?, ghost nodes: seq<Hole>)
    requires size < 0x8000_0000
    requires forall b <- blocks :: -0x8000_0000 <= b.start < 0x8000_0000 && -0x8000_0000 <= b.end < 0x8000_0000
    ensures Chain(head, nodes) && Gaps(nodes) == After(NewFileMap(size), blocks)
  {
    head := new Hole(0, size - 1);
    nodes := [head];
    ghost var none: seq<Hole> := [];
    GapsCons(head, none);
    assert Gaps(none) == [] && [head] + none == nodes && Chain(head, nodes);
    assert Gaps(nodes) == NewFileMap(size) && blocks[0..] == blocks;
    for k := 0 to |blocks|
      invariant Chain(head, nodes) && fresh(set n | n in nodes)
      invariant After(Gaps(nodes), blocks[k..]) == After(NewFileMap(size), blocks)
    {
      var b := blocks[k];
      assert b in blocks && blocks[k..][1..] == blocks[k + 1..];
      ghost var freed;
      head, nodes, freed := FillGap(head, b.start, b.end, nodes);
    }
    assert blocks[|blocks|..] == [];
  }

  /** With the result of the recursive call stored, any partition of a file of at least one byte, in any arrival order,
      leaves NULL. */
  method PartitionLeavesNull(size: nat, blocks: seq<Gap>) returns (head: Hole?)
    requires 1 <= size < 0x8000_0000 && Forward(blocks) && PairwiseDisjoint(blocks)
    requires forall x :: 0 <= x < size <==> Covers(blocks, x)
    ensures head == null
  {
    forall b | b in blocks
      ensures 0 <= b.start && b.end < size
    {
      assert Covers(blocks, b.start) && Covers(blocks, b.end);
    }
    ghost var nodes;
    head, nodes := FillAll(size, blocks);
    PartitionCompletes(size, blocks);
  }
}
