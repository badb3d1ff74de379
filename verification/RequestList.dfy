/** The doubly linked lists of a client's requests, and of the clients, on the heap. */
module RequestList {
  import opened Sequences

  /** The links of a struct client_request or of a struct client. */
  class Node {
    var prev: Node?
    var next: Node?

    /** client_request_new and client_new */
    constructor ()
      ensures prev == null && next == null
    {
      prev, next := null, null;
    }
  }

  function At(nodes: seq<Node>, i: int): Node?
    requires -1 <= i <= |nodes|
  {
    if 0 <= i < |nodes| then nodes[i] else null
  }

  ghost predicate Forward(head: Node?, nodes: seq<Node>)
    reads nodes
  {
    && Distinct(nodes) && head == At(nodes, 0)
    && forall i {:trigger nodes[i].next} :: 0 <= i < |nodes| ==> nodes[i].next == At(nodes, i + 1)
  }

  /** Every prev mirrors a next, and the head has no prev. */
  ghost predicate Mirrored(nodes: seq<Node>)
    reads nodes
  {
    forall i {:trigger nodes[i].prev} :: 0 <= i < |nodes| ==> nodes[i].prev == At(nodes, i - 1)
  }

  ghost predicate Listed(head: Node?, nodes: seq<Node>)
    reads nodes
  {
    Forward(head, nodes) && Mirrored(nodes)
  }

  /** The nodes around position m have been linked to each other, in both directions. */
  lemma Relinked(head: Node?, nodes: seq<Node>, m: nat)
    requires m < |nodes| && Distinct(nodes)
    requires head == if m == 0 then At(nodes, 1) else nodes[0]
    requires m > 0 ==> nodes[m - 1].next == At(nodes, m + 1)
    requires m + 1 < |nodes| ==> nodes[m + 1].prev == At(nodes, m - 1)
    requires forall p {:trigger nodes[p].next} :: 0 <= p < |nodes| && p != m && p + 1 != m ==>
               nodes[p].next == At(nodes, p + 1)
    requires forall p {:trigger nodes[p].prev} :: 0 <= p < |nodes| && p != m && p - 1 != m ==>
               nodes[p].prev == At(nodes, p - 1)
    ensures Listed(head, Without(nodes, m))
  {
    LinkedForward(head, nodes, m);
    LinkedBack(nodes, m);
  }

  lemma LinkedForward(head: Node?, nodes: seq<Node>, m: nat)
    requires m < |nodes| && Distinct(nodes)
    requires head == if m == 0 then At(nodes, 1) else nodes[0]
    requires m > 0 ==> nodes[m - 1].next == At(nodes, m + 1)
    requires forall p {:trigger nodes[p].next} :: 0 <= p < |nodes| && p != m && p + 1 != m ==>
               nodes[p].next == At(nodes, p + 1)
    ensures Forward(head, Without(nodes, m))
  {
    hide Without;
    var after := Without(nodes, m);
    WithoutAt(nodes, m);
    forall i | 0 <= i < |after|
      ensures after[i].next == At(after, i + 1)
    {
      var p := if i < m then i else i + 1;
      assert p + 1 != m ==> nodes[p].next == At(nodes, p + 1);
    }
  }

  lemma LinkedBack(nodes: seq<Node>, m: nat)
    requires m < |nodes|
    requires m + 1 < |nodes| ==> nodes[m + 1].prev == At(nodes, m - 1)
    requires forall p {:trigger nodes[p].prev} :: 0 <= p < |nodes| && p != m && p - 1 != m ==>
               nodes[p].prev == At(nodes, p - 1)
    ensures Mirrored(Without(nodes, m))
  {
    hide Without;
    var after := Without(nodes, m);
    WithoutAt(nodes, m);
    forall i | 0 <= i < |after|
      ensures after[i].prev == At(after, i - 1)
    {
      var p := if i < m then i else i + 1;
      assert p - 1 != m ==> nodes[p].prev == At(nodes, p - 1);
    }
  }

  lemma BackBroken(nodes: seq<Node>, m: nat)
    requires 0 < m && m + 1 < |nodes| && Distinct(nodes) && nodes[m + 1].prev == nodes[m]
    ensures !Mirrored(Without(nodes, m))
  {
    var after := Without(nodes, m);
    WithoutAt(nodes, m);
    assert after[m] == nodes[m + 1] && At(after, m - 1) == nodes[m - 1];
    assert after[m].prev != At(after, m - 1);
  }

  /** r has been linked in front of the first node. */
  lemma Prepended(r: Node, nodes: seq<Node>)
    requires Distinct(nodes) && r !in nodes && r.prev == null && r.next == At(nodes, 0)
    requires nodes != [] ==> nodes[0].prev == r
    requires forall p {:trigger nodes[p].next} :: 0 <= p < |nodes| ==> nodes[p].next == At(nodes, p + 1)
    requires forall p {:trigger nodes[p].prev} :: 1 <= p < |nodes| ==> nodes[p].prev == At(nodes, p - 1)
    ensures Listed(r, [r] + nodes)
  {
    var after := [r] + nodes;
    forall i | 0 <= i < |after|
      ensures after[i].next == At(after, i + 1) && after[i].prev == At(after, i - 1)
    {
      if i > 0 {
        assert after[i] == nodes[i - 1];
        assert nodes[i - 1].next == At(nodes, i) == At(after, i + 1);
        assert i > 1 ==> nodes[i - 1].prev == At(nodes, i - 2) == At(after, i - 1);
      }
    }
  }

  /** client_request_add */
  method Add(l: Node?, r: Node?, ghost nodes: seq<Node>) returns (head: Node?, ghost after: seq<Node>)
    requires Listed(l, nodes)
    requires r != null ==> r !in nodes && (l == null ==> r.prev == null && r.next == null)
    modifies nodes, r
    ensures after == if r == null then nodes else [r] + nodes
    ensures Listed(head, after)
  {
    after := if r == null then nodes else [r] + nodes;
    if l == null {
      if r != null { Prepended(r, nodes); }
      return r, after;
    }
    if r == null {
      return l, after;
    }
    r.prev := null;
    r.next := l;
    l.prev := r;
    assert nodes[0].prev == r;
    Prepended(r, nodes);
    return r, after;
  }

  /** client_request_remove; r must be in the list, as the search loop expects, unless the list is empty. */
  method Remove(l: Node?, r: Node, ghost nodes: seq<Node>) returns (head: Node?, ghost m: nat)
    requires Listed(l, nodes) && (l != null ==> r in nodes)
    modifies nodes
    ensures l == null ==> head == null
    ensures l != null ==> m < |nodes| && nodes[m] == r && Listed(head, Without(nodes, m))
    ensures r.prev == old(r.prev) && r.next == old(r.next)
  {
    hide Without;
    m := 0;
    if l == null {
      return null, 0;
    }
    var tmp := l;
    while tmp != r
      invariant m < |nodes| && tmp == nodes[m] && r in nodes[m..]
      decreases |nodes| - m
    {
      assert nodes[m].next == At(nodes, m + 1);
      tmp := tmp.next;
      m := m + 1;
    }
    assert nodes[m].next == At(nodes, m + 1) && nodes[m].prev == At(nodes, m - 1);
    if tmp.prev == null {
      if tmp.next != null {
        tmp.next.prev := null;
      }
      head := tmp.next;
    } else {
      tmp.prev.next := tmp.next;
      if tmp.next != null {
        tmp.next.prev := tmp.prev;
      }
      head := l;
    }
    Relinked(head, nodes, m);
  }

  /** client_request_count */
  method Count(r: Node?, ghost nodes: seq<Node>) returns (sum: nat)
    requires Listed(r, nodes)
    ensures sum == |nodes|
  {
    var tmp := r;
    sum := 0;
    while tmp != null
      invariant sum <= |nodes| && tmp == At(nodes, sum)
      decreases |nodes| - sum
    {
      assert nodes[sum].next == At(nodes, sum + 1);
      tmp, sum := tmp.next, sum + 1;
    }
  }

  // ----- any sequence of operations

  datatype Op = AddNew | RemoveAt(m: nat)

  function Next(numbers: seq<nat>, op: Op, n: nat): seq<nat> {
    match op
    case AddNew => [n] + numbers
    case RemoveAt(m) => if m < |numbers| then numbers[..m] + numbers[m + 1..] else numbers
  }

  /** The list of request numbers, newest first; a request is numbered by the operation that added it. */
  function Replayed(ops: seq<Op>): seq<nat> {
    if ops == [] then [] else Next(Replayed(ops[..|ops| - 1]), ops[|ops| - 1], |ops| - 1)
  }

  /** The nodes are those of the numbered requests, in order. */
  ghost predicate Stands(node: map<nat, Node>, numbers: seq<nat>, nodes: seq<Node>) {
    |numbers| == |nodes| && forall i :: 0 <= i < |nodes| ==> numbers[i] in node && node[numbers[i]] == nodes[i]
  }

  lemma HeadOfList(l: Node?, nodes: seq<Node>)
    requires Listed(l, nodes)
    ensures l == At(nodes, 0) && Distinct(nodes)
  {
  }

  method Nth(l: Node?, m: nat, ghost nodes: seq<Node>) returns (r: Node?)
    requires Listed(l, nodes)
    ensures r == if m < |nodes| then nodes[m] else null
  {
    r := l;
    var k := 0;
    while k < m && r != null
      invariant k <= m && k <= |nodes| && r == At(nodes, k)
      decreases |nodes| - k
    {
      assert nodes[k].next == At(nodes, k + 1);
      r, k := r.next, k + 1;
    }
  }

  lemma ReplayedNext(ops: seq<Op>, n: nat)
    requires n < |ops|
    ensures Replayed(ops[..n + 1]) == Next(Replayed(ops[..n]), ops[n], n)
  {
    assert ops[..n + 1][..n] == ops[..n];
  }

  lemma EmptyList()
    ensures Listed(null, []) && Stands(map[], Replayed([]), [])
  {
  }

  method DoAdd(l: Node?, n: nat, ghost numbers: seq<nat>, ghost nodes: seq<Node>, ghost node: map<nat, Node>)
    returns (head: Node?, ghost after: seq<Node>, ghost node': map<nat, Node>)
    requires Listed(l, nodes) && Stands(node, numbers, nodes) && n !in node
    modifies nodes
    ensures Listed(head, after) && Stands(node', [n] + numbers, after)
    ensures fresh(set x | x in after && x !in nodes) && node'.Keys == node.Keys + {n}
  {
    hide Listed;
    var r := new Node();
    head, after := Add(l, r, nodes);
    node' := node[n := r];
  }

  method DoRemove(l: Node?, m: nat, ghost numbers: seq<nat>, ghost nodes: seq<Node>, ghost node: map<nat, Node>)
    returns (head: Node?, ghost after: seq<Node>)
    requires Listed(l, nodes) && Stands(node, numbers, nodes)
    modifies nodes
    ensures Listed(head, after) && Stands(node, Next(numbers, RemoveAt(m), 0), after)
    ensures forall x <- after :: x in nodes
  {
    hide Listed;
    var r := Nth(l, m, nodes);
    head, after := l, nodes;
    if r != null {
      HeadOfList(l, nodes);
      ghost var at: nat;
      head, at := Remove(l, r, nodes);
      assert at == m;
      after := Without(nodes, m);
      WithoutAt(nodes, m);
    }
  }

  /** After any sequence of additions and removals the list is well formed, holds the right requests in the right order,
      and client_request_count gives its length. */
  method RunOps(ops: seq<Op>) returns (head: Node?, sum: nat, ghost nodes: seq<Node>, ghost node: map<nat, Node>)
    ensures Listed(head, nodes) && Stands(node, Replayed(ops), nodes)
    ensures sum == |Replayed(ops)|
  {
    hide Replayed, Forward, Mirrored, Listed;
    head, nodes, node := null, [], map[];
    EmptyList();
    assert ops[..0] == [];
    for n := 0 to |ops|
      invariant Listed(head, nodes) && fresh(set x | x in nodes)
      invariant Stands(node, Replayed(ops[..n]), nodes) && forall k <- node.Keys :: k < n
    {
      ReplayedNext(ops, n);
      match ops[n] {
        case AddNew => head, nodes, node := DoAdd(head, n, Replayed(ops[..n]), nodes, node);
        case RemoveAt(m) => head, nodes := DoRemove(head, m, Replayed(ops[..n]), nodes, node);
      }
    }
    sum := Count(head, nodes);
    assert ops[..|ops|] == ops;
  }

  /** client_remove as written: removing from the middle leaves the next node's prev on the removed node, so the list
      keeps both directions exactly when the removed node was the first or the last. */
  method ClientRemove(l: Node?, c: Node, ghost nodes: seq<Node>) returns (head: Node?, ghost m: nat)
    requires Listed(l, nodes) && (l != null ==> c in nodes)
    modifies nodes
    ensures l == null ==> head == null
    ensures l != null ==> m < |nodes| && nodes[m] == c && Forward(head, Without(nodes, m))
    ensures l != null ==> (Mirrored(Without(nodes, m)) <==> m == 0 || m + 1 == |nodes|)
    ensures l != null && 0 < m && m + 1 < |nodes| ==> nodes[m + 1].prev == c
  {
    hide Without;
    m := 0;
    if l == null {
      return null, 0;
    }
    var tmp := l;
    while tmp != c
      invariant m < |nodes| && tmp == nodes[m] && c in nodes[m..]
      decreases |nodes| - m
    {
      assert nodes[m].next == At(nodes, m + 1);
      tmp := tmp.next;
      m := m + 1;
    }
    assert nodes[m].next == At(nodes, m + 1) && nodes[m].prev == At(nodes, m - 1);
    if tmp.prev == null && tmp.next == null {
      Relinked(null, nodes, m);
      return null, m;
    }
    if tmp.prev == null {
      tmp.next.prev := null;
      Relinked(tmp.next, nodes, m);
      return tmp.next, m;
    }
    tmp.prev.next := tmp.next;
    head := l;
    LinkedForward(head, nodes, m);
    if tmp.next != null {
      assert nodes[m + 1].prev == At(nodes, m);
      BackBroken(nodes, m);
    } else {
      LinkedBack(nodes, m);
    }
  }

  method ThreeClients() returns (a: Node, b: Node, c: Node)
    ensures a != b && b != c && a != c && Listed(a, [a, b, c])
    ensures fresh(a) && fresh(b) && fresh(c)
  {
    hide Listed;
    c := new Node();
    EmptyList();
    var head: Node?;
    ghost var nodes: seq<Node>;
    head, nodes := Add(null, c, []);
    assert nodes == [c];
    b := new Node();
    head, nodes := Add(head, b, nodes);
    assert nodes == [b, c];
    a := new Node();
    head, nodes := Add(head, a, nodes);
    assert nodes == [a, b, c];
    HeadOfList(head, nodes);
  }

  /** Three clients, and the middle one leaves: the last one still names it as the one before it. */
  method MiddleClientLeaves() returns (a: Node, b: Node, c: Node, head: Node?)
    ensures a != b && b != c && a != c
    ensures Forward(head, [a, c]) && c.prev == b && !Mirrored([a, c])
  {
    hide Listed, Forward, Mirrored;
    a, b, c := ThreeClients();
    ghost var m: nat;
    head, m := ClientRemove(a, b, [a, b, c]);
    assert m == 1 && Without([a, b, c], m) == [a, c];
  }
}
