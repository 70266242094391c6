/** The first-in first-out queue over linked nodes. */
module LinkedQueue {
  import opened Wrappers

  class Node<T> {
    const data: T
    var next: Node?<T>

    constructor (data: T)
      ensures this.data == data && next == null
    {
      this.data, next := data, null;
    }
  }

  function DataOf<T>(nodes: seq<Node<T>>): seq<T> {
    seq(|nodes|, i requires 0 <= i < |nodes| => nodes[i].data)
  }

  // The i-th node, or null behind the last.
  ghost function At<T>(nodes: seq<Node<T>>, i: nat): Node?<T> {
    if i < |nodes| then nodes[i] else null
  }

  class Queue<T> {
    var head: Node?<T>
    var tail: Node?<T>
    var count: nat
    ghost var nodes: seq<Node<T>>
    // All items ever enqueued, and all items ever dequeued, in order.
    ghost var given: seq<T>
    ghost var taken: seq<T>

    // The nodes from head on, linked in order up to tail, hold what was given and not yet taken.
    ghost predicate Valid()
      reads this, nodes
    {
      given == taken + Contents()
      && count == |nodes|
      && head == (if nodes == [] then null else nodes[0])
      && tail == (if nodes == [] then null else nodes[|nodes| - 1])
      && (forall i, j :: 0 <= i < j < |nodes| ==> nodes[i] != nodes[j])
      && forall i :: 0 <= i < |nodes| ==> nodes[i].next == At(nodes, i + 1)
    }

    ghost function Contents(): seq<T>
      reads this
    {
      DataOf(nodes)
    }

    constructor ()
      ensures Valid() && Contents() == [] && given == [] && taken == []
    {
      head, tail, count, nodes := null, null, 0, [];
      given, taken := [], [];
    }

    function Len(): nat
      requires Valid()
      reads this, nodes
      ensures Len() == |Contents()|
    {
      count
    }

    method Enqueue(item: T)
      requires Valid()
      modifies this, nodes
      ensures Valid()
      ensures Contents() == old(Contents()) + [item]
      ensures given == old(given) + [item] && taken == old(taken)
      ensures |nodes| == |old(nodes)| + 1 && nodes[..|old(nodes)|] == old(nodes) && fresh(nodes[|old(nodes)|])
    {
      var n := new Node(item);
      if tail == null {
        tail := n;
        head := n;
      } else {
        tail.next := n;
        tail := n;
      }
      count := count + 1;
      assert DataOf(nodes + [n]) == DataOf(nodes) + [item];
      nodes := nodes + [n];
      given := given + [item];
    }

    method Dequeue() returns (item: Option<T>)
      requires Valid()
      modifies this
      ensures Valid()
      ensures old(Contents()) == [] ==> item == None && Contents() == []
      ensures old(Contents()) != [] ==> item == Some(old(Contents())[0]) && Contents() == old(Contents())[1..]
      ensures old(nodes) != [] ==> nodes == old(nodes)[1..]
      ensures given == old(given) && taken == old(taken) + (if item.Some? then [item.value] else [])
    {
      if head == null {
        return None;
      }
      var n := head;
      assert nodes[0] == n && n.next == At(nodes, 1);
      assert DataOf(nodes)[1..] == DataOf(nodes[1..]) && DataOf(nodes)[0] == n.data;
      head := n.next;
      if head == null {
        tail := null;
      }
      count := count - 1;
      taken := taken + [n.data];
      nodes := nodes[1..];
      return Some(n.data);
    }
  }

  /** First in, first out: whatever calls a queue has seen, the items it gave out are the first of those it was
      given, in order, and the others are still in it. */
  lemma FirstInFirstOut<T>(q: Queue<T>)
    requires q.Valid()
    ensures |q.taken| <= |q.given|
    ensures q.taken == q.given[..|q.taken|] && q.Contents() == q.given[|q.taken|..]
    ensures q.count == |q.given| - |q.taken|
  {
    assert q.given == q.taken + q.Contents();
  }
}
