// Lists whose nodes are interned in a pool (RSList.c).
module InternedList {
  import opened Options

  // struct __RSNode; the node after it is given by its number in the pool
  datatype Node<V> = Node(value: V, next: Option<nat>)

  // The values from a node on.  A node is made after the one that follows it.
  ghost predicate Ordered<V>(nodes: seq<Node<V>>) {
    forall i :: 0 <= i < |nodes| && nodes[i].next.Some? ==> nodes[i].next.value < i
  }

  predicate Points<V>(nodes: seq<Node<V>>, head: Option<nat>) {
    head.Some? ==> head.value < |nodes|
  }

  ghost function Content<V>(nodes: seq<Node<V>>, head: Option<nat>): seq<V>
    requires Ordered(nodes) && Points(nodes, head)
    decreases if head.Some? then head.value + 1 else 0
  {
    if head.None? then [] else [nodes[head.value].value] + Content(nodes, nodes[head.value].next)
  }

  // Making a node changes no list.
  lemma {:induction false} ContentStays<V>(nodes: seq<Node<V>>, node: Node<V>, head: Option<nat>)
    requires Ordered(nodes) && Ordered(nodes + [node]) && Points(nodes, head)
    ensures Content(nodes + [node], head) == Content(nodes, head)
    decreases if head.Some? then head.value + 1 else 0
  {
    if head.Some? {
      assert (nodes + [node])[head.value] == nodes[head.value];
      ContentStays(nodes, node, nodes[head.value].next);
    }
  }

  ghost predicate Interned<V>(nodes: seq<Node<V>>) {
    forall i, j :: 0 <= i < j < |nodes| ==> nodes[i] != nodes[j]
  }

  // Lists are equal exactly if they are the same node.
  lemma {:induction false} SameContentSameNode<V>(nodes: seq<Node<V>>, a: Option<nat>, b: Option<nat>)
    requires Ordered(nodes) && Interned(nodes) && Points(nodes, a) && Points(nodes, b)
    ensures Content(nodes, a) == Content(nodes, b) <==> a == b
    decreases if a.Some? then a.value + 1 else 0
  {
    if a.Some? && b.Some? {
      var x, y := nodes[a.value], nodes[b.value];
      if Content(nodes, a) == Content(nodes, b) {
        assert Content(nodes, a)[1..] == Content(nodes, x.next) && Content(nodes, b)[1..] == Content(nodes, y.next);
        assert Content(nodes, a)[0] == x.value && Content(nodes, b)[0] == y.value;
        SameContentSameNode(nodes, x.next, y.next);
      }
    }
  }

  // __RSNodePool
  class Pool<V(==)> {
    var nodes: seq<Node<V>>
    var index: map<Node<V>, nat>

    ghost predicate Valid()
      reads this
    {
      && Ordered(nodes) && Interned(nodes)
      && (forall i :: 0 <= i < |nodes| ==> nodes[i] in index && index[nodes[i]] == i)
      && (forall x :: x in index ==> index[x] < |nodes| && nodes[index[x]] == x)
    }

    constructor ()
      ensures Valid() && nodes == []
    {
      nodes, index := [], map[];
    }

    // __RSNodePoolGetNode.  Whatever list was there before stays what it was.
    method GetNode(value: V, next: Option<nat>) returns (n: nat)
      requires Valid() && Points(nodes, next)
      modifies this
      ensures Valid() && n < |nodes| && nodes[n] == Node(value, next)
      ensures old(nodes) <= nodes
      ensures Content(nodes, Some(n)) == [value] + old(Content(nodes, next))
      ensures forall h: nat :: h < |old(nodes)| ==> Content(nodes, Some(h)) == Content(old(nodes), Some(h))
    {
      var node := Node(value, next);
      if node in index {
        n := index[node];
      } else {
        n := |nodes|;
        forall h | Points(nodes, h)
          ensures Ordered(nodes + [node]) && Content(nodes + [node], h) == Content(nodes, h)
        {
          ContentStays(nodes, node, h);
        }
        nodes := nodes + [node];
        index := index[node := n];
      }
    }
  }

  // struct __RSList
  class List<V(==)> {
    const pool: Pool<V>
    var count: nat
    var head: Option<nat>

    ghost predicate Valid()
      reads this, pool
    {
      pool.Valid() && Points(pool.nodes, head) && count == |Values()|
    }

    ghost function Values(): seq<V>
      requires pool.Valid() && Points(pool.nodes, head)
      reads this, pool
    {
      Content(pool.nodes, head)
    }

    // __RSListCreateEmpty
    constructor (pool: Pool<V>)
      requires pool.Valid()
      ensures Valid() && this.pool == pool && Values() == []
    {
      this.pool, count, head := pool, 0, None;
    }

    // __RSNodeConjoin, in place
    method Conjoin(value: V)
      requires Valid()
      modifies this, pool
      ensures Valid() && Values() == [value] + old(Values())
      ensures old(pool.nodes) <= pool.nodes
      ensures forall h: nat :: h < |old(pool.nodes)| ==>
                Content(pool.nodes, Some(h)) == Content(old(pool.nodes), Some(h))
    {
      var n := pool.GetNode(value, head);
      count := count + 1;
      head := Some(n);
    }

    // Two lists are equal exactly if their heads are the same node.
    lemma EqualListsShareTheirHead(other: List<V>)
      requires Valid() && other.Valid() && pool == other.pool
      ensures Values() == other.Values() <==> head == other.head
    {
      SameContentSameNode(pool.nodes, head, other.head);
    }

    // RSListCreateWithArray
    static method CreateWithArray(pool: Pool<V>, values: seq<V>) returns (list: List<V>)
      requires pool.Valid()
      modifies pool
      ensures fresh(list) && list.Valid() && list.pool == pool && list.Values() == values
      ensures old(pool.nodes) <= pool.nodes
      ensures forall h: nat :: h < |old(pool.nodes)| ==>
                Content(pool.nodes, Some(h)) == Content(old(pool.nodes), Some(h))
    {
      list := new List<V>(pool);
      var idx := |values|;
      while idx > 0
        invariant 0 <= idx <= |values| && fresh(list) && list.pool == pool
        invariant list.Valid() && list.Values() == values[idx..]
        invariant old(pool.nodes) <= pool.nodes
        invariant forall h: nat :: h < |old(pool.nodes)| ==>
                    Content(pool.nodes, Some(h)) == Content(old(pool.nodes), Some(h))
      {
        idx := idx - 1;
        list.Conjoin(values[idx]);
      }
    }

    // RSListCreateArray
    method CreateArray() returns (values: seq<V>)
      requires Valid()
      ensures values == Values()
    {
      values := [];
      var node, idx := head, 0;
      while idx < count
        invariant idx <= count && Points(pool.nodes, node)
        invariant values == Values()[..idx] && Content(pool.nodes, node) == Values()[idx..]
      {
        var n := pool.nodes[node.value];
        values := values + [n.value];
        assert Content(pool.nodes, n.next) == Values()[idx..][1..];
        node := n.next;
        idx := idx + 1;
      }
    }

    // RSListCreateDrop
    method CreateDrop(n: nat) returns (list: Option<List<V>>)
      requires Valid()
      ensures list.None? <==> count < n
      ensures list.Some? ==>
                && fresh(list.value) && list.value.pool == pool && list.value.Valid()
                && list.value.Values() == Values()[n..]
    {
      if count < n {
        return None;
      }
      var rst := new List<V>(pool);
      if count > n {
        rst.count := count - n;
        rst.head := head;
        var left := n;
        while left > 0
          invariant 0 <= left <= n && rst.count == count - n && Points(pool.nodes, rst.head)
          invariant Content(pool.nodes, rst.head) == Values()[n - left..]
        {
          assert Content(pool.nodes, pool.nodes[rst.head.value].next) == Values()[n - left..][1..];
          rst.head := pool.nodes[rst.head.value].next;
          left := left - 1;
        }
      }
      list := Some(rst);
    }

    // RSNext: nothing for a list of fewer than two values
    method Next() returns (list: Option<List<V>>)
      requires Valid()
      ensures list.None? <==> count < 2
      ensures list.Some? ==>
                && fresh(list.value) && list.value.pool == pool && list.value.Valid()
                && list.value.Values() == Values()[1..]
    {
      if count < 2 || head.None? {
        return None;
      }
      var next := new List<V>(pool);
      next.head := pool.nodes[head.value].next;
      next.count := if next.head.Some? then count - 1 else 0;
      list := Some(next);
    }
  }
}
