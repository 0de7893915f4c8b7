/** The register CRDT: a set of immutable nodes, each naming the nodes it was written atop of.

    A node's hash is modelled by the node itself, so hashes are injective and a node can only
    name hashes that existed before its own. A node counts as delivered once all of its history
    has arrived; until then it waits as an orphan and is invisible to `Read`. */
module MerkleRegister {

  datatype Node<V(==)> = Node(value: V, children: set<Node<V>>)

  /** The node and its whole history are present. */
  predicate Delivered<V(==)>(nodes: set<Node<V>>, n: Node<V>)
    decreases n
  {
    n in nodes && forall c | c in n.children :: Delivered(nodes, c)
  }

  /** Some delivered node was written atop of `n`. */
  predicate Superseded<V(==)>(nodes: set<Node<V>>, n: Node<V>)
  {
    exists m | m in nodes :: n in m.children && Delivered(nodes, m)
  }

  /** The current entries: the delivered nodes nothing was written atop of. */
  function Read<V(==)>(nodes: set<Node<V>>): (roots: set<Node<V>>)
  {
    set n | n in nodes && Delivered(nodes, n) && !Superseded(nodes, n)
  }

  /** No node of the set is an orphan. */
  ghost predicate Closed<V(!new)>(nodes: set<Node<V>>)
  {
    forall n | n in nodes :: n.children <= nodes
  }

  /** `n` belongs to the history of `r`. */
  ghost predicate Reaches<V(!new)>(r: Node<V>, n: Node<V>)
    decreases r
  {
    n == r || exists c | c in r.children :: Reaches(c, n)
  }

  /** No node of the set names `n` as a child. */
  ghost predicate Unlisted<V(!new)>(nodes: set<Node<V>>, n: Node<V>)
  {
    forall m | m in nodes :: n !in m.children
  }

  // ---- histories are well founded ----

  ghost function Height<V>(n: Node<V>): nat
    decreases n, 1
  {
    if n.children == {} then 0 else 1 + Tallest(n, n.children)
  }

  ghost function Tallest<V>(n: Node<V>, cs: set<Node<V>>): (h: nat)
    requires cs <= n.children && cs != {}
    ensures forall c | c in cs :: Height(c) <= h
    decreases n, 0, cs
  {
    var c :| c in cs;
    assert c in n.children;
    if cs == {c} then Height(c) else
      assert cs - {c} < cs;
      var rest := Tallest(n, cs - {c});
      if Height(c) > rest then Height(c) else rest
  }

  lemma NotItsOwnChild<V>(n: Node<V>)
    ensures n !in n.children
  {
  }

  lemma ReachesExtends<V(!new)>(r: Node<V>, m: Node<V>, n: Node<V>)
    requires Reaches(r, m) && n in m.children
    ensures Reaches(r, n)
    decreases r
  {
  }

  // ---- what reading shows ----

  lemma {:induction false} DeliveredMonotone<V>(nodes: set<Node<V>>, more: set<Node<V>>, n: Node<V>)
    requires nodes <= more && Delivered(nodes, n)
    ensures Delivered(more, n)
    decreases n
  {
    forall c | c in n.children ensures Delivered(more, c) {
      DeliveredMonotone(nodes, more, c);
    }
  }

  /** Nothing delivered is ever lost from view: it is in the history of some current entry. */
  lemma {:induction false} ReadCoversHistory<V(!new)>(nodes: set<Node<V>>, n: Node<V>) returns (r: Node<V>)
    requires Delivered(nodes, n)
    ensures r in Read(nodes) && Reaches(r, n)
    decreases |set m | m in nodes && Height(m) > Height(n)|
  {
    if !Superseded(nodes, n) {
      return n;
    }
    var m :| m in nodes && n in m.children && Delivered(nodes, m);
    assert Height(n) < Height(m);
    var above := set k | k in nodes && Height(k) > Height(n);
    var aboveM := set k | k in nodes && Height(k) > Height(m);
    assert m in above && m !in aboveM && aboveM <= above;
    assert aboveM < above;
    SmallerSubset(aboveM, above);
    r := ReadCoversHistory(nodes, m);
    ReachesExtends(r, m, n);
  }

  lemma SmallerSubset<T>(a: set<T>, b: set<T>)
    requires a < b
    ensures |a| < |b|
  {
    assert b == a + (b - a);
    assert b - a != {};
    assert |b| == |a| + |b - a|;
  }

  /** A register whose nodes all arrived after their children holds no orphan. */
  lemma {:induction false} ClosedIsDelivered<V(!new)>(nodes: set<Node<V>>, n: Node<V>)
    requires Closed(nodes) && n in nodes
    ensures Delivered(nodes, n)
    decreases n
  {
    forall c | c in n.children ensures Delivered(nodes, c) {
      ClosedIsDelivered(nodes, c);
    }
  }

  // ---- writing a layer of nodes atop delivered ones ----

  /** The hashes named by a set of nodes. */
  function Named<V(==)>(nodes: set<Node<V>>): (named: set<Node<V>>)
  {
    set p, c | p in nodes && c in p.children :: c
  }

  /** `layer` is written atop delivered nodes and nobody has named any of it yet. */
  ghost predicate FreshLayer<V(!new)>(nodes: set<Node<V>>, layer: set<Node<V>>)
  {
    forall p | p in layer ::
      && (forall c | c in p.children :: Delivered(nodes, c))
      && Unlisted(nodes + layer, p)
  }

  lemma {:induction false} LayerKeepsDelivery<V(!new)>(nodes: set<Node<V>>, layer: set<Node<V>>, n: Node<V>)
    requires FreshLayer(nodes, layer) && n in nodes
    ensures Delivered(nodes + layer, n) <==> Delivered(nodes, n)
    decreases n
  {
    if Delivered(nodes, n) {
      DeliveredMonotone(nodes, nodes + layer, n);
    }
    if Delivered(nodes + layer, n) {
      forall c | c in n.children ensures Delivered(nodes, c) {
        assert Delivered(nodes + layer, c);
        assert c !in layer;
        LayerKeepsDelivery(nodes, layer, c);
      }
    }
  }

  /** Writing a layer replaces exactly the entries it names by exactly the nodes of the layer. */
  lemma {:induction false} ReadAfterLayer<V(!new)>(nodes: set<Node<V>>, layer: set<Node<V>>)
    requires FreshLayer(nodes, layer)
    ensures Read(nodes + layer) == Read(nodes) - Named(layer) + layer
  {
    var all := nodes + layer;
    forall p | p in layer ensures p in Read(all) {
      forall c | c in p.children ensures Delivered(all, c) {
        DeliveredMonotone(nodes, all, c);
      }
    }
    forall n | n in nodes ensures Delivered(all, n) <==> Delivered(nodes, n) {
      LayerKeepsDelivery(nodes, layer, n);
    }
    forall n | n in nodes && n !in layer
      ensures Superseded(all, n) <==> Superseded(nodes, n) || n in Named(layer)
    {
      if Superseded(all, n) {
        var m :| m in all && n in m.children && Delivered(all, m);
        assert m in nodes ==> Delivered(nodes, m);
      }
      if n in Named(layer) {
        var m, c :| m in layer && c in m.children && c == n;
        assert m in Read(all);
      }
    }
    assert forall p | p in layer :: p !in Named(layer);
  }

  // ---- writing one node atop current entries ----

  lemma {:induction false} DeliveredWithout<V(!new)>(nodes: set<Node<V>>, n: Node<V>, m: Node<V>)
    requires Delivered(nodes + {n}, m) && m != n && !Superseded(nodes + {n}, n)
    ensures Delivered(nodes, m)
    decreases m
  {
    forall c | c in m.children ensures Delivered(nodes, c) {
      assert c != n;
      DeliveredWithout(nodes, n, c);
    }
  }

  /** Writing a node atop some current entries replaces exactly those entries by the new node
      if and only if nothing delivered names the new node: neither a node that was waiting for it,
      nor, when the same node had been written before, a node that has superseded it since. */
  lemma WriteReplacesIff<V(!new)>(nodes: set<Node<V>>, n: Node<V>)
    requires n.children <= Read(nodes)
    ensures Read(nodes + {n}) == Read(nodes) - n.children + {n} <==> !Superseded(nodes + {n}, n)
  {
    var all := nodes + {n};
    NotItsOwnChild(n);
    forall c | c in n.children ensures Delivered(all, c) {
      DeliveredMonotone(nodes, all, c);
    }
    assert Delivered(all, n);
    if !Superseded(all, n) {
      forall r | r in all && r != n ensures r in Read(all) <==> r in Read(nodes) - n.children {
        if Delivered(all, r) {
          DeliveredWithout(nodes, n, r);
        }
        if Delivered(nodes, r) {
          DeliveredMonotone(nodes, all, r);
          SupersededAfterWrite(nodes, n, r);
        }
      }
    }
  }

  lemma SupersededAfterWrite<V(!new)>(nodes: set<Node<V>>, n: Node<V>, r: Node<V>)
    requires Delivered(nodes + {n}, n) && !Superseded(nodes + {n}, n)
    ensures Superseded(nodes + {n}, r) <==> Superseded(nodes, r) || r in n.children
  {
    var all := nodes + {n};
    if Superseded(nodes, r) {
      var m :| m in nodes && r in m.children && Delivered(nodes, m);
      DeliveredMonotone(nodes, all, m);
    }
    if Superseded(all, r) {
      var m :| m in all && r in m.children && Delivered(all, m);
      if m != n {
        DeliveredWithout(nodes, n, m);
      }
    }
  }

  /** Without orphans, a node that is new to the register always becomes a current entry. */
  lemma NewNodeShows<V(!new)>(nodes: set<Node<V>>, n: Node<V>)
    requires Closed(nodes) && n !in nodes
    ensures !Superseded(nodes + {n}, n)
    ensures n.children <= nodes ==> Closed(nodes + {n})
  {
  }

  /** A node written atop all current entries is always new to the register. */
  lemma JoinIsNew<V(!new)>(nodes: set<Node<V>>, value: V)
    ensures Node(value, Read(nodes)) !in nodes
  {
    var n := Node(value, Read(nodes));
    if n in nodes {
      assert Delivered(nodes, n);
      var r := ReadCoversHistory(nodes, n);
      assert r in n.children;
      assert Superseded(nodes, r);
    }
  }

  /** Writing atop all current entries leaves the new node as the single entry
      if and only if no node that was waiting for exactly this one becomes visible with it. */
  lemma JoinLeavesOneEntry<V(!new)>(nodes: set<Node<V>>, value: V)
    ensures var n := Node(value, Read(nodes));
            Read(nodes + {n}) == {n} <==> !Superseded(nodes + {n}, n)
  {
    var n := Node(value, Read(nodes));
    WriteReplacesIff(nodes, n);
    assert Read(nodes) - n.children + {n} == {n};
  }
}
