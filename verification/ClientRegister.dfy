/** The client's offline register: local writes, the queue of unpublished operations, and pushing it. */
module ClientRegisters {
  import opened MerkleRegister
  import opened Sequences
  import opened Wrappers

  type PublicKey = nat

  const MAX_REG_ENTRY_SIZE: nat := 1024
  const MAX_REG_NUM_ENTRIES: nat := 1024

  datatype Permissions = AnyoneCanWrite | Writers(writers: set<PublicKey>) {
    predicate CanWrite(user: PublicKey) { AnyoneCanWrite? || user in writers }
  }

  datatype WriteError<V(==)> =
    | ContentBranchDetected(branches: set<Node<V>>)
    | AccessDenied(user: PublicKey)
    | EntryTooBig(size: nat)
    | TooManyEntries(count: nat)

  datatype WriteResult<V(==)> = Written(node: Node<V>) | Refused(error: WriteError<V>)

  lemma Regrouped<T>(a: seq<T>, b: seq<T>, c: seq<T>)
    ensures a + b + c == a + (b + c)
  {
  }

  /** Taking the back of the queue moves its oldest operation to the end of what came before. */
  lemma PopOldest<T>(queue: seq<T>, before: seq<T>)
    requires queue != []
    ensures before + [queue[|queue| - 1]] + Reversed(queue[..|queue| - 1]) == before + Reversed(queue)
  {
    var last, rest := queue[|queue| - 1], Reversed(queue[..|queue| - 1]);
    assert Reversed(queue) == [last] + rest by {
      ReversedLast(queue);
    }
    Regrouped(before, [last], rest);
  }

  /** A new operation at the front of the queue comes last. */
  lemma QueueInFront<T>(before: seq<T>, queue: seq<T>, t: T)
    ensures before + Reversed([t] + queue) == before + Reversed(queue) + [t]
  {
    assert ([t] + queue)[1..] == queue;
  }

  class ClientRegister<V(==, !new)> {
    const signer: PublicKey
    const permissions: Permissions
    const sizeOf: V -> nat // length in bytes of an entry

    var nodes: set<Node<V>>
    var ops: seq<Node<V>> // cached operations, newest at the front

    ghost var written: seq<Node<V>> // every operation ever written, in order
    ghost var published: seq<Node<V>> // every operation the network acknowledged, in order
    ghost var base: set<Node<V>> // the nodes that came from elsewhere: at the start or by merging

    /** Acknowledged operations followed by the queue, oldest first, are all writes in the order they were made. */
    ghost predicate Valid()
      reads this
    {
      published + Reversed(ops) == written
    }

    /** Every write is atop nodes from elsewhere or of earlier writes. */
    ghost predicate Causal()
      reads this
    {
      CausallyWritten(base, written, nodes)
    }

    constructor (signer: PublicKey, permissions: Permissions, sizeOf: V -> nat, nodes: set<Node<V>>)
      ensures Valid() && Causal() && this.nodes == base == nodes && ops == [] && written == [] && published == []
      ensures this.signer == signer && this.permissions == permissions && this.sizeOf == sizeOf
    {
      this.signer, this.permissions, this.sizeOf := signer, permissions, sizeOf;
      this.nodes, base, ops, written, published := nodes, nodes, [], [], [];
    }

    /** The checks every write passes: permission first, then the size of the entry, then that of the register. */
    function Objection(entry: V): (e: Option<WriteError<V>>)
      reads this
      ensures e == Some(AccessDenied(signer)) <==> !permissions.CanWrite(signer)
      ensures e == Some(EntryTooBig(sizeOf(entry)))
              <==> permissions.CanWrite(signer) && sizeOf(entry) > MAX_REG_ENTRY_SIZE
      ensures e.None? <==>
              permissions.CanWrite(signer) && sizeOf(entry) <= MAX_REG_ENTRY_SIZE && |nodes| < MAX_REG_NUM_ENTRIES
      ensures e.Some? ==> e.value in {AccessDenied(signer), EntryTooBig(sizeOf(entry)), TooManyEntries(|nodes|)}
    {
      if !permissions.CanWrite(signer) then Some(AccessDenied(signer))
      else if sizeOf(entry) > MAX_REG_ENTRY_SIZE then Some(EntryTooBig(sizeOf(entry)))
      else if |nodes| >= MAX_REG_NUM_ENTRIES then Some(TooManyEntries(|nodes|))
      else None
    }

    /** Apply a new operation and queue it. */
    method Queue(node: Node<V>)
      requires Valid()
      modifies this`nodes, this`ops, this`written
      ensures Valid() && (old(Causal()) && node.children <= old(nodes) ==> Causal())
      ensures nodes == old(nodes) + {node} && ops == [node] + old(ops) && written == old(written) + [node]
    {
      QueueInFront(published, ops, node);
      if Causal() && node.children <= nodes {
        WrittenAppend(base, written, nodes, node);
      }
      nodes, ops, written := nodes + {node}, [node] + ops, written + [node];
    }

    method WriteAtop(entry: V, children: set<Node<V>>) returns (r: WriteResult<V>)
      requires Valid()
      modifies this
      ensures Valid() && published == old(published) && base == old(base)
      ensures old(Causal()) && children <= old(nodes) ==> Causal()
      ensures r == match old(Objection(entry)) case None => Written(Node(entry, children)) case Some(e) => Refused(e)
      ensures r.Written? ==> nodes == old(nodes) + {r.node} && written == old(written) + [r.node]
      ensures r.Written? ==> ops == [r.node] + old(ops)
      ensures r.Refused? ==> nodes == old(nodes) && ops == old(ops) && written == old(written)
    {
      var objection := Objection(entry);
      if objection.Some? {
        return Refused(objection.value);
      }
      var node := Node(entry, children);
      Queue(node);
      r := Written(node);
    }

    /** Refused for branching exactly when there are two or more current entries. */
    method Write(entry: V) returns (r: WriteResult<V>)
      requires Valid()
      modifies this
      ensures Valid() && published == old(published) && base == old(base) && (old(Causal()) ==> Causal())
      ensures r.Refused? && r.error.ContentBranchDetected? <==> |Read(old(nodes))| >= 2
      ensures r.Refused? ==> nodes == old(nodes) && ops == old(ops) && written == old(written)
      ensures r.Written? <==> |Read(old(nodes))| <= 1 && old(Objection(entry)).None?
      ensures r.Written? ==> r.node == Node(entry, Read(old(nodes))) && r.node !in old(nodes)
      ensures r.Written? ==> nodes == old(nodes) + {r.node} && written == old(written) + [r.node]
      ensures r.Written? ==> (Read(nodes) == {r.node} <==> !Superseded(nodes, r.node))
    {
      var children := Read(nodes);
      if |children| > 1 {
        return Refused(ContentBranchDetected(children));
      }
      JoinIsNew(nodes, entry);
      JoinLeavesOneEntry(nodes, entry);
      r := WriteAtop(entry, children);
    }

    /** Whatever branches there are, the new entry is a fresh node, and it is the only current entry
        unless an orphan was already waiting for that very node. */
    method WriteMergingBranches(entry: V) returns (r: WriteResult<V>)
      requires Valid()
      modifies this
      ensures Valid() && published == old(published) && base == old(base) && (old(Causal()) ==> Causal())
      ensures r.Written? <==> old(Objection(entry)).None?
      ensures r.Refused? ==> nodes == old(nodes) && ops == old(ops) && written == old(written)
      ensures r.Refused? ==> !r.error.ContentBranchDetected?
      ensures r.Written? ==> r.node == Node(entry, Read(old(nodes))) && r.node !in old(nodes)
      ensures r.Written? ==> nodes == old(nodes) + {r.node} && written == old(written) + [r.node]
      ensures r.Written? ==> (Read(nodes) == {r.node} <==> !Superseded(nodes, r.node))
      ensures r.Written? && Unlisted(old(nodes), r.node) ==> Read(nodes) == {r.node}
    {
      var children := Read(nodes);
      JoinIsNew(nodes, entry);
      JoinLeavesOneEntry(nodes, entry);
      r := WriteAtop(entry, children);
      if r.Written? {
        NotItsOwnChild(r.node);
      }
    }

    /** Merge a replica fetched from the network. */
    method Merge(other: set<Node<V>>)
      requires Valid()
      modifies this`nodes, this`base
      ensures Valid() && nodes == old(nodes) + other && base == old(base) + other && (old(Causal()) ==> Causal())
      ensures forall n | Delivered(old(nodes), n) || Delivered(other, n) :: Delivered(nodes, n)
    {
      nodes, base := nodes + other, base + other;
      if old(Causal()) {
        WrittenAtopMore(old(base), other, written, old(nodes));
      }
      forall n | Delivered(old(nodes), n) || Delivered(other, n) ensures Delivered(nodes, n) {
        if Delivered(other, n) {
          DeliveredMonotone(other, nodes, n);
        } else {
          DeliveredMonotone(old(nodes), nodes, n);
        }
      }
    }

    /** Publish the queue oldest first; `accepts(i)` is the network's answer to the i-th publication.
        A refusal puts the operation back, so nothing is lost or reordered. */
    method Push(accepts: nat -> bool) returns (ok: bool, ghost sent: seq<Node<V>>)
      requires Valid()
      modifies this`ops, this`published
      ensures Valid() && published == old(published) + sent
      ensures sent + Reversed(ops) == Reversed(old(ops))
      ensures ok <==> ops == []
      ensures forall i: nat | i < |sent| :: accepts(i)
      ensures !ok ==> !accepts(|sent|)
      ensures ops <= old(ops)
      ensures old(Causal()) ==> Causal()
      ensures Causal() && Closed(base) ==> Closed(base + NodesOf(published))
    {
      sent := [];
      var attempt := 0;
      while ops != []
        invariant published == old(published) + sent && sent + Reversed(ops) == Reversed(old(ops))
        invariant attempt == |sent| && forall i: nat | i < |sent| :: accepts(i)
        invariant ops <= old(ops)
        decreases |ops|
      {
        var cmd := ops[|ops| - 1];
        if !accepts(attempt) {
          assert ops[..|ops| - 1] + [cmd] == ops;
          ops := ops[..|ops| - 1] + [cmd];
          Regrouped(old(published), sent, Reversed(ops));
          PublishedIsClosed();
          return false, sent;
        }
        PopOldest(ops, sent);
        ops := ops[..|ops| - 1];
        sent, published := sent + [cmd], published + [cmd];
        attempt := attempt + 1;
      }
      Regrouped(old(published), sent, Reversed(ops));
      PublishedIsClosed();
      ok := true;
    }

    /** The network receives operations in causal order: whatever was published so far, a replica that had the nodes
        from elsewhere and applied it holds no orphan. */
    lemma PublishedIsClosed()
      requires Valid()
      ensures Causal() && Closed(base) ==> Closed(base + NodesOf(published))
    {
      if Causal() && Closed(base) {
        assert published == written[..|published|];
        PrefixIsClosed(base, written, |published|);
      }
    }
  }

  // ---- publishing in write order keeps the network free of orphans ----

  ghost function NodesOf<V(!new)>(s: seq<Node<V>>): (nodes: set<Node<V>>)
    ensures forall n :: n in nodes <==> n in s
  {
    set n | n in s
  }

  /** Every operation was written atop nodes of `base` or of earlier operations. */
  ghost predicate WrittenAtopKnown<V(!new)>(base: set<Node<V>>, written: seq<Node<V>>)
  {
    forall i | 0 <= i < |written| :: written[i].children <= base + NodesOf(written[..i])
  }

  ghost predicate CausallyWritten<V(!new)>(base: set<Node<V>>, written: seq<Node<V>>, nodes: set<Node<V>>)
  {
    nodes == base + NodesOf(written) && WrittenAtopKnown(base, written)
  }

  lemma WrittenAppend<V(!new)>(base: set<Node<V>>, written: seq<Node<V>>, nodes: set<Node<V>>, n: Node<V>)
    requires CausallyWritten(base, written, nodes) && n.children <= nodes
    ensures CausallyWritten(base, written + [n], nodes + {n})
  {
    forall i | 0 <= i < |written + [n]| ensures (written + [n])[i].children <= base + NodesOf((written + [n])[..i]) {
      assert (written + [n])[..i] == written[..i];
    }
  }

  lemma WrittenAtopMore<V(!new)>(base: set<Node<V>>, more: set<Node<V>>, written: seq<Node<V>>, nodes: set<Node<V>>)
    requires CausallyWritten(base, written, nodes)
    ensures CausallyWritten(base + more, written, nodes + more)
  {
  }

  lemma PrefixIsClosed<V(!new)>(base: set<Node<V>>, written: seq<Node<V>>, k: nat)
    requires Closed(base) && WrittenAtopKnown(base, written) && k <= |written|
    ensures Closed(base + NodesOf(written[..k]))
  {
    forall n | n in NodesOf(written[..k]) ensures n.children <= base + NodesOf(written[..k]) {
      var i :| 0 <= i < k && written[i] == n;
      assert forall m | m in written[..i] :: m in written[..k];
    }
  }
}
