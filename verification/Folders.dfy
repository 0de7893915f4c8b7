/** Folders stored in registers: each current register entry names the metadata chunk of one item. */
module Folders {
  import opened Wrappers
  import opened MerkleRegister
  import opened ClientRegisters

  type Chunk = nat // a data map chunk, identified by its address
  type RegisterAddress = nat

  datatype FolderEntry = File(chunk: Chunk) | Folder(address: RegisterAddress)
  datatype Metadata = Metadata(name: string, content: FolderEntry)

  /** A metadata chunk: plain, or encrypted under some randomness. */
  datatype MetaChunk = MetaChunk(metadata: Metadata, encryption: Option<nat>)

  /** Chunk names are content addresses; the all-zero name marks a removed entry. */
  datatype XorName = RemovedMark | NameOf(chunk: MetaChunk)

  type Entry = Node<XorName>
  type Listing = map<Entry, (XorName, Metadata)>

  /** What the folder shows: its current entries other than removal marks. */
  function Live(nodes: set<Entry>): (m: Listing)
  {
    map n | n in Read(nodes) && n.value.NameOf? :: (n.value, n.value.chunk.metadata)
  }

  /** Insert one item and drop the ones it replaces. */
  function Put(m: Listing, n: Entry): (r: Listing)
    requires n.value.NameOf?
  {
    (m - n.children)[n := (n.value, n.value.chunk.metadata)]
  }

  // ---- one operation against a plain map ----

  /** Adding or replacing updates the folder like a plain map if and only if nothing names the new entry. */
  lemma PutIff(nodes: set<Entry>, n: Entry)
    requires n.children <= Read(nodes) && n.value.NameOf?
    ensures Live(nodes + {n}) == Put(Live(nodes), n) <==> !Superseded(nodes + {n}, n)
  {
    WriteReplacesIff(nodes, n);
    assert n in Put(Live(nodes), n);
    if !Superseded(nodes + {n}, n) {
      assert Live(nodes + {n}).Keys == Put(Live(nodes), n).Keys;
    }
  }

  /** Removing an item of a folder without orphans always drops exactly that item. */
  lemma RemoveDrops(nodes: set<Entry>, e: Entry)
    requires Closed(nodes) && e in Read(nodes)
    ensures var n := Node(RemovedMark, {e});
            n !in nodes && Closed(nodes + {n}) && Live(nodes + {n}) == Live(nodes) - {e}
  {
    var n := Node(RemovedMark, {e});
    if n in nodes {
      ClosedIsDelivered(nodes, n);
    }
    NewNodeShows(nodes, n);
    WriteReplacesIff(nodes, n);
    assert Live(nodes + {n}).Keys == (Live(nodes) - {e}).Keys;
  }

  // ---- whole runs ----

  datatype FolderOp = Add(name: XorName) | Replace(gone: Entry, name: XorName) | Remove(gone: Entry)

  function NodeOf(op: FolderOp): (n: Entry)
  {
    match op
    case Add(name) => Node(name, {})
    case Replace(gone, name) => Node(name, {gone})
    case Remove(gone) => Node(RemovedMark, {gone})
  }

  ghost function Run(nodes: set<Entry>, ops: seq<FolderOp>): (r: set<Entry>)
    decreases |ops|
  {
    if ops == [] then nodes else Run(nodes + {NodeOf(ops[0])}, ops[1..])
  }

  ghost function PlainStep(m: Listing, op: FolderOp): (r: Listing)
  {
    match op
    case Remove(gone) => m - {gone}
    case _ => if NodeOf(op).value.NameOf? then Put(m, NodeOf(op)) else m
  }

  ghost function PlainRun(m: Listing, ops: seq<FolderOp>): (r: Listing)
    decreases |ops|
  {
    if ops == [] then m else PlainRun(PlainStep(m, ops[0]), ops[1..])
  }

  /** Each operation acts on items the plain map shows, and adds metadata and no marks. */
  ghost predicate OnShown(m: Listing, ops: seq<FolderOp>)
    decreases |ops|
  {
    ops == [] ||
    (&& NodeOf(ops[0]).children <= m.Keys
     && (!ops[0].Remove? ==> ops[0].name.NameOf?)
     && OnShown(PlainStep(m, ops[0]), ops[1..]))
  }

  /** An addition writes a node that is new to the register or a current entry. */
  ghost predicate Shows(nodes: set<Entry>, op: FolderOp)
  {
    op.Add? && NodeOf(op) in nodes ==> NodeOf(op) in Read(nodes)
  }

  ghost predicate AllShow(nodes: set<Entry>, ops: seq<FolderOp>)
  {
    forall i | 0 <= i < |ops| :: Shows(Run(nodes, ops[..i]), ops[i])
  }

  /** After every operation the folder shows what the plain map holds. */
  ghost predicate FollowsPlain(nodes: set<Entry>, ops: seq<FolderOp>)
  {
    forall i | 0 <= i <= |ops| :: Live(Run(nodes, ops[..i])) == PlainRun(Live(nodes), ops[..i])
  }

  /** A replacement or removal of a shown item always does what it does to a plain map: if the node it writes had been
      there before, the item would not be shown. An addition does so exactly if its node is new or a current entry. */
  lemma StepIff(nodes: set<Entry>, op: FolderOp)
    requires Closed(nodes) && NodeOf(op).children <= Live(nodes).Keys && (!op.Remove? ==> op.name.NameOf?)
    ensures Live(nodes + {NodeOf(op)}) == PlainStep(Live(nodes), op) <==> Shows(nodes, op)
    ensures Closed(nodes + {NodeOf(op)})
  {
    var n := NodeOf(op);
    if op.Remove? {
      RemoveDrops(nodes, op.gone);
    } else {
      PutIff(nodes, n);
      if n in nodes {
        ClosedIsDelivered(nodes, n);
        assert nodes + {n} == nodes;
      } else {
        NewNodeShows(nodes, n);
      }
    }
  }

  lemma AfterFirst(nodes: set<Entry>, m: Listing, ops: seq<FolderOp>, i: nat)
    requires i < |ops|
    ensures Run(nodes, ops[..i + 1]) == Run(nodes + {NodeOf(ops[0])}, ops[1..][..i])
    ensures PlainRun(m, ops[..i + 1]) == PlainRun(PlainStep(m, ops[0]), ops[1..][..i])
  {
    assert ops[..i + 1][1..] == ops[1..][..i];
  }

  lemma AllShowFirst(nodes: set<Entry>, ops: seq<FolderOp>)
    requires ops != []
    ensures AllShow(nodes, ops) <==> Shows(nodes, ops[0]) && AllShow(nodes + {NodeOf(ops[0])}, ops[1..])
  {
    forall i | 0 <= i < |ops| - 1
      ensures Run(nodes, ops[..i + 1]) == Run(nodes + {NodeOf(ops[0])}, ops[1..][..i]) && ops[1..][i] == ops[i + 1]
    {
      AfterFirst(nodes, map[], ops, i);
    }
    assert ops[..0] == [];
    if AllShow(nodes, ops) {
      forall i | 0 <= i < |ops| - 1 ensures Shows(Run(nodes + {NodeOf(ops[0])}, ops[1..][..i]), ops[1..][i]) {
        assert Shows(Run(nodes, ops[..i + 1]), ops[i + 1]);
      }
    }
    if Shows(nodes, ops[0]) && AllShow(nodes + {NodeOf(ops[0])}, ops[1..]) {
      forall i | 0 <= i < |ops| ensures Shows(Run(nodes, ops[..i]), ops[i]) {
        if i > 0 {
          assert Shows(Run(nodes + {NodeOf(ops[0])}, ops[1..][..i - 1]), ops[1..][i - 1]);
        }
      }
    }
  }

  lemma FollowsFirst(nodes: set<Entry>, ops: seq<FolderOp>)
    requires ops != []
    ensures FollowsPlain(nodes, ops) ==> Live(nodes + {NodeOf(ops[0])}) == PlainStep(Live(nodes), ops[0])
    ensures Live(nodes + {NodeOf(ops[0])}) == PlainStep(Live(nodes), ops[0])
            ==> (FollowsPlain(nodes, ops) <==> FollowsPlain(nodes + {NodeOf(ops[0])}, ops[1..]))
  {
    var m, more := Live(nodes), nodes + {NodeOf(ops[0])};
    forall i | 0 <= i < |ops|
      ensures Run(nodes, ops[..i + 1]) == Run(more, ops[1..][..i])
      ensures PlainRun(m, ops[..i + 1]) == PlainRun(PlainStep(m, ops[0]), ops[1..][..i])
    {
      AfterFirst(nodes, m, ops, i);
    }
    if FollowsPlain(nodes, ops) {
      assert Live(Run(nodes, ops[..1])) == PlainRun(m, ops[..1]);
      assert ops[1..][..0] == [];
    }
    if Live(more) == PlainStep(m, ops[0]) {
      if FollowsPlain(nodes, ops) {
        forall i | 0 <= i <= |ops| - 1 ensures Live(Run(more, ops[1..][..i])) == PlainRun(Live(more), ops[1..][..i]) {
          assert Live(Run(nodes, ops[..i + 1])) == PlainRun(m, ops[..i + 1]);
        }
      }
      if FollowsPlain(more, ops[1..]) {
        forall i | 0 <= i <= |ops| ensures Live(Run(nodes, ops[..i])) == PlainRun(m, ops[..i]) {
          if i > 0 {
            assert Live(Run(more, ops[1..][..i - 1])) == PlainRun(Live(more), ops[1..][..i - 1]);
          }
        }
      }
    }
  }

  /** For every run of operations on shown items, the folder follows the plain map all along if and only if each
      addition writes a node that is new to the register or a current entry. */
  lemma {:induction false} RunIsPlainIff(nodes: set<Entry>, ops: seq<FolderOp>)
    requires Closed(nodes) && OnShown(Live(nodes), ops)
    ensures FollowsPlain(nodes, ops) <==> AllShow(nodes, ops)
    ensures AllShow(nodes, ops) ==> Closed(Run(nodes, ops))
    decreases |ops|
  {
    if ops != [] {
      StepIff(nodes, ops[0]);
      AllShowFirst(nodes, ops);
      FollowsFirst(nodes, ops);
      if Shows(nodes, ops[0]) {
        RunIsPlainIff(nodes + {NodeOf(ops[0])}, ops[1..]);
      }
    }
  }

  /** Then it shows exactly the plain map at the end. */
  lemma RunIsPlain(nodes: set<Entry>, ops: seq<FolderOp>)
    requires Closed(nodes) && OnShown(Live(nodes), ops) && AllShow(nodes, ops)
    ensures Live(Run(nodes, ops)) == PlainRun(Live(nodes), ops)
    ensures Closed(Run(nodes, ops))
  {
    RunIsPlainIff(nodes, ops);
    assert ops[..|ops|] == ops;
  }

  /** Removing an item and adding back the very same unencrypted metadata leaves it removed: the node exists already. */
  lemma ReAddStaysHidden(nodes: set<Entry>, n: Entry)
    requires Closed(nodes) && n in Read(nodes) && n.value.NameOf? && n.children == {}
    ensures n in Live(nodes)
    ensures Live(Run(nodes, [Remove(n), Add(n.value)])) == Live(nodes) - {n}
  {
    var removed := nodes + {Node(RemovedMark, {n})};
    RemoveDrops(nodes, n);
    assert removed + {n} == removed && Node(n.value, {}) == n;
    assert [Remove(n), Add(n.value)][1..] == [Add(n.value)] && |[Add(n.value)][1..]| == 0;
    assert Run(removed, [Add(n.value)]) == removed;
  }

  // ---- the folder object ----

  datatype FolderResult<T> = Done(value: T) | Refused(error: WriteError<XorName>)
  datatype EntriesResult = Listed(entries: Listing) | FetchFailed(entry: Entry)

  lemma ListOne(all: Listing, todo: set<Entry>, n: Entry)
    requires n in todo
    ensures all - (todo - {n}) == if n in all then (all - todo)[n := all[n]] else all - todo
  {
  }

  class FoldersApi {
    const register: ClientRegister<XorName>
    // Cache of metadata; the chunk itself is kept until it is uploaded.
    var metadata: map<XorName, (Metadata, Option<MetaChunk>)>

    ghost predicate Valid()
      reads this, register
    {
      register.Valid() && forall x | x in metadata :: x.NameOf? && metadata[x].0 == x.chunk.metadata
    }

    /** Every shown item has its metadata cached. */
    ghost predicate Cached()
      reads this, register
    {
      forall n | n in Live(register.nodes) :: n.value in metadata
    }

    constructor (register: ClientRegister<XorName>)
      requires register.Valid()
      ensures Valid() && this.register == register && metadata == map[]
    {
      this.register := register;
      metadata := map[];
    }

    method AddEntry(meta: Metadata, children: set<Entry>, encryption: Option<nat>)
      returns (r: FolderResult<(Entry, XorName, Metadata)>)
      requires Valid()
      modifies this, register
      ensures Valid()
      ensures var name := NameOf(MetaChunk(meta, encryption));
              && metadata == old(metadata)[name := (meta, Some(MetaChunk(meta, encryption)))]
              && (r.Done? <==> old(register.Objection(name)).None?)
              && (r.Done? ==> r.value == (Node(name, children), name, meta))
      ensures r.Done? ==> register.nodes == old(register.nodes) + {r.value.0}
      ensures r.Refused? ==> register.nodes == old(register.nodes)
      ensures r.Done? && children <= Read(old(register.nodes)) ==>
              (Live(register.nodes) == Put(Live(old(register.nodes)), r.value.0)
               <==> !Superseded(register.nodes, r.value.0))
    {
      var chunk := MetaChunk(meta, encryption);
      var name := NameOf(chunk);
      metadata := metadata[name := (meta, Some(chunk))];
      var w := register.WriteAtop(name, children);
      match w {
        case Refused(e) => r := FolderResult.Refused(e);
        case Written(n) =>
          if children <= Read(old(register.nodes)) {
            PutIff(old(register.nodes), n);
          }
          r := Done((n, name, meta));
      }
    }

    method AddFile(fileName: string, dataMap: Chunk, encryption: Option<nat>)
      returns (r: FolderResult<(Entry, XorName, Metadata)>)
      requires Valid()
      modifies this, register
      ensures Valid()
      ensures r.Done? ==>
              && r.value.2 == Metadata(fileName, File(dataMap))
              && register.nodes == old(register.nodes) + {r.value.0}
              && (Live(register.nodes) == Live(old(register.nodes))[r.value.0 := (r.value.1, r.value.2)]
                  <==> !Superseded(register.nodes, r.value.0))
      ensures r.Refused? ==> register.nodes == old(register.nodes)
    {
      r := AddEntry(Metadata(fileName, File(dataMap)), {}, encryption);
      assert Live(old(register.nodes)) - {} == Live(old(register.nodes));
    }

    method AddFolder(folderName: string, address: RegisterAddress, encryption: Option<nat>)
      returns (r: FolderResult<(Entry, XorName, Metadata)>)
      requires Valid()
      modifies this, register
      ensures Valid()
      ensures r.Done? ==>
              && r.value.2 == Metadata(folderName, Folder(address))
              && register.nodes == old(register.nodes) + {r.value.0}
              && (Live(register.nodes) == Live(old(register.nodes))[r.value.0 := (r.value.1, r.value.2)]
                  <==> !Superseded(register.nodes, r.value.0))
      ensures r.Refused? ==> register.nodes == old(register.nodes)
    {
      r := AddEntry(Metadata(folderName, Folder(address)), {}, encryption);
      assert Live(old(register.nodes)) - {} == Live(old(register.nodes));
    }

    method ReplaceFile(existing: Entry, fileName: string, dataMap: Chunk, encryption: Option<nat>)
      returns (r: FolderResult<(Entry, XorName, Metadata)>)
      requires Valid()
      modifies this, register
      ensures Valid()
      ensures r.Done? ==>
              && r.value.2 == Metadata(fileName, File(dataMap))
              && register.nodes == old(register.nodes) + {r.value.0}
      ensures r.Done? && existing in Read(old(register.nodes)) ==>
              (Live(register.nodes) == (Live(old(register.nodes)) - {existing})[r.value.0 := (r.value.1, r.value.2)]
               <==> !Superseded(register.nodes, r.value.0))
      ensures r.Refused? ==> register.nodes == old(register.nodes)
    {
      r := AddEntry(Metadata(fileName, File(dataMap)), {existing}, encryption);
    }

    method RemoveItem(existing: Entry) returns (r: FolderResult<()>)
      requires Valid()
      modifies register
      ensures Valid() && metadata == old(metadata)
      ensures r.Done? ==> register.nodes == old(register.nodes) + {Node(RemovedMark, {existing})}
      ensures r.Done? && Closed(old(register.nodes)) && existing in Read(old(register.nodes)) ==>
              Live(register.nodes) == Live(old(register.nodes)) - {existing}
      ensures r.Refused? ==> register.nodes == old(register.nodes)
    {
      var w := register.WriteAtop(RemovedMark, {existing});
      match w {
        case Refused(e) => r := FolderResult.Refused(e);
        case Written(n) =>
          if Closed(old(register.nodes)) && existing in Read(old(register.nodes)) {
            RemoveDrops(old(register.nodes), existing);
          }
          r := Done(());
      }
    }

    /** List the folder, fetching the metadata that is not cached yet.
        `fetch` is the network: it may miss a chunk, but what it returns has the name asked for. */
    method Entries(fetch: XorName -> Option<MetaChunk>) returns (r: EntriesResult)
      requires Valid()
      requires forall x | fetch(x).Some? :: x == NameOf(fetch(x).value)
      modifies this`metadata
      ensures Valid()
      ensures r.Listed? ==> r.entries == Live(register.nodes) && Cached()
      ensures r.FetchFailed? ==>
              r.entry in Live(register.nodes) && r.entry.value !in old(metadata) && fetch(r.entry.value).None?
      ensures forall x | x in old(metadata) :: x in metadata && metadata[x] == old(metadata)[x]
    {
      var entries: Listing := map[];
      var todo := Read(register.nodes);
      while todo != {}
        invariant todo <= Read(register.nodes) && Valid()
        invariant entries == Live(register.nodes) - todo
        invariant forall n | n in entries :: n.value in metadata
        invariant forall x | x in old(metadata) :: x in metadata && metadata[x] == old(metadata)[x]
        invariant forall x | x in metadata && x !in old(metadata) :: fetch(x).Some?
        decreases |todo|
      {
        var n :| n in todo;
        ListOne(Live(register.nodes), todo, n);
        todo := todo - {n};
        if n.value == RemovedMark {
          continue;
        }
        if n.value !in metadata {
          var fetched := fetch(n.value);
          if fetched.None? {
            return FetchFailed(n);
          }
          metadata := metadata[n.value := (fetched.value.metadata, None)];
        }
        entries := entries[n := (n.value, metadata[n.value].0)];
      }
      assert Live(register.nodes) - {} == Live(register.nodes);
      r := Listed(entries);
    }

    /** Finds a cached item by name among the shown ones; once everything shown is cached,
        it succeeds exactly when some shown item has that name. */
    method FindByName(name: string) returns (r: Option<(XorName, Metadata)>)
      requires Valid()
      ensures r.Some? ==> r.value.1.name == name
                          && exists n :: n in Live(register.nodes) && Live(register.nodes)[n] == r.value
      ensures r.None? ==> forall n | n in Live(register.nodes) && n.value in metadata ::
                            n.value.chunk.metadata.name != name
      ensures Cached() ==>
                (r.Some? <==> exists n :: n in Live(register.nodes) && Live(register.nodes)[n].1.name == name)
    {
      var nonRemoved := set n | n in Read(register.nodes) :: n.value;
      var todo := metadata.Keys;
      while todo != {}
        invariant todo <= metadata.Keys
        invariant forall x | x in metadata && x !in todo :: !(metadata[x].0.name == name && x in nonRemoved)
        decreases |todo|
      {
        var x :| x in todo;
        if metadata[x].0.name == name && x in nonRemoved {
          ghost var n :| n in Read(register.nodes) && n.value == x;
          assert n in Live(register.nodes) && Live(register.nodes)[n] == (x, metadata[x].0);
          return Some((x, metadata[x].0));
        }
        todo := todo - {x};
      }
      assert forall n | n in Live(register.nodes) :: n.value in nonRemoved;
      r := None;
    }
  }
}
