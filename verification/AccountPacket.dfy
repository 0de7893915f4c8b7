/** Comparing a directory tree with what was last synced, and recording the differences. */
module AccountPackets {
  import opened MerkleRegister
  import opened Folders
  import opened Wrappers

  type Path = seq<string>

  function Parent(p: Path): Path
    requires p != []
  {
    p[..|p| - 1]
  }

  function Name(p: Path): string
    requires p != []
  {
    p[|p| - 1]
  }

  // ---- the disk ----

  datatype OnDisk = Dir | Regular(chunk: Chunk)
  type Tree = map<Path, OnDisk>

  ghost predicate IsTree(t: Tree)
  {
    && [] in t && t[[]].Dir?
    && forall p {:trigger Parent(p)} | p in t && p != [] :: Parent(p) in t && t[Parent(p)].Dir?
  }

  // ---- what is tracked ----

  datatype Info = Info(path: Path, metaName: XorName, metadata: Metadata, entry: Entry)

  type MetaDir = map<XorName, Info> // the files under `.safe/metadata`, by file name
  type Tracking = map<Path, Info>

  ghost predicate WellFormed(i: Info)
  {
    && i.path != [] && i.metadata.name == Name(i.path)
    && i.metaName.NameOf? && i.metaName.chunk.metadata == i.metadata
    && i.entry.value == i.metaName
  }

  /** The tracked item is on the disk with the same kind and content. */
  predicate Agrees(i: Info, t: Tree)
  {
    i.path in t && t[i.path] == match i.metadata.content { case Folder(_) => Dir case File(c) => Regular(c) }
  }

  /** The metadata directory and its listing by path describe the same items. */
  ghost predicate Consistent(meta: MetaDir, tracking: Tracking)
  {
    && (forall x | x in meta ::
          WellFormed(meta[x]) && meta[x].metaName == x && meta[x].path in tracking && tracking[meta[x].path] == meta[x])
    && (forall p | p in tracking ::
          tracking[p].path == p && tracking[p].metaName in meta && meta[tracking[p].metaName] == tracking[p])
  }

  /** The metadata directory tracks exactly the items of the tree, each with its kind and content. */
  ghost predicate Tracks(meta: MetaDir, t: Tree)
  {
    && (forall x | x in meta :: WellFormed(meta[x]) && meta[x].metaName == x && Agrees(meta[x], t))
    && (forall x, y | x in meta && y in meta && meta[x].path == meta[y].path :: x == y)
    && (forall p | p in t && p != [] :: exists x :: x in meta && meta[x].path == p)
  }

  /** Every tracked item sits in the root or in a tracked folder. */
  ghost predicate TrackingTree(tracking: Tracking)
  {
    forall p {:trigger Parent(p)} | p in tracking ::
      p != [] && (Parent(p) == [] || (Parent(p) in tracking && tracking[Parent(p)].metadata.content.Folder?))
  }

  /** The sequence lists every element of the set exactly once. */
  ghost predicate Enumerates<T>(s: seq<T>, all: set<T>)
  {
    if s == [] then all == {} else s[|s| - 1] in all && Enumerates(s[..|s| - 1], all - {s[|s| - 1]})
  }

  ghost predicate Before<T>(s: seq<T>, x: T, y: T)
  {
    exists i, j | 0 <= i < j < |s| :: s[i] == x && s[j] == y
  }

  ghost predicate Sits<T>(part: seq<T>, s: seq<T>, from: nat)
  {
    from + |part| <= |s| && s[from..from + |part|] == part
  }

  // ---- what a scan reports ----

  datatype Mutation =
    | NewFile(info: Info)
    | FileRemoved(path: Path, name: XorName)
    | FileContentChanged(was: XorName, info: Info)
    | NewFolder(info: Info)
    | FolderRemoved(path: Path, name: XorName)
  {
    predicate Removal() { FileRemoved? || FolderRemoved? }
    predicate Stores(x: XorName) { !Removal() && info.metaName == x }
    predicate Drops(x: XorName) { (Removal() && name == x) || (FileContentChanged? && was == x) }
    predicate Touches(x: XorName) { Stores(x) || Drops(x) }
  }

  ghost predicate NoRemovals(ms: seq<Mutation>)
  {
    ms == [] || (!ms[|ms| - 1].Removal() && NoRemovals(ms[..|ms| - 1]))
  }

  ghost predicate RemovalsLast(ms: seq<Mutation>)
  {
    NoRemovals(ms) || (ms[|ms| - 1].Removal() && RemovalsLast(ms[..|ms| - 1]))
  }

  lemma {:induction false} RemovalAfterChange(ms: seq<Mutation>, i: nat, j: nat)
    requires RemovalsLast(ms) && i < |ms| && j < |ms| && !ms[i].Removal() && ms[j].Removal()
    ensures i < j
    decreases |ms|
  {
    var n := |ms| - 1;
    if NoRemovals(ms) {
      NoneRemoved(ms, j);
    } else if i < n && j < n {
      RemovalAfterChange(ms[..n], i, j);
    }
  }

  lemma {:induction false} NoneRemoved(ms: seq<Mutation>, j: nat)
    requires NoRemovals(ms) && j < |ms|
    ensures !ms[j].Removal()
    decreases |ms|
  {
    if j < |ms| - 1 {
      NoneRemoved(ms[..|ms| - 1], j);
    }
  }

  datatype FolderChange = NoChange | IsNewFolder | NewEntries {
    function HasNewEntries(): FolderChange { if NoChange? then NewEntries else this }
  }

  /** A folder under construction: its register address and the nodes written to it so far. */
  datatype FolderState = FolderState(address: RegisterAddress, nodes: set<Entry>, change: FolderChange) {
    function Write(n: Entry): FolderState { FolderState(address, nodes + {n}, change.HasNewEntries()) }
  }

  /** All a scan looks at. New folders draw a register address, new metadata chunks draw the
      encryption randomness (none when the data is made public). */
  datatype Packet = Packet(tree: Tree, tracking: Tracking, root: RegisterAddress, rootCreated: bool,
                           addresses: map<Path, RegisterAddress>, draws: map<Path, Option<nat>>)
  {
    ghost predicate Ready()
    {
      && IsTree(tree) && tree.Keys <= addresses.Keys && tree.Keys <= draws.Keys
      && forall p | p in tracking :: tracking[p].path == p && WellFormed(tracking[p])
    }

    predicate KnownFolder(p: Path) { p in tracking && tracking[p].metadata.content.Folder? }

    /** The item was tracked and has not changed since. */
    predicate Kept(p: Path) { p in tracking && Agrees(tracking[p], tree) }

    /** The item of the tree is new or changed. */
    predicate Dirty(p: Path) { p in tree && p != [] && !Kept(p) }

    /** The tracked item is no longer on the disk as what it was. */
    predicate Gone(p: Path)
    {
      p in tracking &&
      !(p in tree && (if tracking[p].metadata.content.Folder? then tree[p].Dir? else tree[p].Regular?))
    }

    /** The tracked file is still a file, with another content. */
    predicate Changed(p: Path) { p in tracking && !Kept(p) && !Gone(p) }

    function AddressOf(p: Path): RegisterAddress
      requires p in addresses
    {
      if p == [] then root
      else if KnownFolder(p) then tracking[p].metadata.content.address
      else addresses[p]
    }

    function NewMetadata(p: Path): Metadata
      requires p in tree && p != [] && p in addresses
    {
      Metadata(Name(p), match tree[p] { case Dir => Folder(AddressOf(p)) case Regular(c) => File(c) })
    }

    /** The tracking information created for a new or changed item; a file is written atop
        the entry tracked at its path. */
    function NewInfo(p: Path): (i: Info)
      requires p in tree && p != [] && p in addresses && p in draws
      ensures WellFormed(i) && i.path == p && Agrees(i, tree)
    {
      var name := NameOf(MetaChunk(NewMetadata(p), draws[p]));
      Info(p, name, NewMetadata(p),
           Node(name, if tree[p].Regular? && p in tracking then {tracking[p].entry} else {}))
    }

    function Report(p: Path): Mutation
      requires p in tree && p != [] && p in addresses && p in draws
    {
      if tree[p].Dir? then NewFolder(NewInfo(p))
      else if p in tracking && tracking[p].metadata.content.File? then
        FileContentChanged(tracking[p].metaName, NewInfo(p))
      else NewFile(NewInfo(p))
    }

    function RemovalReport(p: Path): Mutation
      requires p in tracking
    {
      if tracking[p].metadata.content.Folder? then FolderRemoved(p, tracking[p].metaName)
      else FileRemoved(p, tracking[p].metaName)
    }

    /** The mutations due for the items of the tree in `done` and the tracked items in `checked`. */
    ghost function Due(done: set<Path>, checked: set<Path>): set<Mutation>
      requires Ready()
    {
      (set p | p in done && Dirty(p) :: Report(p)) + (set p | p in checked && Gone(p) :: RemovalReport(p))
    }

    /** The nodes written to folder `d` for those items. */
    ghost function Pending(d: Path, done: set<Path>, checked: set<Path>): set<Entry>
      requires Ready()
    {
      (set p | p in done && Dirty(p) && Parent(p) == d :: NewInfo(p).entry)
      + (set p | p in checked && Gone(p) && Parent(p) == d :: Node(RemovedMark, {tracking[p].entry}))
    }

    ghost predicate Written(d: Path, f: FolderState, done: set<Path>, checked: set<Path>)
      requires Ready() && d in tree
    {
      && f.address == AddressOf(d)
      && f.nodes == Pending(d, done, checked)
      && f.change == if (if d == [] then !rootCreated else !KnownFolder(d)) then IsNewFolder
                     else if f.nodes == {} then NoChange else NewEntries
    }

    /** The exact outcome of a scan: one mutation per difference, and for every directory
        the entries to write to its folder. */
    ghost predicate IsScan(folders: map<Path, FolderState>, mutations: seq<Mutation>)
      requires Ready()
    {
      && Enumerates(mutations, Due(tree.Keys, tracking.Keys))
      && folders.Keys == (set d | d in tree && tree[d].Dir?)
      && (forall d | d in folders :: Written(d, folders[d], tree.Keys, tracking.Keys))
      && RemovalsLast(mutations)
    }

    /** The mutations reported for the chunked files, which come in this order. */
    ghost function FileReports(files: seq<Path>): seq<Mutation>
      requires Ready()
    {
      if files == [] then []
      else
        var file := files[|files| - 1];
        FileReports(files[..|files| - 1]) + if Dirty(file) then [Report(file)] else []
    }

    ghost predicate InFileOrder(mutations: seq<Mutation>, files: seq<Path>)
      requires Ready()
    {
      exists from: nat :: Sits(FileReports(files), mutations, from)
    }

    /** The names of new metadata chunks differ from each other and from all that are tracked. */
    ghost predicate DistinctNames()
      requires Ready()
    {
      && (forall p, q | Dirty(p) && Dirty(q) && p != q :: NewInfo(p).metaName != NewInfo(q).metaName)
      && (forall p, q | Dirty(p) && q in tracking :: NewInfo(p).metaName != tracking[q].metaName)
    }

    /** The same, but a file may take the name that a file visited before it gave up. */
    ghost predicate NamesHold(files: seq<Path>)
      requires Ready()
    {
      && (forall p, q | Dirty(p) && Dirty(q) && p != q :: NewInfo(p).metaName != NewInfo(q).metaName)
      && (forall p, q | Dirty(p) && q in tracking && NewInfo(p).metaName == tracking[q].metaName ::
            Changed(q) && Before(files, q, p))
    }

    /** Nothing stored is overwritten or removed afterwards, and no kept item's file is touched. */
    ghost predicate NoClobber(mutations: seq<Mutation>)
    {
      && (forall i | 0 <= i < |mutations| && !mutations[i].Removal() ::
            var x := mutations[i].info.metaName;
            !mutations[i].Drops(x) && forall j | i < j < |mutations| :: !mutations[j].Touches(x))
      && (forall p, j | p in tracking && Kept(p) && 0 <= j < |mutations| :: !mutations[j].Touches(tracking[p].metaName))
    }
  }

  // ---- recording the mutations ----

  function Record(meta: MetaDir, m: Mutation): (r: MetaDir)
  {
    match m
    case NewFile(i) => meta[i.metaName := i]
    case NewFolder(i) => meta[i.metaName := i]
    case FileRemoved(_, x) => meta - {x}
    case FolderRemoved(_, x) => meta - {x}
    case FileContentChanged(was, i) => meta[i.metaName := i] - {was}
  }

  function RecordAll(meta: MetaDir, mutations: seq<Mutation>): (r: MetaDir)
  {
    if mutations == [] then meta
    else Record(RecordAll(meta, mutations[..|mutations| - 1]), mutations[|mutations| - 1])
  }

  lemma {:induction false} UntouchedStays(meta: MetaDir, ms: seq<Mutation>, x: XorName)
    requires forall j | 0 <= j < |ms| :: !ms[j].Touches(x)
    ensures x in RecordAll(meta, ms) <==> x in meta
    ensures x in meta ==> RecordAll(meta, ms)[x] == meta[x]
    decreases |ms|
  {
    if ms != [] {
      UntouchedStays(meta, ms[..|ms| - 1], x);
    }
  }

  /** The last mutation that touches a file name decides what is left under it. */
  lemma {:induction false} LastTouchDecides(meta: MetaDir, ms: seq<Mutation>, x: XorName, i: nat)
    requires i < |ms| && ms[i].Touches(x) && forall j | i < j < |ms| :: !ms[j].Touches(x)
    ensures x in RecordAll(meta, ms) <==> ms[i].Stores(x) && !ms[i].Drops(x)
    ensures x in RecordAll(meta, ms) ==> RecordAll(meta, ms)[x] == ms[i].info
    decreases |ms|
  {
    if i < |ms| - 1 {
      LastTouchDecides(meta, ms[..|ms| - 1], x, i);
    }
  }

  lemma {:induction false} FindLastTouch(ms: seq<Mutation>, x: XorName) returns (i: int)
    ensures i < 0 ==> forall j | 0 <= j < |ms| :: !ms[j].Touches(x)
    ensures 0 <= i ==> i < |ms| && ms[i].Touches(x) && forall j | i < j < |ms| :: !ms[j].Touches(x)
    decreases |ms|
  {
    if ms == [] {
      return -1;
    }
    if ms[|ms| - 1].Touches(x) {
      return |ms| - 1;
    }
    i := FindLastTouch(ms[..|ms| - 1], x);
  }

  lemma {:induction false} NoRepeats<T>(s: seq<T>, all: set<T>)
    requires Enumerates(s, all)
    ensures forall x :: x in s <==> x in all
    ensures forall i, j | 0 <= i < j < |s| :: s[i] != s[j]
    decreases |s|
  {
    if s != [] {
      var n := |s| - 1;
      NoRepeats(s[..n], all - {s[n]});
      assert s == s[..n] + [s[n]];
      assert forall i | 0 <= i < n :: s[i] == s[..n][i] && s[i] in s[..n];
    }
  }

  // ---- what recording a scan achieves ----

  lemma DueIsDifferences(k: Packet)
    requires k.Ready()
    ensures k.Due(k.tree.Keys, k.tracking.Keys) == {} <==> forall p :: !k.Dirty(p) && !k.Gone(p)
  {
    if p :| k.Dirty(p) {
      assert k.Report(p) in k.Due(k.tree.Keys, k.tracking.Keys);
    } else if p :| k.Gone(p) {
      assert k.RemovalReport(p) in k.Due(k.tree.Keys, k.tracking.Keys);
    } else {
      assert k.Due(k.tree.Keys, k.tracking.Keys) == {};
    }
  }

  /** A scan reports something if and only if the tracking does not describe the tree. */
  lemma NothingDueIff(k: Packet, meta: MetaDir)
    requires k.Ready() && Consistent(meta, k.tracking)
    ensures k.Due(k.tree.Keys, k.tracking.Keys) == {} <==> Tracks(meta, k.tree)
  {
    DueIsDifferences(k);
    if forall p :: !k.Dirty(p) && !k.Gone(p) {
      forall x | x in meta ensures Agrees(meta[x], k.tree) {
        assert !k.Dirty(meta[x].path) && !k.Gone(meta[x].path);
      }
      forall p | p in k.tree && p != [] ensures exists x :: x in meta && meta[x].path == p {
        assert !k.Dirty(p);
        assert meta[k.tracking[p].metaName].path == p;
      }
    }
    if Tracks(meta, k.tree) {
      forall p ensures !k.Dirty(p) && !k.Gone(p) {
        if p in k.tree && p != [] {
          var x :| x in meta && meta[x].path == p;
          assert k.tracking[p] == meta[x];
        }
        assert p in k.tracking ==> Agrees(meta[k.tracking[p].metaName], k.tree);
      }
    }
  }

  /** A tracked item that is not kept has its file dropped by some mutation. */
  lemma NotKeptIsDropped(k: Packet, ms: seq<Mutation>, p: Path) returns (i: nat)
    requires k.Ready() && Enumerates(ms, k.Due(k.tree.Keys, k.tracking.Keys))
    requires p in k.tracking && !k.Kept(p)
    ensures i < |ms| && ms[i].Drops(k.tracking[p].metaName)
  {
    var due := k.Due(k.tree.Keys, k.tracking.Keys);
    NoRepeats(ms, due);
    var m := if k.Gone(p) then k.RemovalReport(p) else k.Report(p);
    assert m in due;
    i :| 0 <= i < |ms| && ms[i] == m;
  }

  /** What is left under a name after recording: a kept item, or the new version of a changed one. */
  lemma LeftUnder(k: Packet, meta: MetaDir, ms: seq<Mutation>, x: XorName) returns (last: int)
    requires k.Ready() && Consistent(meta, k.tracking)
    requires Enumerates(ms, k.Due(k.tree.Keys, k.tracking.Keys))
    requires x in RecordAll(meta, ms)
    ensures last < 0 ==> (forall j | 0 <= j < |ms| :: !ms[j].Touches(x))
                         && x in meta && RecordAll(meta, ms)[x] == meta[x] && k.Kept(meta[x].path)
    ensures 0 <= last ==> last < |ms| && ms[last].Stores(x) && RecordAll(meta, ms)[x] == ms[last].info
                          && k.Dirty(ms[last].info.path) && ms[last].info == k.NewInfo(ms[last].info.path)
                          && forall j | last < j < |ms| :: !ms[j].Touches(x)
  {
    last := FindLastTouch(ms, x);
    if last < 0 {
      UntouchedStays(meta, ms, x);
      if !k.Kept(meta[x].path) {
        var i := NotKeptIsDropped(k, ms, meta[x].path);
      }
    } else {
      LastTouchDecides(meta, ms, x, last);
      ReportedIsDue(k, ms, last);
    }
  }

  lemma ReportedIsDue(k: Packet, ms: seq<Mutation>, i: nat)
    requires k.Ready() && Enumerates(ms, k.Due(k.tree.Keys, k.tracking.Keys))
    requires i < |ms| && !ms[i].Removal()
    ensures k.Dirty(ms[i].info.path) && ms[i] == k.Report(ms[i].info.path)
  {
    NoRepeats(ms, k.Due(k.tree.Keys, k.tracking.Keys));
    assert ms[i] in k.Due(k.tree.Keys, k.tracking.Keys);
    var p :| p in k.tree && k.Dirty(p) && ms[i] == k.Report(p);
  }

  /** Recording everything a scan reported makes the tracking describe the tree
      if and only if no metadata file is clobbered on the way. */
  lemma RecordedTracksIff(k: Packet, meta: MetaDir, ms: seq<Mutation>)
    requires k.Ready() && Consistent(meta, k.tracking)
    requires Enumerates(ms, k.Due(k.tree.Keys, k.tracking.Keys))
    ensures Tracks(RecordAll(meta, ms), k.tree) <==> k.NoClobber(ms)
  {
    if k.NoClobber(ms) {
      NoClobberTracks(k, meta, ms);
    }
    if Tracks(RecordAll(meta, ms), k.tree) {
      TracksNoClobber(k, meta, ms);
    }
  }

  /** The information a completed scan should leave for an item of the tree. */
  ghost function Wanted(k: Packet, p: Path): (i: Info)
    requires k.Ready() && p in k.tree && p != []
    ensures i.path == p && WellFormed(i) && Agrees(i, k.tree)
  {
    if k.Dirty(p) then k.NewInfo(p) else k.tracking[p]
  }

  lemma LeftIsWanted(k: Packet, meta: MetaDir, ms: seq<Mutation>, x: XorName)
    requires k.Ready() && Consistent(meta, k.tracking)
    requires Enumerates(ms, k.Due(k.tree.Keys, k.tracking.Keys))
    requires x in RecordAll(meta, ms)
    ensures var i := RecordAll(meta, ms)[x];
            i.metaName == x && i.path in k.tree && i.path != [] && i == Wanted(k, i.path)
  {
    var last := LeftUnder(k, meta, ms, x);
  }

  lemma WantedIsLeft(k: Packet, meta: MetaDir, ms: seq<Mutation>, p: Path)
    requires k.Ready() && Consistent(meta, k.tracking)
    requires Enumerates(ms, k.Due(k.tree.Keys, k.tracking.Keys))
    requires k.NoClobber(ms) && p in k.tree && p != []
    ensures var i := Wanted(k, p); i.metaName in RecordAll(meta, ms) && RecordAll(meta, ms)[i.metaName] == i
  {
    if k.Dirty(p) {
      var due := k.Due(k.tree.Keys, k.tracking.Keys);
      NoRepeats(ms, due);
      assert k.Report(p) in due;
      var i :| 0 <= i < |ms| && ms[i] == k.Report(p);
      LastTouchDecides(meta, ms, k.NewInfo(p).metaName, i);
    } else {
      UntouchedStays(meta, ms, k.tracking[p].metaName);
    }
  }

  lemma NoClobberTracks(k: Packet, meta: MetaDir, ms: seq<Mutation>)
    requires k.Ready() && Consistent(meta, k.tracking)
    requires Enumerates(ms, k.Due(k.tree.Keys, k.tracking.Keys))
    requires k.NoClobber(ms)
    ensures Tracks(RecordAll(meta, ms), k.tree)
  {
    var after := RecordAll(meta, ms);
    forall x | x in after
      ensures WellFormed(after[x]) && after[x].metaName == x && Agrees(after[x], k.tree)
      ensures after[x].path != [] && after[x] == Wanted(k, after[x].path)
    {
      LeftIsWanted(k, meta, ms, x);
    }
    forall p | p in k.tree && p != [] ensures exists x :: x in after && after[x].path == p {
      WantedIsLeft(k, meta, ms, p);
    }
  }

  lemma TracksNoClobber(k: Packet, meta: MetaDir, ms: seq<Mutation>)
    requires k.Ready() && Consistent(meta, k.tracking)
    requires Enumerates(ms, k.Due(k.tree.Keys, k.tracking.Keys))
    requires Tracks(RecordAll(meta, ms), k.tree)
    ensures k.NoClobber(ms)
  {
    var after := RecordAll(meta, ms);
    NoRepeats(ms, k.Due(k.tree.Keys, k.tracking.Keys));
    forall i | 0 <= i < |ms| && !ms[i].Removal()
      ensures var x := ms[i].info.metaName; !ms[i].Drops(x) && forall j | i < j < |ms| :: !ms[j].Touches(x)
    {
      ReportedIsDue(k, ms, i);
      var y :| y in after && after[y].path == ms[i].info.path;
      var last := LeftUnder(k, meta, ms, y);
      if 0 <= last {
        assert ms[last] == ms[i] by { ReportedIsDue(k, ms, last); }
        LastTouchDecides(meta, ms, y, last);
      }
    }
    forall p, j | p in k.tracking && k.Kept(p) && 0 <= j < |ms| ensures !ms[j].Touches(k.tracking[p].metaName) {
      var y :| y in after && after[y].path == p;
      var last := LeftUnder(k, meta, ms, y);
    }
  }

  // ---- when nothing is clobbered ----

  lemma RemovalIsDue(k: Packet, ms: seq<Mutation>, j: nat) returns (q: Path)
    requires k.Ready() && Enumerates(ms, k.Due(k.tree.Keys, k.tracking.Keys))
    requires j < |ms| && ms[j].Removal()
    ensures k.Gone(q) && ms[j] == k.RemovalReport(q)
  {
    var due := k.Due(k.tree.Keys, k.tracking.Keys);
    NoRepeats(ms, due);
    assert ms[j] in due;
    q :| q in k.tracking && k.Gone(q) && ms[j] == k.RemovalReport(q);
  }

  lemma ReportOf(k: Packet, ms: seq<Mutation>, p: Path) returns (i: nat)
    requires k.Ready() && Enumerates(ms, k.Due(k.tree.Keys, k.tracking.Keys)) && k.Dirty(p)
    ensures i < |ms| && ms[i] == k.Report(p)
  {
    NoRepeats(ms, k.Due(k.tree.Keys, k.tracking.Keys));
    assert k.Report(p) in k.Due(k.tree.Keys, k.tracking.Keys);
    i :| 0 <= i < |ms| && ms[i] == k.Report(p);
  }

  lemma RemovalOf(k: Packet, ms: seq<Mutation>, q: Path) returns (j: nat)
    requires k.Ready() && Enumerates(ms, k.Due(k.tree.Keys, k.tracking.Keys)) && k.Gone(q)
    ensures j < |ms| && ms[j] == k.RemovalReport(q)
  {
    NoRepeats(ms, k.Due(k.tree.Keys, k.tracking.Keys));
    assert k.RemovalReport(q) in k.Due(k.tree.Keys, k.tracking.Keys);
    j :| 0 <= j < |ms| && ms[j] == k.RemovalReport(q);
  }

  /** Mutations drop only files of items that are not kept. */
  lemma DropsOnlyUnkept(k: Packet, meta: MetaDir, ms: seq<Mutation>, j: nat, p: Path)
    requires k.Ready() && Consistent(meta, k.tracking)
    requires Enumerates(ms, k.Due(k.tree.Keys, k.tracking.Keys))
    requires j < |ms| && k.Kept(p)
    ensures !ms[j].Drops(k.tracking[p].metaName)
  {
    if ms[j].Removal() {
      var q := RemovalIsDue(k, ms, j);
      assert meta[k.tracking[q].metaName].path == q;
    } else {
      ReportedIsDue(k, ms, j);
      var q := ms[j].info.path;
      assert q in k.tracking ==> meta[k.tracking[q].metaName].path == q;
    }
  }

  lemma KeptUntouched(k: Packet, meta: MetaDir, ms: seq<Mutation>, j: nat, p: Path)
    requires k.Ready() && Consistent(meta, k.tracking)
    requires Enumerates(ms, k.Due(k.tree.Keys, k.tracking.Keys))
    requires j < |ms| && k.Kept(p) && forall q | k.Dirty(q) :: k.NewInfo(q).metaName != k.tracking[p].metaName
    ensures !ms[j].Touches(k.tracking[p].metaName)
  {
    DropsOnlyUnkept(k, meta, ms, j, p);
    if !ms[j].Removal() {
      ReportedIsDue(k, ms, j);
    }
  }

  /** A changed item is a file whose report drops its old metadata, and no new item has its own old name. */
  lemma ChangedReport(k: Packet, q: Path)
    requires k.Ready()
    ensures k.Changed(q) ==> k.Dirty(q) && k.tree[q].Regular? && k.Report(q).Drops(k.tracking[q].metaName)
    ensures k.Dirty(q) && q in k.tracking ==> k.NewInfo(q).metaName != k.tracking[q].metaName
  {
  }

  /** Whose report drops the name: a changed item or one that went. */
  lemma DropIsOf(k: Packet, ms: seq<Mutation>, j: nat, x: XorName) returns (q: Path)
    requires k.Ready() && Enumerates(ms, k.Due(k.tree.Keys, k.tracking.Keys))
    requires j < |ms| && ms[j].Drops(x)
    ensures q in k.tracking && k.tracking[q].metaName == x
    ensures ms[j].Removal() ==> k.Gone(q)
    ensures !ms[j].Removal() ==> k.Dirty(q) && ms[j] == k.Report(q)
  {
    if ms[j].Removal() {
      q := RemovalIsDue(k, ms, j);
    } else {
      ReportedIsDue(k, ms, j);
      q := ms[j].info.path;
    }
  }

  lemma StoredOnce(k: Packet, ms: seq<Mutation>, i: nat, j: nat)
    requires k.Ready() && Enumerates(ms, k.Due(k.tree.Keys, k.tracking.Keys))
    requires forall p, q | k.Dirty(p) && k.Dirty(q) && p != q :: k.NewInfo(p).metaName != k.NewInfo(q).metaName
    requires i < j < |ms| && !ms[i].Removal()
    ensures !ms[j].Stores(ms[i].info.metaName)
  {
    if !ms[j].Removal() {
      ReportedIsDue(k, ms, i);
      ReportedIsDue(k, ms, j);
      NoRepeats(ms, k.Due(k.tree.Keys, k.tracking.Keys));
    }
  }

  /** Recording in any order keeps everything when the names are distinct. */
  lemma DistinctNamesKeep(k: Packet, meta: MetaDir, ms: seq<Mutation>)
    requires k.Ready() && Consistent(meta, k.tracking) && k.DistinctNames()
    requires Enumerates(ms, k.Due(k.tree.Keys, k.tracking.Keys))
    ensures k.NoClobber(ms)
  {
    forall i, j | 0 <= i <= j < |ms| && !ms[i].Removal()
      ensures !ms[j].Drops(ms[i].info.metaName) && (i < j ==> !ms[j].Stores(ms[i].info.metaName))
    {
      ReportedIsDue(k, ms, i);
      if ms[j].Drops(ms[i].info.metaName) {
        var q := DropIsOf(k, ms, j, ms[i].info.metaName);
      }
      if i < j {
        StoredOnce(k, ms, i, j);
      }
    }
    forall p, j | p in k.tracking && k.Kept(p) && 0 <= j < |ms| ensures !ms[j].Touches(k.tracking[p].metaName) {
      KeptUntouched(k, meta, ms, j, p);
    }
  }

  /** A new item whose name another new item takes, or an unchanged or removed one had, is never left tracked. */
  lemma NameTaken(k: Packet, ms: seq<Mutation>, p: Path, q: Path)
    requires k.Ready() && Enumerates(ms, k.Due(k.tree.Keys, k.tracking.Keys)) && RemovalsLast(ms)
    requires k.Dirty(p)
    requires || (k.Dirty(q) && p != q && k.NewInfo(p).metaName == k.NewInfo(q).metaName)
             || (q in k.tracking && !k.Changed(q) && k.NewInfo(p).metaName == k.tracking[q].metaName)
    ensures !k.NoClobber(ms)
  {
    var i := ReportOf(k, ms, p);
    if k.Dirty(q) && p != q && k.NewInfo(p).metaName == k.NewInfo(q).metaName {
      var j := ReportOf(k, ms, q);
      assert i != j && ms[j].Stores(ms[i].info.metaName) && ms[i].Stores(ms[j].info.metaName);
    } else if k.Kept(q) {
      assert ms[i].Touches(k.tracking[q].metaName);
    } else {
      var j := RemovalOf(k, ms, q);
      RemovalAfterChange(ms, i, j);
      assert ms[j].Touches(ms[i].info.metaName);
    }
  }

  /** A new item that takes the old name of a changed file is left tracked only if it is recorded after it. */
  lemma NameGivenUp(k: Packet, ms: seq<Mutation>, p: Path, q: Path, i: nat, j: nat)
    requires k.Ready() && k.Dirty(p) && k.Changed(q) && k.NewInfo(p).metaName == k.tracking[q].metaName
    requires i < j < |ms| && ms[i] == k.Report(p) && ms[j] == k.Report(q)
    ensures !k.NoClobber(ms)
  {
    ChangedReport(k, q);
    assert ms[j].Touches(ms[i].info.metaName);
  }

  // some order of a set

  lemma {:induction false} SomeOrder<T>(all: set<T>) returns (s: seq<T>)
    ensures Enumerates(s, all)
    decreases |all|
  {
    s := [];
    if all != {} {
      var x :| x in all;
      s := SomeOrder(all - {x});
      AppendNew(s, all - {x}, x);
      assert all - {x} + {x} == all;
      s := s + [x];
    }
  }

  lemma {:induction false} OneAfterTheOther<T>(a: seq<T>, all: set<T>, b: seq<T>, more: set<T>)
    requires Enumerates(a, all) && Enumerates(b, more) && all !! more
    ensures Enumerates(a + b, all + more)
    decreases |b|
  {
    if b == [] {
      assert a + b == a && all + more == all;
    } else {
      var n := |b| - 1;
      OneAfterTheOther(a, all, b[..n], more - {b[n]});
      AppendNew(a + b[..n], all + (more - {b[n]}), b[n]);
      assert a + b == a + b[..n] + [b[n]] && all + more == all + (more - {b[n]}) + {b[n]};
    }
  }

  lemma {:induction false} ChangesThenRemovals(a: seq<Mutation>, b: seq<Mutation>)
    requires (forall m | m in a :: !m.Removal()) && forall m | m in b :: m.Removal()
    ensures RemovalsLast(a + b)
    decreases |b|
  {
    if b == [] {
      assert a + b == a;
      AllChanges(a);
    } else {
      var n := |b| - 1;
      ChangesThenRemovals(a, b[..n]);
      assert (a + b)[..|a + b| - 1] == a + b[..n];
    }
  }

  lemma {:induction false} AllChanges(a: seq<Mutation>)
    requires forall m | m in a :: !m.Removal()
    ensures NoRemovals(a)
    decreases |a|
  {
    if a != [] {
      AllChanges(a[..|a| - 1]);
    }
  }

  /** What is due can be reported with any change first and the removals last. */
  lemma ReportedFirst(due: set<Mutation>, m: Mutation) returns (ms: seq<Mutation>)
    requires m in due && !m.Removal()
    ensures Enumerates(ms, due) && RemovalsLast(ms) && ms != [] && ms[0] == m
  {
    var removals := set x | x in due && x.Removal();
    var others := due - removals - {m};
    var a := SomeOrder(others);
    var b := SomeOrder(removals);
    var none: seq<Mutation> := [];
    AppendNew(none, {}, m);
    assert none + [m] == [m] && {} + {m} == {m};
    ms := [m] + a + b;
    assert Enumerates(ms, due) by {
      OneAfterTheOther([m], {m}, a, others);
      OneAfterTheOther([m] + a, {m} + others, b, removals);
      assert {m} + others + removals == due;
    }
    assert RemovalsLast(ms) by {
      NoRepeats(a, others);
      NoRepeats(b, removals);
      ChangesThenRemovals([m] + a, b);
    }
  }

  /** Whatever order the items are visited in, recording a scan makes the tracking describe the tree, if and only if
      the names of the new metadata chunks differ from each other and from all that are tracked. */
  lemma TracksInAnyOrderIff(k: Packet, meta: MetaDir)
    requires k.Ready() && Consistent(meta, k.tracking)
    ensures (forall ms | Enumerates(ms, k.Due(k.tree.Keys, k.tracking.Keys)) && RemovalsLast(ms) ::
               Tracks(RecordAll(meta, ms), k.tree))
            <==> k.DistinctNames()
  {
    var due := k.Due(k.tree.Keys, k.tracking.Keys);
    if k.DistinctNames() {
      forall ms | Enumerates(ms, due) && RemovalsLast(ms) ensures Tracks(RecordAll(meta, ms), k.tree) {
        DistinctNamesKeep(k, meta, ms);
        RecordedTracksIff(k, meta, ms);
      }
    } else {
      var ms := SomeOrderFails(k);
      RecordedTracksIff(k, meta, ms);
    }
  }

  lemma SomeOrderFails(k: Packet) returns (ms: seq<Mutation>)
    requires k.Ready() && !k.DistinctNames()
    ensures Enumerates(ms, k.Due(k.tree.Keys, k.tracking.Keys)) && RemovalsLast(ms) && !k.NoClobber(ms)
  {
    if p, q :| k.Dirty(p) && k.Dirty(q) && p != q && k.NewInfo(p).metaName == k.NewInfo(q).metaName {
      ms := FirstReported(k, p);
      NameTaken(k, ms, p, q);
    } else {
      var p, q :| k.Dirty(p) && q in k.tracking && k.NewInfo(p).metaName == k.tracking[q].metaName;
      ms := FirstReported(k, p);
      TakenInThatOrder(k, ms, p, q);
    }
  }

  lemma FirstReported(k: Packet, p: Path) returns (ms: seq<Mutation>)
    requires k.Ready() && k.Dirty(p)
    ensures Enumerates(ms, k.Due(k.tree.Keys, k.tracking.Keys)) && RemovalsLast(ms) && ms != [] && ms[0] == k.Report(p)
  {
    var due := k.Due(k.tree.Keys, k.tracking.Keys);
    assert k.Report(p) in due;
    ms := ReportedFirst(due, k.Report(p));
  }

  lemma TakenInThatOrder(k: Packet, ms: seq<Mutation>, p: Path, q: Path)
    requires k.Ready() && Enumerates(ms, k.Due(k.tree.Keys, k.tracking.Keys)) && RemovalsLast(ms)
    requires k.Dirty(p) && q in k.tracking && k.NewInfo(p).metaName == k.tracking[q].metaName
    requires ms != [] && ms[0] == k.Report(p)
    ensures !k.NoClobber(ms)
  {
    if k.Changed(q) {
      ChangedReport(k, p);
      ChangedReport(k, q);
      var j := ReportOf(k, ms, q);
      NameGivenUp(k, ms, p, q, 0, j);
    } else {
      NameTaken(k, ms, p, q);
    }
  }

  // the same for one order of the files

  lemma {:induction false} ReportsInOrder(k: Packet, files: seq<Path>, a: nat, b: nat)
    requires k.Ready()
    requires a < b < |files| && k.Dirty(files[a]) && k.Dirty(files[b])
    ensures Before(k.FileReports(files), k.Report(files[a]), k.Report(files[b]))
    decreases |files|
  {
    var n := |files| - 1;
    var reports := k.FileReports(files[..n]);
    if b < n {
      ReportsInOrder(k, files[..n], a, b);
      var i, j :| 0 <= i < j < |reports| && reports[i] == k.Report(files[a]) && reports[j] == k.Report(files[b]);
      assert k.FileReports(files)[i] == reports[i] && k.FileReports(files)[j] == reports[j];
    } else {
      var i := ReportIsThere(k, files[..n], a);
      assert k.FileReports(files)[i] == k.Report(files[a]) && k.FileReports(files)[|reports|] == k.Report(files[b]);
    }
  }

  lemma {:induction false} ReportIsThere(k: Packet, files: seq<Path>, a: nat) returns (i: nat)
    requires k.Ready()
    requires a < |files| && k.Dirty(files[a])
    ensures i < |k.FileReports(files)| && k.FileReports(files)[i] == k.Report(files[a])
    decreases |files|
  {
    var n := |files| - 1;
    if a < n {
      i := ReportIsThere(k, files[..n], a);
    } else {
      i := |k.FileReports(files[..n])|;
    }
  }

  lemma SitsInside<T>(before: seq<T>, part: seq<T>, s: seq<T>)
    requires before + part <= s
    ensures Sits(part, s, |before|)
  {
    assert s[..|before + part|] == before + part;
  }

  lemma SitsBefore<T>(part: seq<T>, s: seq<T>, from: nat, x: T, y: T)
    requires Sits(part, s, from) && Before(part, x, y)
    ensures Before(s, x, y)
  {
    var i, j :| 0 <= i < j < |part| && part[i] == x && part[j] == y;
    assert s[from + i] == part[i] && s[from + j] == part[j];
  }

  lemma BeforeIsIndex<T>(s: seq<T>, all: set<T>, x: T, y: T, i: nat, j: nat)
    requires Enumerates(s, all) && Before(s, x, y) && i < |s| && j < |s| && s[i] == x && s[j] == y
    ensures i < j
  {
    NoRepeats(s, all);
  }

  /** The visited files and the mutations of a scan that visited them in this order. */
  ghost predicate Scanned(k: Packet, ms: seq<Mutation>, files: seq<Path>)
    requires k.Ready()
  {
    && Enumerates(ms, k.Due(k.tree.Keys, k.tracking.Keys)) && RemovalsLast(ms)
    && Lists(files, set p | p in k.tree && k.tree[p].Regular?)
    && k.InFileOrder(ms, files)
  }

  /** A changed file visited before another is reported before it. */
  lemma VisitedBefore(k: Packet, ms: seq<Mutation>, files: seq<Path>, q: Path, p: Path)
    requires k.Ready() && Scanned(k, ms, files) && k.Dirty(q) && k.Dirty(p) && Before(files, q, p)
    ensures Before(ms, k.Report(q), k.Report(p))
  {
    var a, b :| 0 <= a < b < |files| && files[a] == q && files[b] == p;
    var from :| Sits(k.FileReports(files), ms, from);
    ReportsInOrder(k, files, a, b);
    SitsBefore(k.FileReports(files), ms, from, k.Report(q), k.Report(p));
  }

  lemma EitherBefore(k: Packet, ms: seq<Mutation>, files: seq<Path>, q: Path, p: Path)
    requires k.Ready() && Scanned(k, ms, files) && p != q
    requires p in k.tree && k.tree[p].Regular? && q in k.tree && k.tree[q].Regular?
    ensures Before(files, q, p) || Before(files, p, q)
  {
    assert p in PathsOf(files) && q in PathsOf(files);
    var a, b :| 0 <= a < |files| && 0 <= b < |files| && files[a] == q && files[b] == p;
  }

  /** A new file that takes the name a changed file gave up was visited after it, if nothing is clobbered. */
  lemma GivenUpBefore(k: Packet, ms: seq<Mutation>, files: seq<Path>, p: Path, q: Path)
    requires k.Ready() && Scanned(k, ms, files) && k.NoClobber(ms)
    requires k.Dirty(p) && q in k.tracking && k.NewInfo(p).metaName == k.tracking[q].metaName
    ensures k.Changed(q) && Before(files, q, p)
  {
    if !k.Changed(q) {
      NameTaken(k, ms, p, q);
    }
    ChangedReport(k, p);
    ChangedReport(k, q);
    EitherBefore(k, ms, files, q, p);
    if Before(files, p, q) {
      VisitedBefore(k, ms, files, p, q);
      var i, j :| 0 <= i < j < |ms| && ms[i] == k.Report(p) && ms[j] == k.Report(q);
      NameGivenUp(k, ms, p, q, i, j);
    }
  }

  lemma NoClobberNamesHold(k: Packet, ms: seq<Mutation>, files: seq<Path>)
    requires k.Ready() && Scanned(k, ms, files) && k.NoClobber(ms)
    ensures k.NamesHold(files)
  {
    forall p, q | k.Dirty(p) && k.Dirty(q) && p != q ensures k.NewInfo(p).metaName != k.NewInfo(q).metaName {
      if k.NewInfo(p).metaName == k.NewInfo(q).metaName {
        NameTaken(k, ms, p, q);
      }
    }
    forall p, q | k.Dirty(p) && q in k.tracking && k.NewInfo(p).metaName == k.tracking[q].metaName
      ensures k.Changed(q) && Before(files, q, p)
    {
      GivenUpBefore(k, ms, files, p, q);
    }
  }

  /** Where names hold, whoever drops the name of an item comes before it. */
  lemma DropsEarlier(k: Packet, ms: seq<Mutation>, files: seq<Path>, q: Path, p: Path, j: nat, i: nat)
    requires k.Ready() && Scanned(k, ms, files) && k.Dirty(q) && k.Dirty(p) && Before(files, q, p)
    requires j < |ms| && i < |ms| && ms[j] == k.Report(q) && ms[i] == k.Report(p)
    ensures j < i
  {
    VisitedBefore(k, ms, files, q, p);
    BeforeIsIndex(ms, k.Due(k.tree.Keys, k.tracking.Keys), k.Report(q), k.Report(p), j, i);
  }

  /** No later mutation drops what was stored. */
  lemma HoldingNames(k: Packet, ms: seq<Mutation>, files: seq<Path>, i: nat, j: nat)
    requires k.Ready() && Scanned(k, ms, files) && k.NamesHold(files)
    requires i <= j < |ms| && !ms[i].Removal()
    ensures !ms[j].Drops(ms[i].info.metaName)
  {
    ReportedIsDue(k, ms, i);
    if ms[j].Drops(ms[i].info.metaName) {
      var q := DropIsOf(k, ms, j, ms[i].info.metaName);
      DropsEarlier(k, ms, files, q, ms[i].info.path, j, i);
    }
  }

  lemma NamesHoldKeep(k: Packet, meta: MetaDir, ms: seq<Mutation>, files: seq<Path>)
    requires k.Ready() && Consistent(meta, k.tracking) && Scanned(k, ms, files) && k.NamesHold(files)
    ensures k.NoClobber(ms)
  {
    forall i, j | 0 <= i <= j < |ms| && !ms[i].Removal()
      ensures !ms[j].Drops(ms[i].info.metaName) && (i < j ==> !ms[j].Stores(ms[i].info.metaName))
    {
      HoldingNames(k, ms, files, i, j);
      if i < j {
        StoredOnce(k, ms, i, j);
      }
    }
    forall p, j | p in k.tracking && k.Kept(p) && 0 <= j < |ms| ensures !ms[j].Touches(k.tracking[p].metaName) {
      KeptUntouched(k, meta, ms, j, p);
    }
  }

  /** With the files visited in a given order, recording the scan makes the tracking describe the tree if and only if
      the names hold for that order. */
  lemma TracksInOrderIff(k: Packet, meta: MetaDir, ms: seq<Mutation>, files: seq<Path>)
    requires k.Ready() && Consistent(meta, k.tracking) && Scanned(k, ms, files)
    ensures Tracks(RecordAll(meta, ms), k.tree) <==> k.NamesHold(files)
  {
    RecordedTracksIff(k, meta, ms);
    if k.NoClobber(ms) {
      NoClobberNamesHold(k, ms, files);
    }
    if k.NamesHold(files) {
      NamesHoldKeep(k, meta, ms, files);
    }
  }

  /** Each new metadata chunk is encrypted under randomness of its own that no tracked chunk used. */
  ghost predicate PrivateDraws(k: Packet)
    requires k.Ready()
  {
    && (forall p | p in k.tree :: k.draws[p].Some?)
    && (forall p, q | p in k.tree && q in k.tree && p != q :: k.draws[p] != k.draws[q])
    && (forall p, q | p in k.tree && q in k.tracking :: k.tracking[q].metaName.chunk.encryption != k.draws[p])
  }

  /** Private data is always tracked correctly: recording the scan describes the tree. */
  lemma PrivateSyncTracks(k: Packet, meta: MetaDir, ms: seq<Mutation>)
    requires k.Ready() && Consistent(meta, k.tracking) && PrivateDraws(k)
    requires Enumerates(ms, k.Due(k.tree.Keys, k.tracking.Keys))
    ensures k.DistinctNames() && Tracks(RecordAll(meta, ms), k.tree)
  {
    DistinctNamesKeep(k, meta, ms);
    RecordedTracksIff(k, meta, ms);
  }

  /** The tracked item's metadata chunk is the public one of a file with this name and content. */
  ghost predicate PublicFile(i: Info, name: string, chunk: Chunk)
  {
    i.metaName == NameOf(MetaChunk(Metadata(name, File(chunk)), None))
  }

  /** In public mode every new file whose name and content equal those of another file that is new,
      unchanged or removed makes the tracking miss a file. */
  lemma PublicTwinBreaksTracking(k: Packet, meta: MetaDir, ms: seq<Mutation>, p: Path, q: Path)
    requires k.Ready() && Consistent(meta, k.tracking)
    requires Enumerates(ms, k.Due(k.tree.Keys, k.tracking.Keys)) && RemovalsLast(ms)
    requires k.Dirty(p) && k.tree[p].Regular? && k.draws[p] == None && p != q
    requires
      || (k.Dirty(q) && k.tree[q] == k.tree[p] && Name(q) == Name(p) && k.draws[q] == None)
      || ((k.Kept(q) || k.Gone(q)) && PublicFile(k.tracking[q], Name(p), k.tree[p].chunk))
    ensures !Tracks(RecordAll(meta, ms), k.tree)
  {
    NameTaken(k, ms, p, q);
    RecordedTracksIff(k, meta, ms);
  }

  // ---- the folders on the network ----

  /** The register of a tracked folder shows exactly the tracked items of that folder;
      the register of a folder that is not tracked yet has nothing in it. */
  ghost predicate Mirrored(k: Packet, remote: RegisterAddress -> set<Entry>, d: Path)
    requires k.Ready() && d in k.tree
  {
    var nodes := remote(k.AddressOf(d));
    if d == [] || k.KnownFolder(d) then
      Closed(nodes) && Live(nodes).Keys == (set p | p in k.tracking && Parent(p) == d :: k.tracking[p].entry)
    else
      nodes == {}
  }

  /** The nodes of new and changed items of the directory are new to its register. */
  ghost predicate FreshNodes(k: Packet, nodes: set<Entry>, d: Path)
    requires k.Ready()
  {
    forall p | k.Dirty(p) && Parent(p) == d :: k.NewInfo(p).entry !in nodes
  }

  lemma PendingIsFreshLayer(k: Packet, remote: RegisterAddress -> set<Entry>, d: Path)
    requires k.Ready() && d in k.tree && TrackingTree(k.tracking) && Mirrored(k, remote, d)
    requires FreshNodes(k, remote(k.AddressOf(d)), d)
    ensures FreshLayer(remote(k.AddressOf(d)), k.Pending(d, k.tree.Keys, k.tracking.Keys))
  {
    var nodes := remote(k.AddressOf(d));
    var layer := k.Pending(d, k.tree.Keys, k.tracking.Keys);
    TrackedIsRead(k, remote, d);
    forall n | n in layer
      ensures n !in nodes && n.children <= Read(nodes)
    {
      PendingShape(k, d, n);
      if n in nodes {
        ClosedIsDelivered(nodes, n);
      }
    }
    assert forall n, c | n in layer && c in n.children :: Delivered(nodes, c) && c in nodes;
  }

  lemma TrackedIsRead(k: Packet, remote: RegisterAddress -> set<Entry>, d: Path)
    requires k.Ready() && d in k.tree && TrackingTree(k.tracking) && Mirrored(k, remote, d)
    ensures forall p | p in k.tracking && Parent(p) == d :: k.tracking[p].entry in Read(remote(k.AddressOf(d)))
    ensures Closed(remote(k.AddressOf(d)))
  {
    forall p | p in k.tracking && Parent(p) == d ensures k.tracking[p].entry in Read(remote(k.AddressOf(d))) {
      assert k.tracking[p].entry in Live(remote(k.AddressOf(d)));
    }
  }

  lemma PendingShape(k: Packet, d: Path, n: Entry)
    requires k.Ready() && n in k.Pending(d, k.tree.Keys, k.tracking.Keys)
    ensures (exists p :: k.Dirty(p) && Parent(p) == d && n == k.NewInfo(p).entry)
            || (exists p :: k.Gone(p) && Parent(p) == d && n == Node(RemovedMark, {k.tracking[p].entry}))
  {
  }

  /** The written nodes replace exactly the entries of the items that are not kept. */
  lemma PendingReplaces(k: Packet, meta: MetaDir, d: Path, p: Path)
    requires k.Ready() && Consistent(meta, k.tracking)
    requires p in k.tracking && Parent(p) == d
    ensures k.tracking[p].entry in Named(k.Pending(d, k.tree.Keys, k.tracking.Keys)) <==> !k.Kept(p)
  {
  }

  /** What folder `d` should show: kept items with their entry and new ones with theirs. */
  ghost function Shown(k: Packet, d: Path): set<Entry>
    requires k.Ready()
  {
    set p | p in k.tree && p != [] && Parent(p) == d :: Wanted(k, p).entry
  }

  lemma FreshNodesMirror(k: Packet, meta: MetaDir, remote: RegisterAddress -> set<Entry>, d: Path)
    requires k.Ready() && Consistent(meta, k.tracking) && d in k.tree && k.tree[d].Dir?
    requires TrackingTree(k.tracking) && Mirrored(k, remote, d)
    requires FreshNodes(k, remote(k.AddressOf(d)), d)
    ensures Live(remote(k.AddressOf(d)) + k.Pending(d, k.tree.Keys, k.tracking.Keys)).Keys == Shown(k, d)
  {
    var nodes := remote(k.AddressOf(d));
    var layer := k.Pending(d, k.tree.Keys, k.tracking.Keys);
    PendingIsFreshLayer(k, remote, d);
    ReadAfterLayer(nodes, layer);
    var shown := Shown(k, d);
    forall n | n in Live(nodes + layer).Keys ensures n in shown {
      if n in layer {
        PendingShape(k, d, n);
        var p :| k.Dirty(p) && Parent(p) == d && n == k.NewInfo(p).entry;
        assert n == Wanted(k, p).entry;
      } else {
        assert n in Live(nodes);
        var p :| p in k.tracking && Parent(p) == d && n == k.tracking[p].entry;
        PendingReplaces(k, meta, d, p);
        assert n == Wanted(k, p).entry;
      }
    }
    forall n | n in shown ensures n in Live(nodes + layer).Keys {
      var p :| p in k.tree && p != [] && Parent(p) == d && n == Wanted(k, p).entry;
      if k.Dirty(p) {
        assert n in layer;
      } else {
        assert n in Live(nodes);
        PendingReplaces(k, meta, d, p);
      }
    }
  }

  /** The entry of a new item is not a tracked one of its directory: that would be its own, and the item unchanged. */
  lemma NewEntryIsNotTracked(k: Packet, p: Path, q: Path)
    requires k.Ready() && k.Dirty(p) && q in k.tracking && Parent(q) == Parent(p)
    ensures k.NewInfo(p).entry != k.tracking[q].entry
  {
    assert q == Parent(q) + [Name(q)] && p == Parent(p) + [Name(p)];
  }

  /** A node of a new item that is in the register already was superseded since. */
  lemma OldNodeIsHidden(k: Packet, remote: RegisterAddress -> set<Entry>, d: Path, p: Path)
    requires k.Ready() && d in k.tree && TrackingTree(k.tracking) && Mirrored(k, remote, d)
    requires k.Dirty(p) && Parent(p) == d && k.NewInfo(p).entry in remote(k.AddressOf(d))
    ensures Superseded(remote(k.AddressOf(d)), k.NewInfo(p).entry)
  {
    var nodes, n := remote(k.AddressOf(d)), k.NewInfo(p).entry;
    assert Delivered(nodes, n) by {
      TrackedIsRead(k, remote, d);
      ClosedIsDelivered(nodes, n);
    }
    if n in Live(nodes).Keys {
      var q :| q in k.tracking && Parent(q) == d && n == k.tracking[q].entry;
      NewEntryIsNotTracked(k, p, q);
    }
  }

  /** Once the written nodes are merged into the registers on the network, every folder shows exactly the items its
      directory holds, if and only if the nodes of its new and changed items are new to its register. */
  lemma FoldersMirrorDiskIff(k: Packet, meta: MetaDir, remote: RegisterAddress -> set<Entry>, d: Path)
    requires k.Ready() && Consistent(meta, k.tracking) && d in k.tree && k.tree[d].Dir?
    requires TrackingTree(k.tracking) && Mirrored(k, remote, d)
    ensures Live(remote(k.AddressOf(d)) + k.Pending(d, k.tree.Keys, k.tracking.Keys)).Keys == Shown(k, d)
            <==> FreshNodes(k, remote(k.AddressOf(d)), d)
  {
    var nodes := remote(k.AddressOf(d));
    if FreshNodes(k, nodes, d) {
      FreshNodesMirror(k, meta, remote, d);
    } else {
      var p :| k.Dirty(p) && Parent(p) == d && k.NewInfo(p).entry in nodes;
      OldNodeIsHidden(k, remote, d, p);
      StaysSuperseded(nodes, k.Pending(d, k.tree.Keys, k.tracking.Keys), k.NewInfo(p).entry);
      assert Wanted(k, p).entry in Shown(k, d);
    }
  }

  lemma StaysSuperseded(nodes: set<Entry>, more: set<Entry>, n: Entry)
    requires Superseded(nodes, n)
    ensures Superseded(nodes + more, n)
  {
    var m :| m in nodes && n in m.children && Delivered(nodes, m);
    DeliveredMonotone(nodes, nodes + more, m);
  }

  /** `next` tracks exactly what the completed scan `k` should leave. */
  ghost predicate Recorded(k: Packet, next: Packet)
    requires k.Ready()
  {
    && next.root == k.root && next.tracking.Keys == k.tree.Keys - {[]}
    && forall p | p in next.tracking :: next.tracking[p] == Wanted(k, p)
  }

  lemma RecordedIsTree(k: Packet, next: Packet)
    requires k.Ready() && Recorded(k, next)
    ensures TrackingTree(next.tracking)
  {
  }

  lemma RecordedAddress(k: Packet, next: Packet, d: Path)
    requires k.Ready() && next.Ready() && Recorded(k, next)
    requires d in k.tree && k.tree[d].Dir? && d in next.tree
    ensures next.AddressOf(d) == k.AddressOf(d) && (d == [] || next.KnownFolder(d))
  {
  }

  /** After a sync the tracked items form a tree again and, once the nodes are merged, every tracked folder mirrors
      them, if and only if the nodes were new: the assumptions of the next sync, whatever happens to the disk. */
  lemma SyncKeepsMirrorIff(k: Packet, meta: MetaDir, remote: RegisterAddress -> set<Entry>,
                           next: Packet, merged: RegisterAddress -> set<Entry>, d: Path)
    requires k.Ready() && Consistent(meta, k.tracking) && TrackingTree(k.tracking)
    requires d in k.tree && k.tree[d].Dir? && Mirrored(k, remote, d)
    requires merged(k.AddressOf(d)) == remote(k.AddressOf(d)) + k.Pending(d, k.tree.Keys, k.tracking.Keys)
    requires next.Ready() && Recorded(k, next) && d in next.tree
    ensures TrackingTree(next.tracking)
    ensures Mirrored(next, merged, d) <==> FreshNodes(k, remote(k.AddressOf(d)), d)
  {
    RecordedIsTree(k, next);
    RecordedAddress(k, next, d);
    FoldersMirrorDiskIff(k, meta, remote, d);
    MergedIsClosed(k, remote, d);
    SameItems(k, next, d);
  }

  lemma SameItems(k: Packet, next: Packet, d: Path)
    requires k.Ready() && next.Ready() && Recorded(k, next)
    ensures Shown(k, d) == (set p | p in next.tracking && Parent(p) == d :: next.tracking[p].entry)
  {
  }

  lemma MergedIsClosed(k: Packet, remote: RegisterAddress -> set<Entry>, d: Path)
    requires k.Ready() && d in k.tree && TrackingTree(k.tracking) && Mirrored(k, remote, d)
    ensures Closed(remote(k.AddressOf(d)) + k.Pending(d, k.tree.Keys, k.tracking.Keys))
  {
    TrackedIsRead(k, remote, d);
    forall n | n in k.Pending(d, k.tree.Keys, k.tracking.Keys) ensures n.children <= remote(k.AddressOf(d)) {
      PendingShape(k, d, n);
    }
  }

  /** A public file that one sync removes and a later one finds back unchanged is not shown again. */
  lemma ReAddedFileIsMissed(k: Packet, meta: MetaDir, remote: RegisterAddress -> set<Entry>, p: Path,
                            next: Packet, later: MetaDir, merged: RegisterAddress -> set<Entry>)
    requires k.Ready() && Consistent(meta, k.tracking) && TrackingTree(k.tracking)
    requires p in k.tracking && p !in k.tree && Parent(p) in k.tree && k.tree[Parent(p)].Dir?
    requires Mirrored(k, remote, Parent(p)) && FreshNodes(k, remote(k.AddressOf(Parent(p))), Parent(p))
    requires merged(k.AddressOf(Parent(p)))
          == remote(k.AddressOf(Parent(p))) + k.Pending(Parent(p), k.tree.Keys, k.tracking.Keys)
    requires next.Ready() && Recorded(k, next) && Consistent(later, next.tracking)
    requires p in next.tree && next.tree[p].Regular? && next.draws[p] == None
    requires k.tracking[p].entry.children == {} && PublicFile(k.tracking[p], Name(p), next.tree[p].chunk)
    ensures var d := Parent(p);
            && Mirrored(next, merged, d)
            && Live(merged(next.AddressOf(d)) + next.Pending(d, next.tree.Keys, next.tracking.Keys)).Keys
               != Shown(next, d)
  {
    var d := Parent(p);
    SyncKeepsMirrorIff(k, meta, remote, next, merged, d);
    RecordedAddress(k, next, d);
    TrackedIsRead(k, remote, d);
    assert next.Dirty(p) && next.NewInfo(p).entry == k.tracking[p].entry;
    FoldersMirrorDiskIff(next, later, merged, d);
  }

  /** The file of the instance below: its tracked information, with the entry of a first addition. */
  function OneFile(): Info
  {
    var metadata := Metadata("a", File(0));
    var name := NameOf(MetaChunk(metadata, None));
    Info(["a"], name, metadata, Node(name, {}))
  }

  function WithoutFile(): Packet
  {
    Packet(map[[] := Dir], map[["a"] := OneFile()], 0, true, map[[] := 0], map[[] := None])
  }

  function WithFileBack(): Packet
  {
    Packet(map[[] := Dir, ["a"] := Regular(0)], map[], 0, true,
           map[[] := 0, ["a"] := 1], map[[] := None, ["a"] := None])
  }

  function OneFileAdded(a: RegisterAddress): set<Entry> { {OneFile().entry} }

  function OneFileRemoved(a: RegisterAddress): set<Entry>
  {
    {OneFile().entry, Node(RemovedMark, {OneFile().entry})}
  }

  lemma OneFileIsShown()
    ensures WithoutFile().Ready() && Mirrored(WithoutFile(), OneFileAdded, [])
    ensures FreshNodes(WithoutFile(), OneFileAdded(0), [])
  {
    var e := OneFile().entry;
    NotItsOwnChild(e);
    assert Delivered({e}, e) && !Superseded({e}, e);
    assert Live({e}).Keys == {e};
    assert Parent(["a"]) == [];
  }

  lemma OneFileIsRemoved()
    ensures WithoutFile().Ready()
    ensures OneFileRemoved(0)
         == OneFileAdded(0) + WithoutFile().Pending([], WithoutFile().tree.Keys, WithoutFile().tracking.Keys)
  {
    assert Parent(["a"]) == [];
    assert WithoutFile().Gone(["a"]);
  }

  lemma OneFileIsRecorded()
    ensures WithoutFile().Ready() && WithFileBack().Ready() && Recorded(WithoutFile(), WithFileBack())
    ensures Consistent(map[OneFile().metaName := OneFile()], WithoutFile().tracking)
    ensures TrackingTree(WithoutFile().tracking)
  {
    assert Parent(["a"]) == [];
  }

  /** An instance: a folder of one public file, which is removed, synced, put back and synced again. */
  lemma OneFileIsMissed()
    ensures && WithFileBack().Ready() && Mirrored(WithFileBack(), OneFileRemoved, [])
            && Live(OneFileRemoved(0) + WithFileBack().Pending([], WithFileBack().tree.Keys, {})).Keys
               != Shown(WithFileBack(), [])
  {
    var k, next, meta := WithoutFile(), WithFileBack(), map[OneFile().metaName := OneFile()];
    OneFileIsShown();
    OneFileIsRemoved();
    OneFileIsRecorded();
    assert Parent(["a"]) == [] && Consistent(map[], next.tracking);
    assert next.tracking.Keys == {};
    ReAddedFileIsMissed(k, meta, OneFileAdded, ["a"], next, map[], OneFileRemoved);
  }

  // ---- scanning step by step ----

  lemma DueAfterItem(k: Packet, done: set<Path>, checked: set<Path>, p: Path)
    requires k.Ready() && p in k.tree && p !in done
    ensures k.Due(done + {p}, checked) == k.Due(done, checked) + (if k.Dirty(p) then {k.Report(p)} else {})
    ensures k.Dirty(p) ==> k.Report(p) !in k.Due(done, checked)
  {
    var before, after := k.Due(done, checked), k.Due(done + {p}, checked);
    forall m | m in after ensures m in before || (k.Dirty(p) && m == k.Report(p)) {
      if q :| q in checked && k.Gone(q) && m == k.RemovalReport(q) {
      } else {
        var q :| q in done + {p} && k.Dirty(q) && m == k.Report(q);
      }
    }
    assert k.Dirty(p) ==> k.Report(p) in after;
    assert before <= after;
  }

  lemma DueAfterTracked(k: Packet, done: set<Path>, checked: set<Path>, p: Path)
    requires k.Ready() && p in k.tracking && p !in checked
    ensures k.Due(done, checked + {p}) == k.Due(done, checked) + (if k.Gone(p) then {k.RemovalReport(p)} else {})
    ensures k.Gone(p) ==> k.RemovalReport(p) !in k.Due(done, checked)
  {
    var before, after := k.Due(done, checked), k.Due(done, checked + {p});
    forall m | m in after ensures m in before || (k.Gone(p) && m == k.RemovalReport(p)) {
      if q :| q in done && k.Dirty(q) && m == k.Report(q) {
      } else {
        var q :| q in checked + {p} && k.Gone(q) && m == k.RemovalReport(q);
      }
    }
    assert k.Gone(p) ==> k.RemovalReport(p) in after;
    assert before <= after;
  }

  lemma PendingAfterItem(k: Packet, d: Path, done: set<Path>, checked: set<Path>, p: Path)
    requires k.Ready() && p in k.tree
    ensures k.Pending(d, done + {p}, checked) ==
            k.Pending(d, done, checked) + (if k.Dirty(p) && Parent(p) == d then {k.NewInfo(p).entry} else {})
  {
  }

  lemma PendingAfterTracked(k: Packet, d: Path, done: set<Path>, checked: set<Path>, p: Path)
    requires k.Ready() && p in k.tracking
    ensures k.Pending(d, done, checked + {p}) ==
            k.Pending(d, done, checked)
            + (if k.Gone(p) && Parent(p) == d then {Node(RemovedMark, {k.tracking[p].entry})} else {})
  {
  }

  ghost function PathsOf(s: seq<Path>): set<Path>
  {
    set p | p in s
  }

  /** The state of a scan after some items: every folder read so far is written up to date. */
  ghost predicate ScanState(k: Packet, folders: map<Path, FolderState>, ms: seq<Mutation>,
                            done: set<Path>, checked: set<Path>)
    requires k.Ready()
  {
    && folders.Keys <= k.tree.Keys && done <= k.tree.Keys && checked <= k.tracking.Keys
    && (forall d | d in folders :: k.Written(d, folders[d], done, checked))
    && Enumerates(ms, k.Due(done, checked))
  }

  lemma AppendNew<T>(s: seq<T>, all: set<T>, x: T)
    requires Enumerates(s, all) && x !in all
    ensures Enumerates(s + [x], all + {x})
  {
  }

  lemma WrittenAfterItem(k: Packet, d: Path, f: FolderState, done: set<Path>, p: Path)
    requires k.Ready() && d in k.tree && k.Written(d, f, done, {}) && p in k.tree
    ensures k.Written(d, if k.Dirty(p) && Parent(p) == d then f.Write(k.NewInfo(p).entry) else f, done + {p}, {})
  {
    PendingAfterItem(k, d, done, {}, p);
  }

  lemma WrittenAfterTracked(k: Packet, d: Path, f: FolderState, done: set<Path>, checked: set<Path>, p: Path)
    requires k.Ready() && d in k.tree && k.Written(d, f, done, checked) && p in k.tracking
    ensures k.Written(d, if k.Gone(p) && Parent(p) == d then f.Write(Node(RemovedMark, {k.tracking[p].entry})) else f,
                      done, checked + {p})
  {
    PendingAfterTracked(k, d, done, checked, p);
  }

  lemma ItemStep(k: Packet, folders: map<Path, FolderState>, ms: seq<Mutation>, done: set<Path>, p: Path)
    requires k.Ready() && ScanState(k, folders, ms, done, {}) && p in k.tree && p !in done && p != []
    requires Parent(p) in folders
    ensures k.Dirty(p) ==> ScanState(k, folders[Parent(p) := folders[Parent(p)].Write(k.NewInfo(p).entry)],
                                     ms + [k.Report(p)], done + {p}, {})
    ensures !k.Dirty(p) ==> ScanState(k, folders, ms, done + {p}, {})
  {
    DueAfterItem(k, done, {}, p);
    if k.Dirty(p) {
      AppendNew(ms, k.Due(done, {}), k.Report(p));
    } else {
      assert k.Due(done + {p}, {}) == k.Due(done, {});
    }
    forall d | d in folders
      ensures k.Written(d, if k.Dirty(p) && Parent(p) == d then folders[d].Write(k.NewInfo(p).entry) else folders[d],
                        done + {p}, {})
    {
      WrittenAfterItem(k, d, folders[d], done, p);
    }
  }

  lemma TrackedStep(k: Packet, folders: map<Path, FolderState>, ms: seq<Mutation>,
                    done: set<Path>, checked: set<Path>, p: Path)
    requires k.Ready() && ScanState(k, folders, ms, done, checked) && p in k.tracking && p !in checked
    ensures k.Gone(p) ==>
      var n := Node(RemovedMark, {k.tracking[p].entry});
      ScanState(k, if Parent(p) in folders then folders[Parent(p) := folders[Parent(p)].Write(n)] else folders,
                ms + [k.RemovalReport(p)], done, checked + {p})
    ensures !k.Gone(p) ==> ScanState(k, folders, ms, done, checked + {p})
  {
    DueAfterTracked(k, done, checked, p);
    if k.Gone(p) {
      AppendNew(ms, k.Due(done, checked), k.RemovalReport(p));
    } else {
      assert k.Due(done, checked + {p}) == k.Due(done, checked);
    }
    forall d | d in folders
      ensures k.Written(d, if k.Gone(p) && Parent(p) == d
                           then folders[d].Write(Node(RemovedMark, {k.tracking[p].entry})) else folders[d],
                        done, checked + {p})
    {
      WrittenAfterTracked(k, d, folders[d], done, checked, p);
    }
  }

  // ---- the account packet ----

  /** The directory walk: every directory once, parents first. */
  ghost predicate WalksDirs(t: Tree, dirs: seq<Path>)
  {
    && PathsOf(dirs) == (set p | p in t && t[p].Dir?)
    && (forall i, j | 0 <= i < j < |dirs| :: dirs[i] != dirs[j])
    && (forall i | 0 <= i < |dirs| && dirs[i] != [] :: Parent(dirs[i]) in dirs[..i])
  }

  /** Some order of a set of paths. */
  ghost predicate Lists(s: seq<Path>, all: set<Path>)
  {
    PathsOf(s) == all && forall i, j | 0 <= i < j < |s| :: s[i] != s[j]
  }

  datatype Changes = Changes(folders: map<Path, FolderState>, mutations: seq<Mutation>)

  lemma UpdatedKeys(folders: map<Path, FolderState>, p: Path, f: FolderState)
    ensures folders[p := f].Keys == folders.Keys + {p}
    ensures p in folders ==> folders[p := f].Keys == folders.Keys
  {
  }

  lemma AppendChange(ms: seq<Mutation>, m: Mutation)
    ensures NoRemovals(ms) && !m.Removal() ==> NoRemovals(ms + [m])
    ensures RemovalsLast(ms) && m.Removal() ==> RemovalsLast(ms + [m])
  {
  }

  lemma NextPath(s: seq<Path>, i: nat)
    requires i < |s| && forall i, j | 0 <= i < j < |s| :: s[i] != s[j]
    ensures PathsOf(s[..i + 1]) == PathsOf(s[..i]) + {s[i]}
    ensures s[i] !in PathsOf(s[..i]) && s[i] in PathsOf(s)
  {
  }

  /** Write a node to a folder and report it. */
  function WriteAndReport(c: Changes, d: Path, n: Entry, m: Mutation): Changes
    requires d in c.folders
  {
    Changes(c.folders[d := c.folders[d].Write(n)], c.mutations + [m])
  }

  /** One directory of the walk. */
  function VisitDir(k: Packet, c: Changes, dir: Path): Changes
    requires dir in k.tree && k.tree[dir].Dir? && dir in k.addresses && dir in k.draws
    requires dir != [] ==> Parent(dir) in c.folders
  {
    var isNew := if dir == [] then !k.rootCreated else !k.KnownFolder(dir);
    var started := FolderState(k.AddressOf(dir), {}, if isNew then IsNewFolder else NoChange);
    var known := c.(folders := c.folders[dir := started]);
    if dir != [] && isNew then
      var info := k.NewInfo(dir);
      WriteAndReport(known, Parent(dir), info.entry, NewFolder(info))
    else known
  }

  /** One chunked file. */
  function VisitFile(k: Packet, c: Changes, file: Path): Changes
    requires file in k.tree && k.tree[file].Regular? && file != [] && file in k.addresses && file in k.draws
    requires Parent(file) in c.folders
  {
    if file !in k.tracking then
      var info := k.NewInfo(file);
      WriteAndReport(c, Parent(file), info.entry, NewFile(info))
    else match k.tracking[file].metadata.content
      case File(chunk) =>
        if chunk == k.tree[file].chunk then c
        else
          var info := k.NewInfo(file);
          WriteAndReport(c, Parent(file), info.entry, FileContentChanged(k.tracking[file].metaName, info))
      case Folder(_) => // a file found where there used to be a folder
        var info := k.NewInfo(file);
        WriteAndReport(c, Parent(file), info.entry, NewFile(info))
  }

  /** One tracked item, which may have gone from the disk; its folder may have gone with it. */
  function VisitTracked(k: Packet, c: Changes, files: seq<Path>, item: Path): Changes
    requires item in k.tracking && item != []
  {
    var info := k.tracking[item];
    var missing := if info.metadata.content.Folder? then item !in c.folders else item !in files;
    var report := if info.metadata.content.Folder? then FolderRemoved(item, info.metaName)
                  else FileRemoved(item, info.metaName);
    if !missing then c
    else if Parent(item) in c.folders then WriteAndReport(c, Parent(item), Node(RemovedMark, {info.entry}), report)
    else c.(mutations := c.mutations + [report])
  }

  lemma DirReported(k: Packet, c: Changes, dir: Path)
    requires k.Ready() && dir in k.tree && k.tree[dir].Dir? && (dir != [] ==> Parent(dir) in c.folders)
    ensures VisitDir(k, c, dir).folders.Keys == c.folders.Keys + {dir}
    ensures NoRemovals(c.mutations) ==> NoRemovals(VisitDir(k, c, dir).mutations)
  {
    if dir != [] {
      AppendChange(c.mutations, NewFolder(k.NewInfo(dir)));
    }
  }

  lemma DirVisited(k: Packet, c: Changes, done: set<Path>, dir: Path)
    requires k.Ready() && ScanState(k, c.folders, c.mutations, done, {})
    requires c.folders.Keys == done && forall p {:trigger Parent(p)} | p in done && p != [] :: Parent(p) in done
    requires dir in k.tree && k.tree[dir].Dir? && dir !in done && (dir != [] ==> Parent(dir) in done)
    ensures var r := VisitDir(k, c, dir); ScanState(k, r.folders, r.mutations, done + {dir}, {})
  {
    var isNew := if dir == [] then !k.rootCreated else !k.KnownFolder(dir);
    var folder := FolderState(k.AddressOf(dir), {}, if isNew then IsNewFolder else NoChange);
    OpenFolder(k, c.folders, c.mutations, done, dir, folder);
    var known := c.folders[dir := folder];
    if dir == [] {
      RootStep(k, known, c.mutations, done);
    } else {
      ItemStep(k, known, c.mutations, done, dir);
    }
  }

  /** A file is reported exactly if it is new or changed. */
  lemma FileReported(k: Packet, c: Changes, file: Path)
    requires k.Ready() && file in k.tree && k.tree[file].Regular? && file != [] && Parent(file) in c.folders
    ensures VisitFile(k, c, file)
            == if k.Dirty(file) then WriteAndReport(c, Parent(file), k.NewInfo(file).entry, k.Report(file)) else c
    ensures VisitFile(k, c, file).folders.Keys == c.folders.Keys
    ensures NoRemovals(c.mutations) ==> NoRemovals(VisitFile(k, c, file).mutations)
  {
    AppendChange(c.mutations, k.Report(file));
  }

  lemma FileVisited(k: Packet, c: Changes, done: set<Path>, file: Path)
    requires k.Ready() && ScanState(k, c.folders, c.mutations, done, {})
    requires file in k.tree && k.tree[file].Regular? && file !in done && Parent(file) in c.folders
    ensures var r := VisitFile(k, c, file); ScanState(k, r.folders, r.mutations, done + {file}, {})
  {
    ItemStep(k, c.folders, c.mutations, done, file);
    FileReported(k, c, file);
  }

  lemma NextFile(k: Packet, r: Changes, dirs: set<Path>, files: seq<Path>, i: nat)
    requires k.Ready() && Lists(files, set p | p in k.tree && k.tree[p].Regular?) && i < |files|
    requires dirs == (set p | p in k.tree && k.tree[p].Dir?) && r.folders.Keys == dirs && NoRemovals(r.mutations)
    requires ScanState(k, r.folders, r.mutations, dirs + PathsOf(files[..i]), {})
    ensures files[i] in k.tree && k.tree[files[i]].Regular? && files[i] != [] && Parent(files[i]) in r.folders
    ensures var after := VisitFile(k, r, files[i]);
            && after.folders.Keys == dirs && NoRemovals(after.mutations)
            && ScanState(k, after.folders, after.mutations, dirs + PathsOf(files[..i + 1]), {})
  {
    NextPath(files, i);
    assert dirs + PathsOf(files[..i + 1]) == dirs + PathsOf(files[..i]) + {files[i]};
    FileVisited(k, r, dirs + PathsOf(files[..i]), files[i]);
    FileReported(k, r, files[i]);
  }

  lemma FileReportsGrow(k: Packet, c: Changes, before: seq<Mutation>, files: seq<Path>, i: nat)
    requires k.Ready() && i < |files| && c.mutations == before + k.FileReports(files[..i])
    requires files[i] in k.tree && k.tree[files[i]].Regular? && files[i] != [] && Parent(files[i]) in c.folders
    ensures VisitFile(k, c, files[i]).mutations == before + k.FileReports(files[..i + 1])
  {
    var file, reports := files[i], k.FileReports(files[..i]);
    var more := if k.Dirty(file) then [k.Report(file)] else [];
    assert k.FileReports(files[..i + 1]) == reports + more by {
      assert files[..i + 1][..i] == files[..i];
    }
    FileReported(k, c, file);
    assert before + reports + more == before + (reports + more);
  }

  lemma TrackedVisited(k: Packet, c: Changes, files: seq<Path>, checked: set<Path>, item: Path)
    requires k.Ready() && ScanState(k, c.folders, c.mutations, k.tree.Keys, checked) && RemovalsLast(c.mutations)
    requires c.folders.Keys == (set d | d in k.tree && k.tree[d].Dir?)
    requires PathsOf(files) == (set p | p in k.tree && k.tree[p].Regular?)
    requires item in k.tracking && item !in checked
    ensures var r := VisitTracked(k, c, files, item);
            && r.folders.Keys == c.folders.Keys && RemovalsLast(r.mutations) && c.mutations <= r.mutations
            && ScanState(k, r.folders, r.mutations, k.tree.Keys, checked + {item})
  {
    TrackedStep(k, c.folders, c.mutations, k.tree.Keys, checked, item);
    assert item in files <==> item in PathsOf(files);
    if k.Gone(item) {
      AppendChange(c.mutations, k.RemovalReport(item));
      if Parent(item) in c.folders {
        UpdatedKeys(c.folders, Parent(item),
                    c.folders[Parent(item)].Write(Node(RemovedMark, {k.tracking[item].entry})));
      }
    }
  }

  class AccountPacket {
    const root: RegisterAddress
    var rootCreated: bool
    var metaDir: MetaDir
    var tracking: Tracking

    ghost predicate Valid()
      reads this
    {
      Consistent(metaDir, tracking)
    }

    function View(tree: Tree, addresses: map<Path, RegisterAddress>, draws: map<Path, Option<nat>>): Packet
      reads this
    {
      Packet(tree, tracking, root, rootCreated, addresses, draws)
    }

    /** A fresh packet: nothing tracked, root folder not created yet. */
    constructor (root: RegisterAddress)
      ensures Valid() && this.root == root && !rootCreated && metaDir == map[] && tracking == map[]
    {
      this.root := root;
      rootCreated, metaDir, tracking := false, map[], map[];
    }

    /** Read the folders hierarchy: every directory becomes a folder, untracked ones are reported as new. */
    method ReadFoldersHierarchy(k: Packet, dirs: seq<Path>) returns (r: Changes)
      requires k.Ready() && WalksDirs(k.tree, dirs)
      ensures r.folders.Keys == PathsOf(dirs) && NoRemovals(r.mutations)
      ensures ScanState(k, r.folders, r.mutations, PathsOf(dirs), {})
    {
      r := Changes(map[], []);
      assert k.Due({}, {}) == {};
      for i := 0 to |dirs|
        invariant r.folders.Keys == PathsOf(dirs[..i]) && NoRemovals(r.mutations)
        invariant forall p {:trigger Parent(p)} | p in r.folders && p != [] :: Parent(p) in r.folders
        invariant ScanState(k, r.folders, r.mutations, PathsOf(dirs[..i]), {})
      {
        NextPath(dirs, i);
        DirVisited(k, r, PathsOf(dirs[..i]), dirs[i]);
        DirReported(k, r, dirs[i]);
        r := VisitDir(k, r, dirs[i]);
      }
      assert dirs[..|dirs|] == dirs;
    }

    /** Add the chunked files to the folders of their directories, in whatever order they come. */
    method AddChunkedFiles(k: Packet, c: Changes, ghost dirs: set<Path>, files: seq<Path>) returns (r: Changes)
      requires k.Ready() && Lists(files, set p | p in k.tree && k.tree[p].Regular?)
      requires dirs == (set p | p in k.tree && k.tree[p].Dir?) && c.folders.Keys == dirs && NoRemovals(c.mutations)
      requires ScanState(k, c.folders, c.mutations, dirs, {})
      ensures r.folders.Keys == dirs && NoRemovals(r.mutations)
      ensures r.mutations == c.mutations + k.FileReports(files)
      ensures ScanState(k, r.folders, r.mutations, k.tree.Keys, {})
    {
      r := c;
      assert dirs + PathsOf(files[..0]) == dirs;
      for i := 0 to |files|
        invariant r.folders.Keys == dirs && NoRemovals(r.mutations)
        invariant r.mutations == c.mutations + k.FileReports(files[..i])
        invariant ScanState(k, r.folders, r.mutations, dirs + PathsOf(files[..i]), {})
      {
        NextFile(k, r, dirs, files, i);
        FileReportsGrow(k, r, c.mutations, files, i);
        r := VisitFile(k, r, files[i]);
      }
      assert files[..|files|] == files;
      assert dirs + PathsOf(files) == k.tree.Keys;
    }

    /** Check whether any tracked file or folder was removed from the disk. */
    method FindRemoved(k: Packet, c: Changes, files: seq<Path>, tracked: seq<Path>) returns (r: Changes)
      requires k.Ready() && Lists(tracked, k.tracking.Keys)
      requires PathsOf(files) == (set p | p in k.tree && k.tree[p].Regular?)
      requires c.folders.Keys == (set p | p in k.tree && k.tree[p].Dir?) && NoRemovals(c.mutations)
      requires ScanState(k, c.folders, c.mutations, k.tree.Keys, {})
      ensures r.folders.Keys == c.folders.Keys && RemovalsLast(r.mutations) && c.mutations <= r.mutations
      ensures ScanState(k, r.folders, r.mutations, k.tree.Keys, k.tracking.Keys)
    {
      r := c;
      assert PathsOf(tracked[..0]) == {};
      for i := 0 to |tracked|
        invariant r.folders.Keys == c.folders.Keys && RemovalsLast(r.mutations) && c.mutations <= r.mutations
        invariant ScanState(k, r.folders, r.mutations, k.tree.Keys, PathsOf(tracked[..i]))
      {
        NextPath(tracked, i);
        TrackedVisited(k, r, files, PathsOf(tracked[..i]), tracked[i]);
        r := VisitTracked(k, r, files, tracked[i]);
      }
      assert tracked[..|tracked|] == tracked;
    }

    /** Find all differences between the tree and what is tracked. `files` and `tracked` are the orders
        in which the chunked files and the tracked items happen to be visited. */
    method ScanFilesAndFoldersForChanges(k: Packet, dirs: seq<Path>, files: seq<Path>, tracked: seq<Path>)
      returns (r: Changes)
      requires k.Ready() && WalksDirs(k.tree, dirs)
      requires Lists(files, set p | p in k.tree && k.tree[p].Regular?) && Lists(tracked, k.tracking.Keys)
      ensures k.IsScan(r.folders, r.mutations)
      ensures k.InFileOrder(r.mutations, files)
    {
      r := ReadFoldersHierarchy(k, dirs);
      ghost var before := r.mutations;
      r := AddChunkedFiles(k, r, PathsOf(dirs), files);
      r := FindRemoved(k, r, files, tracked);
      SitsInside(before, k.FileReports(files), r.mutations);
    }

    /** Update the tracking files from the mutations, one by one. */
    method RecordMutations(mutations: seq<Mutation>)
      modifies this`metaDir
      ensures metaDir == RecordAll(old(metaDir), mutations)
    {
      for i := 0 to |mutations|
        invariant metaDir == RecordAll(old(metaDir), mutations[..i])
      {
        assert mutations[..i + 1][..i] == mutations[..i];
        match mutations[i] {
          case NewFile(info) => metaDir := metaDir[info.metaName := info];
          case NewFolder(info) => metaDir := metaDir[info.metaName := info];
          case FileRemoved(_, name) => metaDir := metaDir - {name};
          case FolderRemoved(_, name) => metaDir := metaDir - {name};
          case FileContentChanged(was, info) =>
            metaDir := metaDir[info.metaName := info];
            metaDir := metaDir - {was};
        }
      }
      assert mutations[..|mutations|] == mutations;
    }

    /** Load the tracking files; files that name the same path would hide each other. */
    method ReadTrackingInfo() returns (read: Tracking)
      requires forall x | x in metaDir :: WellFormed(metaDir[x]) && metaDir[x].metaName == x
      ensures (forall x, y | x in metaDir && y in metaDir && metaDir[x].path == metaDir[y].path :: x == y)
              ==> Consistent(metaDir, read)
      ensures read.Keys == set x | x in metaDir :: metaDir[x].path
    {
      read := map[];
      var todo := metaDir.Keys;
      while todo != {}
        invariant todo <= metaDir.Keys
        invariant read.Keys == set x | x in metaDir && x !in todo :: metaDir[x].path
        invariant forall p | p in read ::
                    exists x :: x in metaDir && x !in todo && metaDir[x] == read[p] && read[p].path == p
        decreases |todo|
      {
        var x :| x in todo;
        todo := todo - {x};
        read := read[metaDir[x].path := metaDir[x]];
      }
    }

    /** The local half of a sync: scan, record, reload. The tracking then describes the tree exactly when the names
        of the new metadata chunks hold for the order in which the files were visited; in that case exactly what
        the scan should leave is tracked, and an immediate rescan has nothing to report. */
    method SyncLocally(tree: Tree, addresses: map<Path, RegisterAddress>, draws: map<Path, Option<nat>>,
                       dirs: seq<Path>, files: seq<Path>, tracked: seq<Path>) returns (r: Changes)
      requires Valid() && View(tree, addresses, draws).Ready() && WalksDirs(tree, dirs)
      requires Lists(files, set p | p in tree && tree[p].Regular?) && Lists(tracked, tracking.Keys)
      modifies this
      ensures old(View(tree, addresses, draws)).IsScan(r.folders, r.mutations) && rootCreated
      ensures Tracks(metaDir, tree) <==> old(View(tree, addresses, draws)).NamesHold(files)
      ensures old(View(tree, addresses, draws)).DistinctNames() ==> Tracks(metaDir, tree)
      ensures Tracks(metaDir, tree) ==>
              Valid() && View(tree, addresses, draws).Ready()
              && View(tree, addresses, draws).Due(tree.Keys, tracking.Keys) == {}
              && Recorded(old(View(tree, addresses, draws)), View(tree, addresses, draws))
    {
      var k := View(tree, addresses, draws);
      r := ScanFilesAndFoldersForChanges(k, dirs, files, tracked);
      rootCreated := true;
      RecordMutations(r.mutations);
      TracksInOrderIff(k, old(metaDir), r.mutations, files);
      LeftIsWellFormed(k, old(metaDir), r.mutations);
      var reread := ReadTrackingInfo();
      tracking := reread;
      if Tracks(metaDir, tree) {
        TrackedSettles(k, old(metaDir), r.mutations, View(tree, addresses, draws));
      }
    }
  }

  lemma LeftIsWellFormed(k: Packet, meta: MetaDir, ms: seq<Mutation>)
    requires k.Ready() && Consistent(meta, k.tracking)
    requires Enumerates(ms, k.Due(k.tree.Keys, k.tracking.Keys))
    ensures var left := RecordAll(meta, ms); forall x | x in left :: WellFormed(left[x]) && left[x].metaName == x
  {
    forall x | x in RecordAll(meta, ms)
      ensures WellFormed(RecordAll(meta, ms)[x]) && RecordAll(meta, ms)[x].metaName == x
    {
      LeftIsWanted(k, meta, ms, x);
    }
  }

  /** Nothing is due in the next state, and it is what the scan should leave. */
  lemma TrackedSettles(k: Packet, meta: MetaDir, ms: seq<Mutation>, next: Packet)
    requires k.Ready() && Consistent(meta, k.tracking) && Tracks(RecordAll(meta, ms), k.tree)
    requires Enumerates(ms, k.Due(k.tree.Keys, k.tracking.Keys))
    requires next.root == k.root && next.tree == k.tree && next.Ready()
    requires Consistent(RecordAll(meta, ms), next.tracking)
    ensures next.Due(next.tree.Keys, next.tracking.Keys) == {} && Recorded(k, next)
  {
    RecordedTracksIff(k, meta, ms);
    NothingDueIff(next, RecordAll(meta, ms));
    TrackedIsRecorded(k, meta, ms, next);
  }

  /** Once the recorded mutations describe the tree, reloading tracks exactly what the scan should leave. */
  lemma TrackedIsRecorded(k: Packet, meta: MetaDir, ms: seq<Mutation>, next: Packet)
    requires k.Ready() && Consistent(meta, k.tracking) && k.NoClobber(ms)
    requires Enumerates(ms, k.Due(k.tree.Keys, k.tracking.Keys))
    requires next.root == k.root && Consistent(RecordAll(meta, ms), next.tracking)
    ensures Recorded(k, next)
  {
    forall p | p in k.tree && p != [] ensures p in next.tracking && next.tracking[p] == Wanted(k, p) {
      WantedIsLeft(k, meta, ms, p);
    }
    forall p | p in next.tracking ensures p in k.tree && p != [] {
      LeftIsWanted(k, meta, ms, next.tracking[p].metaName);
    }
  }

  lemma OpenFolder(k: Packet, folders: map<Path, FolderState>, ms: seq<Mutation>,
                   done: set<Path>, dir: Path, f: FolderState)
    requires k.Ready() && ScanState(k, folders, ms, done, {}) && dir in k.tree
    requires f == FolderState(k.AddressOf(dir), {},
                              if (if dir == [] then !k.rootCreated else !k.KnownFolder(dir)) then IsNewFolder
                              else NoChange)
    requires forall p | p in done && p != [] :: Parent(p) != dir
    ensures ScanState(k, folders[dir := f], ms, done, {})
  {
  }

  lemma RootStep(k: Packet, folders: map<Path, FolderState>, ms: seq<Mutation>, done: set<Path>)
    requires k.Ready() && ScanState(k, folders, ms, done, {}) && [] !in done
    ensures ScanState(k, folders, ms, done + {[]}, {})
  {
    DueAfterItem(k, done, {}, []);
    assert k.Due(done + {[]}, {}) == k.Due(done, {});
    forall d | d in folders ensures k.Written(d, folders[d], done + {[]}, {}) {
      WrittenAfterItem(k, d, folders[d], done, []);
    }
  }
}
