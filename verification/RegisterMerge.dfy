/** Merging the register records that different holders returned for one address. */
module RegisterMerge {
  import opened MerkleRegister
  import opened ClientRegisters

  type Address = nat
  type Entry = seq<nat>

  datatype Register = Register(address: Address, owner: PublicKey, permissions: Permissions, nodes: set<Node<Entry>>)

  /** A signature names its signer and what was signed; it is valid for nothing else. */
  datatype Signature = Signature(signer: PublicKey, signed: Register)
  datatype OpSignature = OpSignature(signer: PublicKey, address: Address, node: Node<Entry>, source: PublicKey)
  datatype RegisterOp = RegisterOp(address: Address, node: Node<Entry>, source: PublicKey, signature: OpSignature)

  datatype SignedRegister = SignedRegister(base: Register, signature: Signature, ops: set<RegisterOp>)

  /** A record that holds no register (wrong kind, or undecodable) or one that holds a signed register. */
  datatype Record = Undecodable | Holding(register: SignedRegister)

  datatype MergeResult = Merged(register: SignedRegister) | RegisterNotFound(address: Address)

  predicate OpAllowed(base: Register, op: RegisterOp)
  {
    base.permissions.AnyoneCanWrite? ||
    (base.permissions.CanWrite(op.source) &&
     op.signature == OpSignature(op.source, op.address, op.node, op.source))
  }

  predicate Verifies(r: SignedRegister)
  {
    r.signature == Signature(r.base.owner, r.base) && forall op | op in r.ops :: OpAllowed(r.base, op)
  }

  predicate Mergeable(a: Register, b: Register)
  {
    a.address == b.address && a.owner == b.owner && a.permissions == b.permissions
  }

  /** Merge `other` into `acc` when it verifies and fits, otherwise keep `acc`. */
  function VerifiedMerge(acc: SignedRegister, other: SignedRegister): (r: SignedRegister)
    ensures r.base == acc.base && r.signature == acc.signature
    ensures forall op :: op in r.ops <==>
              op in acc.ops || (op in other.ops && Mergeable(acc.base, other.base) && Verifies(other))
    ensures Verifies(acc) ==> Verifies(r)
  {
    if Mergeable(acc.base, other.base) && Verifies(other) then acc.(ops := acc.ops + other.ops) else acc
  }

  // ---- what the merge means, with no reference to iteration order ----

  ghost predicate ValidIn(records: seq<Record>, r: SignedRegister)
  {
    Holding(r) in records && Verifies(r)
  }

  /** The operations of every valid record that fits `base`. */
  ghost predicate JoinsOps(records: seq<Record>, base: Register, ops: set<RegisterOp>)
  {
    && (forall r | ValidIn(records, r) && Mergeable(base, r.base) :: r.ops <= ops)
    && (forall op | op in ops :: exists r :: ValidIn(records, r) && Mergeable(base, r.base) && op in r.ops)
  }

  /** All valid records were created from one and the same base register. */
  ghost predicate OneBase(records: seq<Record>)
  {
    forall a, b | ValidIn(records, a) && ValidIn(records, b) :: a.base == b.base
  }

  /** Two iteration orders over the same records. */
  ghost predicate SameRecords(a: seq<Record>, b: seq<Record>)
  {
    multiset(a) == multiset(b)
  }

  /** The registers a listing holds, in its order. */
  ghost function Decoded(records: seq<Record>): (d: seq<SignedRegister>)
    ensures forall r :: r in d <==> Holding(r) in records
  {
    if records == [] then []
    else
      var front, last := records[..|records| - 1], records[|records| - 1];
      assert records == front + [last];
      Decoded(front) + (if last.Holding? then [last.register] else [])
  }

  /** `base` is the base of the first valid register of the listing. */
  ghost predicate FirstValidBase(records: seq<Record>, base: Register)
  {
    var d := Decoded(records);
    exists i | 0 <= i < |d| :: Verifies(d[i]) && d[i].base == base && forall j | 0 <= j < i :: !Verifies(d[j])
  }

  /** The outcome for one listing of the records: fails exactly when no record is valid, otherwise
      the first valid base with the operations of all valid records that fit it. */
  ghost predicate IsMergeOf(address: Address, records: seq<Record>, result: MergeResult)
  {
    match result
    case RegisterNotFound(a) => a == address && forall r :: !ValidIn(records, r)
    case Merged(s) =>
      && FirstValidBase(records, s.base)
      && s.signature == Signature(s.base.owner, s.base)
      && JoinsOps(records, s.base, s.ops)
  }

  method MergeRegisterRecords(address: Address, records: seq<Record>) returns (result: MergeResult)
    ensures IsMergeOf(address, records, result)
    ensures result.Merged? ==> Verifies(result.register)
    ensures result.RegisterNotFound? <==> forall r :: !ValidIn(records, r)
  {
    var decoded: seq<SignedRegister> := [];
    for k := 0 to |records|
      invariant decoded == Decoded(records[..k])
    {
      assert records[..k + 1][..k] == records[..k];
      if records[k].Holding? {
        decoded := decoded + [records[k].register];
      }
    }
    assert records[..|records|] == records;

    var first := 0;
    while first < |decoded| && !Verifies(decoded[first])
      invariant 0 <= first <= |decoded|
      invariant forall i | 0 <= i < first :: !Verifies(decoded[i])
    {
      first := first + 1;
    }
    if first == |decoded| {
      forall r ensures !ValidIn(records, r) {
        assert ValidIn(records, r) ==> r in decoded;
      }
      return RegisterNotFound(address);
    }
    assert ValidIn(records, decoded[first]);

    var acc := decoded[first];
    for k := 0 to |decoded|
      invariant acc.base == decoded[first].base && acc.signature == decoded[first].signature
      invariant forall op | op in acc.ops ::
          op in decoded[first].ops ||
          exists i | 0 <= i < k :: Verifies(decoded[i]) && Mergeable(acc.base, decoded[i].base) && op in decoded[i].ops
      invariant forall i | 0 <= i < k && Verifies(decoded[i]) && Mergeable(acc.base, decoded[i].base) ::
          decoded[i].ops <= acc.ops
    {
      acc := VerifiedMerge(acc, decoded[k]);
    }
    OpsJoined(records, decoded, first, acc);
    result := Merged(acc);
  }

  lemma OpsJoined(records: seq<Record>, decoded: seq<SignedRegister>, first: nat, acc: SignedRegister)
    requires first < |decoded| && Verifies(decoded[first]) && acc.base == decoded[first].base
    requires forall r :: r in decoded <==> Holding(r) in records
    requires forall op | op in acc.ops ::
               op in decoded[first].ops ||
               exists i | 0 <= i < |decoded| ::
                 Verifies(decoded[i]) && Mergeable(acc.base, decoded[i].base) && op in decoded[i].ops
    requires forall i | 0 <= i < |decoded| && Verifies(decoded[i]) && Mergeable(acc.base, decoded[i].base) ::
               decoded[i].ops <= acc.ops
    ensures JoinsOps(records, acc.base, acc.ops)
    ensures forall op | op in acc.ops :: OpAllowed(acc.base, op)
  {
  }

  // ---- dependence on the iteration order ----

  /** For one listing the outcome is unique. */
  lemma MergeIsUnique(address: Address, records: seq<Record>, x: MergeResult, y: MergeResult)
    requires IsMergeOf(address, records, x) && IsMergeOf(address, records, y)
    ensures x == y
  {
    if x.Merged? {
      var p := FirstIsValid(records, x.register.base);
    }
    if y.Merged? {
      var q := FirstIsValid(records, y.register.base);
    }
    if x.Merged? && y.Merged? {
      SameOps(records, records, x.register, y.register);
    }
  }

  lemma FirstIsValid(records: seq<Record>, base: Register) returns (r: SignedRegister)
    requires FirstValidBase(records, base)
    ensures ValidIn(records, r) && r.base == base
  {
    var d := Decoded(records);
    var i :| 0 <= i < |d| && Verifies(d[i]) && d[i].base == base;
    r := d[i];
  }

  lemma SameOps(a: seq<Record>, b: seq<Record>, x: SignedRegister, y: SignedRegister)
    requires SameRecords(a, b) && x.base == y.base
    requires JoinsOps(a, x.base, x.ops) && JoinsOps(b, y.base, y.ops)
    ensures x.ops == y.ops
  {
    SameValid(a, b);
  }

  lemma SameValid(a: seq<Record>, b: seq<Record>)
    requires SameRecords(a, b)
    ensures forall r :: ValidIn(a, r) <==> ValidIn(b, r)
  {
    forall r ensures Holding(r) in a <==> Holding(r) in b {
      assert Holding(r) in a <==> Holding(r) in multiset(a);
      assert Holding(r) in b <==> Holding(r) in multiset(b);
    }
  }

  /** Every listing of the same records gives the same result exactly when all valid records
      share one base register; fitting each other is not enough. */
  lemma OrderIrrelevantIff(address: Address, records: seq<Record>)
    ensures OneBase(records) <==>
            forall a, b, x, y | SameRecords(records, a) && SameRecords(records, b) &&
                                IsMergeOf(address, a, x) && IsMergeOf(address, b, y) :: x == y
  {
    if OneBase(records) {
      forall a, b, x, y | SameRecords(records, a) && SameRecords(records, b) &&
                          IsMergeOf(address, a, x) && IsMergeOf(address, b, y)
        ensures x == y
      {
        OneBaseGivesOneResult(address, records, a, b, x, y);
      }
    } else {
      var p, q :| ValidIn(records, p) && ValidIn(records, q) && p.base != q.base;
      var a, x := MergeWithFirst(address, records, p);
      var b, y := MergeWithFirst(address, records, q);
      assert x != y;
    }
  }

  lemma OneBaseGivesOneResult(address: Address, records: seq<Record>, a: seq<Record>, b: seq<Record>,
                              x: MergeResult, y: MergeResult)
    requires OneBase(records) && SameRecords(records, a) && SameRecords(records, b)
    requires IsMergeOf(address, a, x) && IsMergeOf(address, b, y)
    ensures x == y
  {
    SameValid(records, a);
    SameValid(records, b);
    if x.Merged? {
      var p := FirstIsValid(a, x.register.base);
      assert ValidIn(b, p);
      if y.Merged? {
        var q := FirstIsValid(b, y.register.base);
        SameOps(a, b, x.register, y.register);
      }
    } else if y.Merged? {
      var q := FirstIsValid(b, y.register.base);
    }
  }

  lemma {:induction false} DecodedHead(p: SignedRegister, rest: seq<Record>)
    ensures var d := Decoded([Holding(p)] + rest); d != [] && d[0] == p
    decreases |rest|
  {
    var listing := [Holding(p)] + rest;
    if rest != [] {
      DecodedHead(p, rest[..|rest| - 1]);
      assert listing[..|listing| - 1] == [Holding(p)] + rest[..|rest| - 1];
    } else {
      assert listing[..0] == [];
      assert Decoded(listing) == [p];
    }
  }

  lemma {:induction false} JoinExists(records: seq<Record>, base: Register) returns (ops: set<RegisterOp>)
    ensures JoinsOps(records, base, ops)
    decreases |records|
  {
    if records == [] {
      return {};
    }
    var rest := JoinExists(records[1..], base);
    assert records == [records[0]] + records[1..];
    assert forall r :: ValidIn(records, r) <==> ValidIn(records[1..], r) || (records[0] == Holding(r) && Verifies(r));
    if records[0].Holding? && Verifies(records[0].register) && Mergeable(base, records[0].register.base) {
      assert ValidIn(records, records[0].register);
      return rest + records[0].register.ops;
    }
    return rest;
  }

  /** Listing a valid record first makes its base the base of the result. */
  lemma MergeWithFirst(address: Address, records: seq<Record>, p: SignedRegister)
    returns (listing: seq<Record>, x: MergeResult)
    requires ValidIn(records, p)
    ensures SameRecords(records, listing)
    ensures IsMergeOf(address, listing, x) && x.Merged? && x.register.base == p.base
  {
    var k :| 0 <= k < |records| && records[k] == Holding(p);
    var rest := records[..k] + records[k + 1..];
    listing := [Holding(p)] + rest;
    assert records == records[..k] + [Holding(p)] + records[k + 1..];
    DecodedHead(p, rest);
    var ops := JoinExists(listing, p.base);
    x := Merged(SignedRegister(p.base, p.signature, ops));
  }

  /** Two valid records that fit each other, whose merge nevertheless drops one side's entry. */
  lemma BaseEntriesCanBeDropped(address: Address)
    ensures exists p: SignedRegister, q: SignedRegister, n: Node<Entry> ::
              && Verifies(p) && Verifies(q) && Mergeable(p.base, q.base) && n in q.base.nodes
              && forall x | IsMergeOf(address, [Holding(p), Holding(q)], x) ::
                   x.Merged? && n !in x.register.base.nodes && x.register.ops == {}
  {
    var n := Node([7], {});
    var empty := Register(address, 0, Writers({0}), {});
    var holding := Register(address, 0, Writers({0}), {n});
    var p := SignedRegister(empty, Signature(0, empty), {});
    var q := SignedRegister(holding, Signature(0, holding), {});
    var records := [Holding(p), Holding(q)];
    DecodedHead(p, [Holding(q)]);
    assert records == [Holding(p)] + [Holding(q)];
    assert ValidIn(records, p);
    forall x | IsMergeOf(address, records, x)
      ensures x.Merged? && n !in x.register.base.nodes && x.register.ops == {}
    {
      assert forall r | ValidIn(records, r) :: r == p || r == q;
    }
  }

  lemma FirstDecides(address: Address, p: SignedRegister, rest: seq<Record>, x: MergeResult)
    requires Verifies(p) && IsMergeOf(address, [Holding(p)] + rest, x)
    ensures x.Merged? && x.register.base == p.base
  {
    DecodedHead(p, rest);
    assert ValidIn([Holding(p)] + rest, p);
  }

  /** The same two valid records in the other order give another register. */
  lemma OrderMatters(address: Address) returns (p: SignedRegister, q: SignedRegister)
    ensures Verifies(p) && Verifies(q) && Mergeable(p.base, q.base)
    ensures forall x, y | IsMergeOf(address, [Holding(p)] + [Holding(q)], x)
                          && IsMergeOf(address, [Holding(q)] + [Holding(p)], y) :: x != y
  {
    var empty := Register(address, 0, Writers({0}), {});
    var holding := Register(address, 0, Writers({0}), {Node([7], {})});
    p, q := SignedRegister(empty, Signature(0, empty), {}), SignedRegister(holding, Signature(0, holding), {});
    forall x, y | IsMergeOf(address, [Holding(p)] + [Holding(q)], x)
                  && IsMergeOf(address, [Holding(q)] + [Holding(p)], y)
      ensures x != y
    {
      FirstDecides(address, p, [Holding(q)], x);
      FirstDecides(address, q, [Holding(p)], y);
    }
  }
}
