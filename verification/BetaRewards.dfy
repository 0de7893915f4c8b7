/** The auditor's reward ledger, shared by the spend processor and by participant registrations.

    Two locks are involved: one for the participants, one for the payments. A registration takes them one after
    the other and releases the first before the second, so spends and other registrations can run in between. */
module BetaRewards {
  import opened Wrappers

  type Hash = string // a name hash, in hex
  type Payment = (nat, nat) // spend address and amount

  const UNKNOWN_PREFIX: string := "unknown participant: Hash(\""

  /** The bucket of a forwarded payment whose owner is not registered. */
  function UnknownKey(h: Hash): string
  {
    UNKNOWN_PREFIX + h + "\")"
  }

  lemma UnknownKeyInjective(a: Hash, b: Hash)
    requires UnknownKey(a) == UnknownKey(b)
    ensures a == b
  {
    var n := |UNKNOWN_PREFIX|;
    assert a == UnknownKey(a)[n..n + |a|];
    assert b == UnknownKey(b)[n..n + |b|];
  }

  type Participants = map<Hash, string>
  type Payments = map<string, set<Payment>>

  function Bucket(payments: Payments, key: string): set<Payment>
  {
    if key in payments then payments[key] else {}
  }

  // ---- the critical sections ----

  /** A spend and the name hashes its reason decrypts to: with the foundation key, with the default key. */
  datatype Spend = Spend(payment: Payment, primary: Option<Hash>, fallback: Option<Hash>) {
    predicate IsForward() { primary.Some? || fallback.Some? }

    function NameHash(): Hash
      requires IsForward()
    {
      if primary.Some? then primary.value else fallback.value
    }

    /** Whom the payment is credited to: the first of the two names that is registered, or else the first. */
    function Owner(participants: Participants): (owner: Hash)
      requires IsForward()
      ensures primary == Some(owner) || fallback == Some(owner)
      ensures primary.Some? && primary.value in participants ==> owner == primary.value
      ensures owner !in participants ==> primary.Some? ==> owner == primary.value
      ensures owner !in participants ==> fallback.Some? ==> fallback.value !in participants
    {
      if NameHash() !in participants && fallback.Some? && fallback.value in participants then fallback.value
      else NameHash()
    }
  }

  function KeyFor(participants: Participants, h: Hash): string
  {
    if h in participants then participants[h] else UnknownKey(h)
  }

  function Credit(payments: Payments, key: string, p: Payment): Payments
  {
    payments[key := Bucket(payments, key) + {p}]
  }

  function Register(hash: string -> Hash, participants: Participants, names: seq<string>): Participants
  {
    if names == [] then participants
    else Register(hash, participants, names[..|names| - 1])[hash(names[|names| - 1]) := names[|names| - 1]]
  }

  /** Move what was credited to the name before it was known, keeping what was credited since. */
  function MoveOne(payments: Payments, h: Hash, name: string): Payments
  {
    var rest := payments - {UnknownKey(h)};
    rest[name := Bucket(payments, UnknownKey(h)) + Bucket(rest, name)]
  }

  function MoveAll(hash: string -> Hash, payments: Payments, names: seq<string>): Payments
  {
    if names == [] then payments
    else
      var last := names[|names| - 1];
      MoveOne(MoveAll(hash, payments, names[..|names| - 1]), hash(last), last)
  }

  // ---- every interleaving ----

  /** `processing` is the spend that holds the payments lock and still waits for the participants;
      `moving` are the registrations between their two locked phases;
      `credited` is the history of credits, each with its owner. */
  datatype State = State(participants: Participants, payments: Payments, processing: Option<Spend>,
                         moving: seq<seq<string>>, credited: set<(Hash, Payment)>)

  const START: State := State(map[], map[], None, [], {})

  datatype Event =
    | TakeSpend(spend: Spend) // locks the payments
    | CreditSpend // reads the participants, credits, unlocks
    | AddParticipants(names: seq<string>) // first phase, under the participants lock
    | MovePayments(which: nat) // second phase, under the payments lock

  predicate Enabled(s: State, e: Event)
  {
    match e
    case TakeSpend(_) => s.processing.None?
    case CreditSpend => s.processing.Some?
    case AddParticipants(_) => true
    case MovePayments(i) => s.processing.None? && i < |s.moving|
  }

  function Step(hash: string -> Hash, s: State, e: Event): State
    requires Enabled(s, e)
  {
    match e
    case TakeSpend(spend) => s.(processing := Some(spend))
    case CreditSpend =>
      var spend := s.processing.value;
      if !spend.IsForward() then s.(processing := None)
      else
        var owner := spend.Owner(s.participants);
        s.(payments := Credit(s.payments, KeyFor(s.participants, owner), spend.payment),
           processing := None,
           credited := s.credited + {(owner, spend.payment)})
    case AddParticipants(names) =>
      s.(participants := Register(hash, s.participants, names), moving := s.moving + [names])
    case MovePayments(i) =>
      s.(payments := MoveAll(hash, s.payments, s.moving[i]), moving := s.moving[..i] + s.moving[i + 1..])
  }

  /** The state after the events, if each was possible when it came. */
  function Run(hash: string -> Hash, events: seq<Event>): Option<State>
  {
    if events == [] then Some(START)
    else
      var before := Run(hash, events[..|events| - 1]);
      var e := events[|events| - 1];
      if before.Some? && Enabled(before.value, e) then Some(Step(hash, before.value, e)) else None
  }

  // ---- conservation: holds for all names whatsoever ----

  ghost function AllPayments(payments: Payments): set<Payment>
  {
    set k, p | k in payments && p in payments[k] :: p
  }

  ghost function EverCredited(s: State): set<Payment>
  {
    set c | c in s.credited :: c.1
  }

  lemma CreditAdds(payments: Payments, key: string, p: Payment)
    ensures AllPayments(Credit(payments, key, p)) == AllPayments(payments) + {p}
  {
    var after := Credit(payments, key, p);
    assert p in after[key];
    forall x | x in AllPayments(payments) ensures x in AllPayments(after) {
      var k :| k in payments && x in payments[k];
      assert x in after[k];
    }
  }

  lemma MoveOneConserves(payments: Payments, h: Hash, name: string)
    ensures AllPayments(MoveOne(payments, h, name)) == AllPayments(payments)
  {
    var after := MoveOne(payments, h, name);
    forall x | x in AllPayments(payments) ensures x in AllPayments(after) {
      var k :| k in payments && x in payments[k];
      assert if k == UnknownKey(h) || k == name then x in after[name] else x in after[k];
    }
  }

  lemma {:induction false} MoveAllConserves(hash: string -> Hash, payments: Payments, names: seq<string>)
    ensures AllPayments(MoveAll(hash, payments, names)) == AllPayments(payments)
    decreases |names|
  {
    if names != [] {
      var front, last := names[..|names| - 1], names[|names| - 1];
      MoveAllConserves(hash, payments, front);
      MoveOneConserves(MoveAll(hash, payments, front), hash(last), last);
    }
  }

  lemma StepConserves(hash: string -> Hash, s: State, e: Event)
    requires Enabled(s, e) && AllPayments(s.payments) == EverCredited(s)
    ensures AllPayments(Step(hash, s, e).payments) == EverCredited(Step(hash, s, e))
  {
    match e {
      case MovePayments(i) => MoveAllConserves(hash, s.payments, s.moving[i]);
      case CreditSpend =>
        var spend := s.processing.value;
        if spend.IsForward() {
          var owner := spend.Owner(s.participants);
          CreditAdds(s.payments, KeyFor(s.participants, owner), spend.payment);
          assert (owner, spend.payment) in Step(hash, s, e).credited;
        }
      case _ =>
    }
  }

  /** In every reachable state the payments on file are exactly the ones ever credited. */
  lemma {:induction false} NothingLostNothingInvented(hash: string -> Hash, events: seq<Event>)
    requires Run(hash, events).Some?
    ensures var s := Run(hash, events).value; AllPayments(s.payments) == EverCredited(s)
    decreases |events|
  {
    if events != [] {
      NothingLostNothingInvented(hash, events[..|events| - 1]);
      StepConserves(hash, Run(hash, events[..|events| - 1]).value, events[|events| - 1]);
    }
  }

  /** Whatever happens later, a payment on file stays on file. */
  lemma {:induction false} PaymentsAreKept(hash: string -> Hash, events: seq<Event>, later: seq<Event>)
    requires Run(hash, events + later).Some?
    ensures Run(hash, events).Some?
    ensures AllPayments(Run(hash, events).value.payments) <= AllPayments(Run(hash, events + later).value.payments)
    decreases |later|
  {
    if later == [] {
      assert events + later == events;
    } else {
      var n := |later| - 1;
      assert (events + later)[..|events + later| - 1] == events + later[..n];
      PaymentsAreKept(hash, events, later[..n]);
      NothingLostNothingInvented(hash, events + later[..n]);
      NothingLostNothingInvented(hash, events + later);
    }
  }

  // ---- what the invariants are about ----

  ghost predicate Injective(hash: string -> Hash)
  {
    forall a, b :: hash(a) == hash(b) ==> a == b
  }

  /** Each participant is filed under the hash of its name, those of unfinished registrations included. */
  ghost predicate Filed(hash: string -> Hash, s: State)
  {
    && (forall h | h in s.participants :: hash(s.participants[h]) == h)
    && (forall i, j | 0 <= i < |s.moving| && 0 <= j < |s.moving[i]| :: Holds(hash, s.participants, s.moving[i][j]))
  }

  ghost predicate Holds(hash: string -> Hash, participants: Participants, name: string)
  {
    hash(name) in participants && participants[hash(name)] == name
  }

  lemma {:induction false} RegisterFiles(hash: string -> Hash, participants: Participants, names: seq<string>)
    requires Injective(hash)
    requires forall h | h in participants :: hash(participants[h]) == h
    ensures var r := Register(hash, participants, names);
            && (forall h | h in r :: hash(r[h]) == h)
            && (forall h | h in participants :: h in r && r[h] == participants[h])
            && (forall j | 0 <= j < |names| :: Holds(hash, r, names[j]))
            && (forall h | h in r :: h in participants || r[h] in names)
    decreases |names|
  {
    if names != [] {
      var n := |names| - 1;
      RegisterFiles(hash, participants, names[..n]);
      assert names == names[..n] + [names[n]];
    }
  }

  lemma StepFiles(hash: string -> Hash, s: State, e: Event)
    requires Injective(hash) && Filed(hash, s) && Enabled(s, e)
    ensures Filed(hash, Step(hash, s, e))
    ensures forall h | h in s.participants :: h in Step(hash, s, e).participants
                                              && Step(hash, s, e).participants[h] == s.participants[h]
  {
    if e.AddParticipants? {
      RegisterFiles(hash, s.participants, e.names);
    }
  }

  // ---- no registered participant keeps an unknown bucket ----

  /** No registered name is spelled like the unknown bucket of the hash. */
  ghost predicate NoImpostor(participants: Participants, h: Hash)
  {
    forall g | g in participants :: participants[g] != UnknownKey(h)
  }

  ghost predicate InMotion(hash: string -> Hash, moving: seq<seq<string>>, h: Hash)
  {
    exists i, j | 0 <= i < |moving| && 0 <= j < |moving[i]| :: hash(moving[i][j]) == h
  }

  /** An unknown bucket of a registered hash is there only while a registration has yet to move it. */
  ghost predicate OnlyMovingUnknown(hash: string -> Hash, s: State, h: Hash)
  {
    h in s.participants && UnknownKey(h) in s.payments ==> InMotion(hash, s.moving, h)
  }

  lemma {:induction false} MoveAllKeys(hash: string -> Hash, payments: Payments, names: seq<string>, key: string)
    requires key in MoveAll(hash, payments, names)
    ensures key in payments || key in names
    decreases |names|
  {
    if names != [] && key != names[|names| - 1] {
      MoveAllKeys(hash, payments, names[..|names| - 1], key);
    }
  }

  lemma {:induction false} MoveAllClears(hash: string -> Hash, payments: Payments, names: seq<string>, j: nat)
    requires j < |names| && UnknownKey(hash(names[j])) !in names
    ensures UnknownKey(hash(names[j])) !in MoveAll(hash, payments, names)
    decreases |names|
  {
    if j < |names| - 1 {
      MoveAllClears(hash, payments, names[..|names| - 1], j);
    }
  }

  lemma CreditStaysSettled(hash: string -> Hash, s: State, h: Hash)
    requires Enabled(s, CreditSpend) && NoImpostor(s.participants, h) && OnlyMovingUnknown(hash, s, h)
    ensures OnlyMovingUnknown(hash, Step(hash, s, CreditSpend), h)
  {
    var spend := s.processing.value;
    if spend.IsForward() && UnknownKey(h) == UnknownKey(spend.Owner(s.participants)) {
      UnknownKeyInjective(h, spend.Owner(s.participants));
    }
  }

  lemma RegisterStaysSettled(hash: string -> Hash, s: State, names: seq<string>, h: Hash)
    requires Injective(hash) && Filed(hash, s) && OnlyMovingUnknown(hash, s, h)
    ensures OnlyMovingUnknown(hash, Step(hash, s, AddParticipants(names)), h)
  {
    var after := Step(hash, s, AddParticipants(names));
    RegisterFiles(hash, s.participants, names);
    if h in s.participants && UnknownKey(h) in s.payments {
      var i, j :| 0 <= i < |s.moving| && 0 <= j < |s.moving[i]| && hash(s.moving[i][j]) == h;
      assert hash(after.moving[i][j]) == h;
    } else if h in after.participants && h !in s.participants {
      var j :| 0 <= j < |names| && names[j] == after.participants[h];
      assert hash(after.moving[|s.moving|][j]) == h;
    }
  }

  lemma StaysInMotion(hash: string -> Hash, moving: seq<seq<string>>, i: nat, h: Hash)
    requires i < |moving| && InMotion(hash, moving, h)
    requires forall b | 0 <= b < |moving[i]| :: hash(moving[i][b]) != h
    ensures InMotion(hash, moving[..i] + moving[i + 1..], h)
  {
    var a, b :| 0 <= a < |moving| && 0 <= b < |moving[a]| && hash(moving[a][b]) == h;
    assert hash((moving[..i] + moving[i + 1..])[if a < i then a else a - 1][b]) == h;
  }

  lemma MoveStaysSettled(hash: string -> Hash, s: State, i: nat, h: Hash)
    requires Enabled(s, MovePayments(i))
    requires Filed(hash, s) && NoImpostor(s.participants, h) && OnlyMovingUnknown(hash, s, h)
    ensures OnlyMovingUnknown(hash, Step(hash, s, MovePayments(i)), h)
  {
    var names := s.moving[i];
    if h in s.participants && UnknownKey(h) in MoveAll(hash, s.payments, names) {
      assert UnknownKey(h) !in names;
      MoveAllKeys(hash, s.payments, names, UnknownKey(h));
      forall b | 0 <= b < |names| ensures hash(names[b]) != h {
        if hash(names[b]) == h {
          MoveAllClears(hash, s.payments, names, b);
        }
      }
      StaysInMotion(hash, s.moving, i, h);
    }
  }

  lemma {:induction false} FiledInvariant(hash: string -> Hash, events: seq<Event>)
    requires Injective(hash) && Run(hash, events).Some?
    ensures Filed(hash, Run(hash, events).value)
    decreases |events|
  {
    if events != [] {
      FiledInvariant(hash, events[..|events| - 1]);
      StepFiles(hash, Run(hash, events[..|events| - 1]).value, events[|events| - 1]);
    }
  }

  lemma {:induction false} SettledInvariant(hash: string -> Hash, events: seq<Event>, h: Hash)
    requires Injective(hash) && Run(hash, events).Some?
    ensures var s := Run(hash, events).value; NoImpostor(s.participants, h) ==> OnlyMovingUnknown(hash, s, h)
    decreases |events|
  {
    if events != [] && NoImpostor(Run(hash, events).value.participants, h) {
      var before, e := Run(hash, events[..|events| - 1]).value, events[|events| - 1];
      FiledInvariant(hash, events[..|events| - 1]);
      StepFiles(hash, before, e);
      SettledInvariant(hash, events[..|events| - 1], h);
      match e {
        case CreditSpend => CreditStaysSettled(hash, before, h);
        case AddParticipants(names) => RegisterStaysSettled(hash, before, names, h);
        case MovePayments(i) => MoveStaysSettled(hash, before, i, h);
        case TakeSpend(_) =>
      }
    }
  }

  /** However spends and registrations interleaved: once no registration is under way, a registered participant has
      no payments left in its unknown bucket, unless a participant is named like that bucket. */
  lemma NoUnknownLeftBehind(hash: string -> Hash, events: seq<Event>, h: Hash)
    requires Injective(hash) && Run(hash, events).Some?
    ensures var s := Run(hash, events).value;
            s.moving == [] && NoImpostor(s.participants, h) && h in s.participants ==> UnknownKey(h) !in s.payments
  {
    SettledInvariant(hash, events, h);
  }

  lemma RunExtends(hash: string -> Hash, events: seq<Event>, e: Event)
    requires Run(hash, events).Some? && Enabled(Run(hash, events).value, e)
    ensures Run(hash, events + [e]) == Some(Step(hash, Run(hash, events).value, e))
  {
  }

  lemma RegisterAlone(hash: string -> Hash, events: seq<Event>, s: State, name: string)
    requires Run(hash, events) == Some(s) && s.moving == [] && s.processing.None?
    ensures Run(hash, events + [AddParticipants([name]), MovePayments(0)])
            == Some(s.(participants := s.participants[hash(name) := name],
                       payments := MoveOne(s.payments, hash(name), name)))
  {
    var registered := s.(participants := s.participants[hash(name) := name], moving := [[name]]);
    assert [name][..|[name]| - 1] == [];
    assert Register(hash, s.participants, [name]) == registered.participants;
    assert s.moving + [[name]] == [[name]];
    assert Step(hash, s, AddParticipants([name])) == registered;
    RunExtends(hash, events, AddParticipants([name]));
    assert registered.moving[..0] + registered.moving[1..] == s.moving;
    assert MoveAll(hash, s.payments, [name]) == MoveOne(MoveAll(hash, s.payments, []), hash(name), name);
    assert Step(hash, registered, MovePayments(0)).payments == MoveOne(s.payments, hash(name), name);
    RunExtends(hash, events + [AddParticipants([name])], MovePayments(0));
    assert events + [AddParticipants([name]), MovePayments(0)]
        == events + [AddParticipants([name])] + [MovePayments(0)];
  }

  /** A participant whose name is another's unknown bucket does leave one behind. */
  lemma ImpostorLeavesOneBehind(hash: string -> Hash, name: string)
    requires Injective(hash) && name != UnknownKey(hash(name))
    ensures var run := [AddParticipants([name]), MovePayments(0),
                        AddParticipants([UnknownKey(hash(name))]), MovePayments(0)];
            && Run(hash, run).Some? && Run(hash, run).value.moving == []
            && hash(name) in Run(hash, run).value.participants
            && UnknownKey(hash(name)) in Run(hash, run).value.payments
  {
    var impostor := UnknownKey(hash(name));
    var first := [AddParticipants([name]), MovePayments(0)];
    assert [] + first == first;
    RegisterAlone(hash, [], START, name);
    RegisterAlone(hash, first, Run(hash, first).value, impostor);
    assert first + [AddParticipants([impostor]), MovePayments(0)]
        == [AddParticipants([name]), MovePayments(0), AddParticipants([impostor]), MovePayments(0)];
  }

  /** Only these names are ever registered. */
  ghost predicate Registers(events: seq<Event>, names: iset<string>)
  {
    forall i, n | 0 <= i < |events| && events[i].AddParticipants? && n in events[i].names :: n in names
  }

  /** No registration is under way and some registered participant has an unknown bucket. */
  ghost predicate LeftBehind(s: State)
  {
    s.moving == [] && exists h :: h in s.participants && UnknownKey(h) in s.payments
  }

  lemma {:induction false} ParticipantsAreNamed(hash: string -> Hash, events: seq<Event>, names: iset<string>)
    requires Injective(hash) && Run(hash, events).Some? && Registers(events, names)
    ensures forall h | h in Run(hash, events).value.participants :: Run(hash, events).value.participants[h] in names
    decreases |events|
  {
    if events != [] {
      var before, e := Run(hash, events[..|events| - 1]).value, events[|events| - 1];
      ParticipantsAreNamed(hash, events[..|events| - 1], names);
      FiledInvariant(hash, events[..|events| - 1]);
      if e.AddParticipants? {
        RegisterFiles(hash, before.participants, e.names);
        assert forall n | n in e.names :: n in names;
      }
    }
  }

  /** A name spelled like the unknown bucket of another, or of itself, leaves that bucket behind. */
  lemma ImpostorRun(hash: string -> Hash, names: iset<string>, m: string, n: string) returns (events: seq<Event>)
    requires Injective(hash) && m in names && n in names && n == UnknownKey(hash(m))
    ensures Run(hash, events).Some? && LeftBehind(Run(hash, events).value) && Registers(events, names)
  {
    var first := [AddParticipants([m]), MovePayments(0)];
    if m == n {
      assert [] + first == first;
      RegisterAlone(hash, [], START, m);
      events := first;
    } else {
      ImpostorLeavesOneBehind(hash, m);
      events := [AddParticipants([m]), MovePayments(0), AddParticipants([n]), MovePayments(0)];
    }
  }

  lemma NoneLeftBehind(hash: string -> Hash, names: iset<string>, events: seq<Event>)
    requires Injective(hash) && forall m, n | m in names && n in names :: n != UnknownKey(hash(m))
    requires Run(hash, events).Some? && Registers(events, names)
    ensures !LeftBehind(Run(hash, events).value)
  {
    var s := Run(hash, events).value;
    ParticipantsAreNamed(hash, events, names);
    FiledInvariant(hash, events);
    forall h | h in s.participants && s.moving == [] ensures UnknownKey(h) !in s.payments {
      assert s.participants[h] in names && hash(s.participants[h]) == h;
      NoUnknownLeftBehind(hash, events, h);
    }
  }

  /** With participants from given names, no run ever leaves an unknown bucket of a registered one behind, if and only
      if none of the names is spelled like the unknown bucket of one of them. */
  lemma NoneLeftBehindIff(hash: string -> Hash, names: iset<string>)
    requires Injective(hash)
    ensures (forall events | Registers(events, names) && Run(hash, events).Some? ::
               !LeftBehind(Run(hash, events).value))
            <==> forall m, n | m in names && n in names :: n != UnknownKey(hash(m))
  {
    if m, n :| m in names && n in names && n == UnknownKey(hash(m)) {
      var events := ImpostorRun(hash, names, m, n);
    } else {
      forall events | Registers(events, names) && Run(hash, events).Some?
        ensures !LeftBehind(Run(hash, events).value)
      {
        NoneLeftBehind(hash, names, events);
      }
    }
  }

  // ---- every payment is with its owner ----

  /** No participant is named like the unknown bucket of another hash. */
  ghost predicate Ordinary(participants: Participants)
  {
    forall g, h | g in participants && participants[g] == UnknownKey(h) :: h == g
  }

  ghost function Credits(s: State, owner: Hash): set<Payment>
  {
    set c | c in s.credited && c.0 == owner :: c.1
  }

  /** What is on file for an owner, under its name or not yet moved there. */
  ghost function Owned(participants: Participants, payments: Payments, owner: Hash): set<Payment>
  {
    (if owner in participants then Bucket(payments, participants[owner]) else {})
    + Bucket(payments, UnknownKey(owner))
  }

  ghost predicate Attributed(s: State)
  {
    forall o :: Owned(s.participants, s.payments, o) == Credits(s, o)
  }

  /** There is a bucket only for a registered name or an unknown hash. */
  ghost predicate KnownKeys(hash: string -> Hash, s: State)
  {
    forall k | k in s.payments :: IsUnknownKey(k) || Holds(hash, s.participants, k)
  }

  ghost predicate IsUnknownKey(k: string)
  {
    exists h :: k == UnknownKey(h)
  }

  lemma MoveOneKeepsOwned(hash: string -> Hash, participants: Participants, payments: Payments, name: string, o: Hash)
    requires (forall h | h in participants :: hash(participants[h]) == h) && Ordinary(participants)
    requires Holds(hash, participants, name)
    ensures Owned(participants, MoveOne(payments, hash(name), name), o) == Owned(participants, payments, o)
  {
    if UnknownKey(o) == UnknownKey(hash(name)) {
      UnknownKeyInjective(o, hash(name));
    }
  }

  lemma {:induction false} MoveAllKeepsOwned(hash: string -> Hash, participants: Participants, payments: Payments,
                                             names: seq<string>, o: Hash)
    requires (forall h | h in participants :: hash(participants[h]) == h) && Ordinary(participants)
    requires forall j | 0 <= j < |names| :: Holds(hash, participants, names[j])
    ensures Owned(participants, MoveAll(hash, payments, names), o) == Owned(participants, payments, o)
    decreases |names|
  {
    if names != [] {
      var front, last := names[..|names| - 1], names[|names| - 1];
      MoveAllKeepsOwned(hash, participants, payments, front, o);
      MoveOneKeepsOwned(hash, participants, MoveAll(hash, payments, front), last, o);
    }
  }

  lemma CreditIsOwned(hash: string -> Hash, participants: Participants, payments: Payments, owner: Hash, p: Payment,
                      o: Hash)
    requires (forall h | h in participants :: hash(participants[h]) == h) && Ordinary(participants)
    ensures Owned(participants, Credit(payments, KeyFor(participants, owner), p), o)
            == Owned(participants, payments, o) + (if o == owner then {p} else {})
  {
    if UnknownKey(o) == UnknownKey(owner) {
      UnknownKeyInjective(o, owner);
    }
  }

  lemma CreditAttributes(hash: string -> Hash, s: State, o: Hash)
    requires Filed(hash, s) && Enabled(s, CreditSpend) && Ordinary(s.participants)
    requires Owned(s.participants, s.payments, o) == Credits(s, o)
    ensures var after := Step(hash, s, CreditSpend); Owned(after.participants, after.payments, o) == Credits(after, o)
  {
    var spend := s.processing.value;
    if spend.IsForward() {
      var owner := spend.Owner(s.participants);
      CreditIsOwned(hash, s.participants, s.payments, owner, spend.payment, o);
      assert (owner, spend.payment) in Step(hash, s, CreditSpend).credited;
    }
  }

  lemma RegisterAttributes(hash: string -> Hash, s: State, names: seq<string>, o: Hash)
    requires Injective(hash) && Filed(hash, s) && KnownKeys(hash, s)
    requires Ordinary(Register(hash, s.participants, names))
    requires Owned(s.participants, s.payments, o) == Credits(s, o)
    ensures var after := Step(hash, s, AddParticipants(names));
            Owned(after.participants, after.payments, o) == Credits(after, o)
  {
    var participants := Register(hash, s.participants, names);
    RegisterFiles(hash, s.participants, names);
    if o in participants && o !in s.participants {
      assert hash(participants[o]) == o;
      assert participants[o] in s.payments ==> participants[o] == UnknownKey(o);
    }
  }

  lemma StepKnowsKeys(hash: string -> Hash, s: State, e: Event)
    requires Injective(hash) && Filed(hash, s) && Enabled(s, e) && KnownKeys(hash, s)
    ensures KnownKeys(hash, Step(hash, s, e))
  {
    var after := Step(hash, s, e);
    StepFiles(hash, s, e);
    forall k | k in after.payments ensures IsUnknownKey(k) || Holds(hash, after.participants, k) {
      if e.MovePayments? {
        MoveAllKeys(hash, s.payments, s.moving[e.which], k);
      }
    }
  }

  lemma StepAttributes(hash: string -> Hash, s: State, e: Event)
    requires Injective(hash) && Filed(hash, s) && Enabled(s, e)
    requires Ordinary(s.participants) && Ordinary(Step(hash, s, e).participants)
    requires Attributed(s) && KnownKeys(hash, s)
    ensures Attributed(Step(hash, s, e))
  {
    var after := Step(hash, s, e);
    forall o ensures Owned(after.participants, after.payments, o) == Credits(after, o) {
      assert Owned(s.participants, s.payments, o) == Credits(s, o);
      match e {
        case TakeSpend(_) =>
        case CreditSpend => CreditAttributes(hash, s, o);
        case AddParticipants(names) => RegisterAttributes(hash, s, names, o);
        case MovePayments(i) => MoveAllKeepsOwned(hash, s.participants, s.payments, s.moving[i], o);
      }
    }
  }

  lemma {:induction false} AttributedInvariant(hash: string -> Hash, events: seq<Event>)
    requires Injective(hash) && Run(hash, events).Some?
    ensures var s := Run(hash, events).value;
            Ordinary(s.participants) ==> Attributed(s) && KnownKeys(hash, s)
    decreases |events|
  {
    if events != [] {
      var before, e := Run(hash, events[..|events| - 1]).value, events[|events| - 1];
      FiledInvariant(hash, events[..|events| - 1]);
      AttributedInvariant(hash, events[..|events| - 1]);
      StepFiles(hash, before, e);
      if Ordinary(Run(hash, events).value.participants) {
        StepAttributes(hash, before, e);
        StepKnowsKeys(hash, before, e);
      }
    }
  }

  /** Once no registration is under way, the bucket of a participant holds exactly what was credited to it, whether
      a payment came before its registration, during it or after it. */
  lemma SettledBucketIsExact(hash: string -> Hash, events: seq<Event>, h: Hash)
    requires Injective(hash) && Run(hash, events).Some?
    ensures var s := Run(hash, events).value;
            s.moving == [] && Ordinary(s.participants) && h in s.participants
            ==> Bucket(s.payments, s.participants[h]) == Credits(s, h)
  {
    var s := Run(hash, events).value;
    AttributedInvariant(hash, events);
    if s.moving == [] && Ordinary(s.participants) && h in s.participants && s.participants[h] != UnknownKey(h) {
      FiledInvariant(hash, events);
      assert NoImpostor(s.participants, h);
      NoUnknownLeftBehind(hash, events, h);
    }
    assert Ordinary(s.participants) ==> Owned(s.participants, s.payments, h) == Credits(s, h);
  }

  /** Some registered participant's bucket is not what was credited to it, though no registration is under way. */
  ghost predicate Mixed(s: State)
  {
    s.moving == []
    && exists h :: h in s.participants && Bucket(s.payments, s.participants[h]) != Credits(s, h)
  }

  lemma CreditAlone(hash: string -> Hash, spend: Spend)
    requires spend.IsForward()
    ensures var owner := spend.NameHash();
            Run(hash, [TakeSpend(spend), CreditSpend])
            == Some(START.(payments := map[UnknownKey(owner) := {spend.payment}], credited := {(owner, spend.payment)}))
  {
    var taken := START.(processing := Some(spend));
    RunExtends(hash, [], TakeSpend(spend));
    assert [] + [TakeSpend(spend)] == [TakeSpend(spend)];
    RunExtends(hash, [TakeSpend(spend)], CreditSpend);
    assert [TakeSpend(spend)] + [CreditSpend] == [TakeSpend(spend), CreditSpend];
    var owner := spend.NameHash();
    assert spend.Owner(map[]) == owner;
    var none: Payments := map[];
    assert Bucket(none, UnknownKey(owner)) + {spend.payment} == {spend.payment};
    assert Credit(none, UnknownKey(owner), spend.payment) == map[UnknownKey(owner) := {spend.payment}];
    assert Step(hash, taken, CreditSpend).credited == {(owner, spend.payment)};
  }

  lemma MixedRun(hash: string -> Hash, n: string, h: Hash) returns (events: seq<Event>)
    requires Injective(hash) && n == UnknownKey(h) && h != hash(n)
    ensures Run(hash, events).Some? && Mixed(Run(hash, events).value)
    ensures forall i, m | 0 <= i < |events| && events[i].AddParticipants? && m in events[i].names :: m == n
  {
    var spend: Spend := Spend((0, 0), Some(h), None);
    var paid := [TakeSpend(spend), CreditSpend];
    CreditAlone(hash, spend);
    RegisterAlone(hash, paid, Run(hash, paid).value, n);
    events := paid + [AddParticipants([n]), MovePayments(0)];
    var s := Run(hash, events).value;
    if UnknownKey(hash(n)) == n {
      UnknownKeyInjective(hash(n), h);
    }
    assert (0, 0) in Bucket(s.payments, s.participants[hash(n)]);
    assert (0, 0) !in Credits(s, hash(n));
  }

  /** With participants from given names, every settled bucket is exactly what was credited to its owner, in every run,
      if and only if none of the names is spelled like the unknown bucket of another hash. */
  lemma BucketsExactIff(hash: string -> Hash, names: iset<string>)
    requires Injective(hash)
    ensures (forall events | Registers(events, names) && Run(hash, events).Some? :: !Mixed(Run(hash, events).value))
            <==> forall n, h | n in names && n == UnknownKey(h) :: h == hash(n)
  {
    if n, h :| n in names && n == UnknownKey(h) && h != hash(n) {
      var events := MixedRun(hash, n, h);
      assert Registers(events, names);
    } else {
      forall events | Registers(events, names) && Run(hash, events).Some?
        ensures !Mixed(Run(hash, events).value)
      {
        ParticipantsAreNamed(hash, events, names);
        FiledInvariant(hash, events);
        forall h { SettledBucketIsExact(hash, events, h); }
      }
    }
  }

  // ---- the operations on the shared maps ----

  class SpendDagDb {
    const hash: string -> Hash
    var betaParticipants: Participants
    var forwardedPayments: Payments

    constructor (hash: string -> Hash)
      ensures this.hash == hash && betaParticipants == map[] && forwardedPayments == map[]
    {
      this.hash := hash;
      betaParticipants := map[];
      forwardedPayments := map[];
    }

    /** What a processed spend does to the books once it has the participants. */
    method ProcessSpend(spend: Spend)
      modifies this`forwardedPayments
      ensures forwardedPayments
              == if spend.IsForward() then
                   Credit(old(forwardedPayments), KeyFor(betaParticipants, spend.Owner(betaParticipants)),
                          spend.payment)
                 else old(forwardedPayments)
    {
      var userNameHash;
      match spend.primary {
        case Some(h) => userNameHash := h;
        case None =>
          match spend.fallback {
            case Some(h) => userNameHash := h;
            case None => return;
          }
      }
      if userNameHash in betaParticipants {
        AddTo(betaParticipants[userNameHash], spend.payment);
      } else {
        if spend.fallback.Some? && spend.fallback.value in betaParticipants {
          AddTo(betaParticipants[spend.fallback.value], spend.payment);
          return;
        }
        AddTo(UnknownKey(userNameHash), spend.payment);
      }
    }

    method AddTo(key: string, payment: Payment)
      modifies this`forwardedPayments
      ensures forwardedPayments == Credit(old(forwardedPayments), key, payment)
    {
      if key !in forwardedPayments {
        forwardedPayments := forwardedPayments[key := {}];
      }
      forwardedPayments := forwardedPayments[key := forwardedPayments[key] + {payment}];
    }

    /** First phase of a registration, under the participants lock. */
    method AddNewParticipants(names: seq<string>) returns (added: seq<(Hash, string)>)
      modifies this`betaParticipants
      ensures betaParticipants == Register(hash, old(betaParticipants), names)
      ensures |added| == |names| && forall j | 0 <= j < |names| :: added[j] == (hash(names[j]), names[j])
    {
      added := [];
      for i := 0 to |names|
        invariant betaParticipants == Register(hash, old(betaParticipants), names[..i])
        invariant |added| == i && forall j | 0 <= j < i :: added[j] == (hash(names[j]), names[j])
      {
        assert names[..i + 1][..i] == names[..i];
        added := added + [(hash(names[i]), names[i])];
        betaParticipants := betaParticipants[hash(names[i]) := names[i]];
      }
      assert names[..|names|] == names;
    }

    /** Second phase, under the payments lock. */
    method InitializePayments(added: seq<(Hash, string)>, ghost names: seq<string>)
      requires |added| == |names| && forall j | 0 <= j < |names| :: added[j] == (hash(names[j]), names[j])
      modifies this`forwardedPayments
      ensures forwardedPayments == MoveAll(hash, old(forwardedPayments), names)
    {
      for i := 0 to |added|
        invariant forwardedPayments == MoveAll(hash, old(forwardedPayments), names[..i])
      {
        assert names[..i + 1][..i] == names[..i];
        MoveToName(added[i].0, added[i].1);
      }
      assert names[..|names|] == names;
    }

    method MoveToName(h: Hash, p: string)
      modifies this`forwardedPayments
      ensures forwardedPayments == MoveOne(old(forwardedPayments), h, p)
    {
      var payments := Bucket(forwardedPayments, UnknownKey(h));
      forwardedPayments := forwardedPayments - {UnknownKey(h)};
      ghost var rest := forwardedPayments;
      if p in forwardedPayments {
        var existing := forwardedPayments[p];
        forwardedPayments := forwardedPayments[p := payments];
        payments := payments + existing;
      }
      forwardedPayments := forwardedPayments[p := payments];
      assert forwardedPayments == rest[p := payments];
      assert payments == Bucket(old(forwardedPayments), UnknownKey(h)) + Bucket(rest, p);
    }
  }
}
