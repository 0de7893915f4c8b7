/** Paying from a wallet whose spends may not reach the network at once. A cash note is named by its unique key. */
module WalletPayments {
  import opened Wrappers

  type Key = nat

  const MAX_RESEND_PENDING_TX_ATTEMPTS: nat := 10

  // ---- sending a batch of spends ----

  datatype Answer = Accepted | DoubleSpent | Failed
  type Answers = Key -> Answer

  datatype SendResult = Sent | DoubleSpends(keys: set<Key>) | NotSent

  predicate AllAccepted(keys: set<Key>, answers: Answers)
  {
    forall k | k in keys :: answers(k).Accepted?
  }

  function Doubles(keys: set<Key>, answers: Answers): set<Key>
  {
    set k | k in keys && answers(k).DoubleSpent?
  }

  /** Sent if and only if every spend was accepted; double spends are reported before other failures. */
  method SendSpends(keys: set<Key>, answers: Answers) returns (r: SendResult)
    ensures r == Sent <==> AllAccepted(keys, answers)
    ensures r.DoubleSpends? <==> Doubles(keys, answers) != {}
    ensures r.DoubleSpends? ==> r.keys == Doubles(keys, answers)
  {
    var rest, errors, doubles := keys, false, {};
    while rest != {}
      invariant rest <= keys
      invariant doubles == Doubles(keys - rest, answers)
      invariant errors <==> exists k :: k in keys - rest && answers(k).Failed?
      decreases |rest|
    {
      var k :| k in rest;
      match answers(k) {
        case DoubleSpent => doubles := doubles + {k};
        case Failed => errors := true;
        case Accepted =>
      }
      rest := rest - {k};
    }
    assert keys - rest == keys;
    r := if doubles != {} then DoubleSpends(doubles) else if errors then NotSent else Sent;
  }

  // ---- sending again until it works ----

  /** What stays pending and whether the caller may go on, from the given attempt. */
  function Retry(keys: set<Key>, network: nat -> Answers, attempts: nat): (set<Key>, bool)
    requires attempts <= MAX_RESEND_PENDING_TX_ATTEMPTS + 1
    decreases keys, MAX_RESEND_PENDING_TX_ATTEMPTS + 1 - attempts
  {
    if keys == {} then (keys, true)
    else
      var left := if AllAccepted(keys, network(attempts)) then {} else keys;
      if attempts > MAX_RESEND_PENDING_TX_ATTEMPTS then (left, false) else Retry(left, network, attempts + 1)
  }

  /** How many times the pending spends are sent. */
  function Rounds(keys: set<Key>, network: nat -> Answers, attempts: nat): nat
    requires attempts <= MAX_RESEND_PENDING_TX_ATTEMPTS + 1
    decreases keys, MAX_RESEND_PENDING_TX_ATTEMPTS + 1 - attempts
  {
    if keys == {} then 0
    else if attempts > MAX_RESEND_PENDING_TX_ATTEMPTS then 1
    else 1 + Rounds(if AllAccepted(keys, network(attempts)) then {} else keys, network, attempts + 1)
  }

  /** The retries give up after exactly two rounds more than the maximum, never earlier. */
  lemma {:induction false} GivesUpAfter(keys: set<Key>, network: nat -> Answers, attempts: nat)
    requires attempts <= MAX_RESEND_PENDING_TX_ATTEMPTS + 1
    ensures !Retry(keys, network, attempts).1 ==>
              Rounds(keys, network, attempts) == MAX_RESEND_PENDING_TX_ATTEMPTS + 2 - attempts
    decreases keys, MAX_RESEND_PENDING_TX_ATTEMPTS + 1 - attempts
  {
    if keys != {} && attempts <= MAX_RESEND_PENDING_TX_ATTEMPTS {
      GivesUpAfter(if AllAccepted(keys, network(attempts)) then {} else keys, network, attempts + 1);
    }
  }

  /** Some attempt from `first` to `last` had every spend accepted. */
  ghost predicate Succeeds(keys: set<Key>, network: nat -> Answers, first: nat, last: nat)
  {
    exists i :: first <= i <= last && AllAccepted(keys, network(i))
  }

  /** The retries succeed exactly when nothing was pending or one of the first eleven attempts does; what is left
      pending depends on twelve. Nothing is ever left in part. */
  lemma {:induction false} RetryIff(keys: set<Key>, network: nat -> Answers, attempts: nat)
    requires attempts <= MAX_RESEND_PENDING_TX_ATTEMPTS + 1
    ensures Retry(keys, network, attempts).1 <==> keys == {} || Succeeds(keys, network, attempts, 10)
    ensures Retry(keys, network, attempts).0
            == if Succeeds(keys, network, attempts, 11) then {} else keys
    decreases MAX_RESEND_PENDING_TX_ATTEMPTS + 1 - attempts
  {
    if keys != {} {
      if AllAccepted(keys, network(attempts)) {
        assert Succeeds(keys, network, attempts, 11);
        assert attempts <= 10 ==> Succeeds(keys, network, attempts, 10);
      } else if attempts <= MAX_RESEND_PENDING_TX_ATTEMPTS {
        RetryIff(keys, network, attempts + 1);
        SucceedsLater(keys, network, attempts, 10);
        SucceedsLater(keys, network, attempts, 11);
      }
    }
  }

  lemma SucceedsLater(keys: set<Key>, network: nat -> Answers, first: nat, last: nat)
    requires !AllAccepted(keys, network(first))
    ensures Succeeds(keys, network, first, last) <==> Succeeds(keys, network, first + 1, last)
  {
  }

  /** Going on is only ever allowed with nothing pending. */
  lemma GoOnMeansClear(keys: set<Key>, network: nat -> Answers)
    ensures Retry(keys, network, 0).1 ==> Retry(keys, network, 0).0 == {}
  {
    RetryIff(keys, network, 0);
    if keys != {} && Succeeds(keys, network, 0, 10) {
      var i :| 0 <= i <= 10 && AllAccepted(keys, network(i));
      assert Succeeds(keys, network, 0, 11);
    }
  }

  /** The other way round fails: a twelfth attempt is made, and its success reported as a failure. It is so exactly
      when that attempt is the first to succeed. */
  lemma ClearButRefusedIff(keys: set<Key>, network: nat -> Answers)
    requires keys != {}
    ensures Retry(keys, network, 0) == ({}, false)
            <==> AllAccepted(keys, network(11)) && forall i: nat | i <= 10 :: !AllAccepted(keys, network(i))
  {
    RetryIff(keys, network, 0);
    if Succeeds(keys, network, 0, 11) && !Succeeds(keys, network, 0, 10) {
      var i :| 0 <= i <= 11 && AllAccepted(keys, network(i));
      assert i == 11;
    }
  }

  /** Such a network: it accepts the spends at the twelfth attempt only. */
  lemma AcceptedTooLate(keys: set<Key>)
    requires keys != {}
    ensures Retry(keys, (i: nat) => (k: Key) => if i == 11 then Accepted else Failed, 0) == ({}, false)
  {
    var network: nat -> Answers := (i: nat) => (k: Key) => if i == 11 then Accepted else Failed;
    var key :| key in keys;
    forall i: nat | i <= 10 ensures !AllAccepted(keys, network(i)) {
      assert network(i)(key) == Failed;
    }
    ClearButRefusedIff(keys, network);
  }

  // ---- the wallet ----

  /** The inputs a payment takes and the change it makes. */
  datatype Transaction = Transaction(inputs: set<Key>, change: Option<Key>) {
    function Change(): set<Key> { if change.Some? then {change.value} else {} }
  }

  datatype PayResult = Paid | Unpaid | Unaffordable | UnconfirmedTxAfterRetries

  // ---- runs of payments and sends ----

  /** Where the notes are, as the disk will tell: available, input of a pending or of a confirmed spend, spent
      elsewhere, or input of a spend no record is left of. */
  datatype Books = Books(available: set<Key>, pending: set<Key>, confirmed: set<Key>, burnt: set<Key>, lost: set<Key>) {
    ghost function Spent(): set<Key> { pending + confirmed + burnt + lost }
    ghost function Held(): set<Key> { available + Spent() }

    /** No note is in two places. */
    ghost predicate Sound()
    {
      && available !! pending !! confirmed !! burnt !! lost
    }
  }

  /** One use of the wallet: a payment for records, or a send to another wallet. How a transaction takes its inputs
      and what the network answers to the retries and to the new spends are arbitrary. */
  datatype Use = Use(send: bool, choose: set<Key> -> Option<Transaction>, network: nat -> Answers, answers: Answers)

  /** A transaction takes available notes and makes a new one. */
  ghost predicate Fair(b: Books, choose: set<Key> -> Option<Transaction>)
  {
    choose(b.available).Some? ==>
      choose(b.available).value.inputs <= b.available && choose(b.available).value.Change() !! b.Held()
  }

  function Resent(b: Books, network: nat -> Answers): Books
  {
    var left := Retry(b.pending, network, 0).0;
    b.(pending := left, confirmed := b.confirmed + (b.pending - left))
  }

  function Result(b: Books, u: Use): PayResult
  {
    if !Retry(b.pending, u.network, 0).1 then UnconfirmedTxAfterRetries
    else if u.choose(b.available).None? then Unaffordable
    else if AllAccepted(u.choose(b.available).value.inputs, u.answers) then Paid
    else Unpaid
  }

  /** The notes a use of the wallet makes inputs of a new transaction. */
  function Inputs(b: Books, u: Use): set<Key>
  {
    if Result(b, u) == Paid || Result(b, u) == Unpaid then u.choose(b.available).value.inputs else {}
  }

  function Change(b: Books, u: Use): set<Key>
  {
    if Result(b, u) == Paid || Result(b, u) == Unpaid then u.choose(b.available).value.Change() else {}
  }

  /** The books after one use. Of a payment that is not accepted whole the double spends are dropped and the rest stays
      pending; of such a send nothing is written down. */
  function After(b: Books, u: Use): Books
  {
    var inputs, resent := Inputs(b, u), Resent(b, u.network);
    var taken := resent.(available := b.available - inputs + Change(b, u));
    match Result(b, u)
    case Paid => taken.(confirmed := taken.confirmed + inputs)
    case Unpaid =>
      if u.send then taken.(lost := taken.lost + inputs)
      else taken.(pending := inputs - Doubles(inputs, u.answers), burnt := taken.burnt + Doubles(inputs, u.answers))
    case _ => resent
  }

  ghost function Run(b: Books, uses: seq<Use>): Books
  {
    if uses == [] then b else After(Run(b, uses[..|uses| - 1]), uses[|uses| - 1])
  }

  /** Every transaction of the run takes available notes and makes a new one. */
  ghost predicate FairRun(b: Books, uses: seq<Use>)
  {
    uses == [] ||
    (FairRun(b, uses[..|uses| - 1]) && Fair(Run(b, uses[..|uses| - 1]), uses[|uses| - 1].choose))
  }

  lemma AfterIsSound(b: Books, u: Use)
    requires b.Sound() && Fair(b, u.choose)
    ensures After(b, u).Sound()
  {
    RetryIff(b.pending, u.network, 0);
  }

  lemma AfterSpends(b: Books, u: Use)
    requires b.Sound() && Fair(b, u.choose)
    ensures Inputs(b, u) !! b.Spent() && After(b, u).Spent() == b.Spent() + Inputs(b, u)
    ensures b.pending <= After(b, u).pending + After(b, u).confirmed && b.confirmed <= After(b, u).confirmed
  {
    RetryIff(b.pending, u.network, 0);
    GoOnMeansClear(b.pending, u.network);
  }

  /** Every use keeps each note in one place, forgets none, and takes inputs that never were any. */
  lemma AfterKeeps(b: Books, u: Use)
    requires b.Sound() && Fair(b, u.choose)
    ensures After(b, u).Sound() && b.Held() <= After(b, u).Held()
    ensures Inputs(b, u) !! b.Spent() && After(b, u).Spent() == b.Spent() + Inputs(b, u)
    ensures b.pending <= After(b, u).pending + After(b, u).confirmed && b.confirmed <= After(b, u).confirmed
    ensures After(b, u).lost == b.lost + if u.send && Result(b, u) == Unpaid then Inputs(b, u) else {}
  {
    AfterIsSound(b, u);
    AfterSpends(b, u);
  }

  /** The pending spends leave together, confirmed, if and only if one of twelve attempts had them all accepted. */
  lemma PendingLeavesWhole(b: Books, u: Use)
    requires b.Sound() && Fair(b, u.choose)
    ensures if Succeeds(b.pending, u.network, 0, 11)
            then b.pending <= After(b, u).confirmed && b.pending !! After(b, u).pending
            else b.pending != {} && After(b, u) == b
  {
    RetryIff(b.pending, u.network, 0);
    if b.pending == {} {
      assert AllAccepted(b.pending, u.network(0));
    }
    if Succeeds(b.pending, u.network, 0, 10) {
      var i :| 0 <= i <= 10 && AllAccepted(b.pending, u.network(i));
      assert Succeeds(b.pending, u.network, 0, 11);
    }
  }

  /** Over every run: each note is in one place, none is forgotten, and a spend that is pending is from then on pending
      or confirmed. */
  lemma {:induction false} RunKeeps(b: Books, uses: seq<Use>)
    requires b.Sound() && FairRun(b, uses)
    ensures Run(b, uses).Sound() && b.Held() <= Run(b, uses).Held() && b.Spent() <= Run(b, uses).Spent()
    ensures b.pending <= Run(b, uses).pending + Run(b, uses).confirmed && b.confirmed <= Run(b, uses).confirmed
    decreases |uses|
  {
    if uses != [] {
      RunKeeps(b, uses[..|uses| - 1]);
      AfterKeeps(Run(b, uses[..|uses| - 1]), uses[|uses| - 1]);
    }
  }

  /** The inputs of the sends among the uses that the network did not accept whole. */
  ghost function UnacceptedSends(b: Books, uses: seq<Use>): set<Key>
  {
    if uses == [] then {}
    else
      var before, u := Run(b, uses[..|uses| - 1]), uses[|uses| - 1];
      UnacceptedSends(b, uses[..|uses| - 1]) + if u.send && Result(before, u) == Unpaid then Inputs(before, u) else {}
  }

  /** Over every run exactly the inputs of unaccepted sends get lost. */
  lemma {:induction false} LostAreUnacceptedSends(b: Books, uses: seq<Use>)
    requires b.Sound() && FairRun(b, uses)
    ensures Run(b, uses).lost == b.lost + UnacceptedSends(b, uses)
    decreases |uses|
  {
    if uses != [] {
      RunKeeps(b, uses[..|uses| - 1]);
      LostAreUnacceptedSends(b, uses[..|uses| - 1]);
      AfterKeeps(Run(b, uses[..|uses| - 1]), uses[|uses| - 1]);
    }
  }

  /** Such a send: the only note of the wallet is its input, and the network does not answer. */
  lemma UnacceptedSendLosesNote(note: Key) returns (send: Use)
    ensures send.send && FairRun(Books({note}, {}, {}, {}, {}), [send])
    ensures Run(Books({note}, {}, {}, {}, {}), [send]) == Books({}, {}, {}, {}, {note})
  {
    var b := Books({note}, {}, {}, {}, {});
    send := Use(true, (a: set<Key>) => Some(Transaction({note}, None)), (i: nat) => (k: Key) => Failed,
                (k: Key) => Failed);
    assert [send][..0] == [] && Run(b, []) == b;
    assert Fair(b, send.choose);
    assert !AllAccepted({note}, send.answers);
  }

  /** The inputs that the use at a given place of the run takes. */
  ghost function InputsAt(b: Books, uses: seq<Use>, i: nat): set<Key>
    requires i < |uses|
  {
    Inputs(Run(b, uses[..i]), uses[i])
  }

  lemma {:induction false} FairUntil(b: Books, uses: seq<Use>, j: nat)
    requires FairRun(b, uses) && j < |uses|
    ensures FairRun(b, uses[..j]) && Fair(Run(b, uses[..j]), uses[j].choose)
    decreases |uses|
  {
    if j < |uses| - 1 {
      FairUntil(b, uses[..|uses| - 1], j);
      assert uses[..|uses| - 1][..j] == uses[..j];
    }
  }

  lemma {:induction false} InputsStaySpent(b: Books, uses: seq<Use>, i: nat)
    requires b.Sound() && FairRun(b, uses) && i < |uses|
    ensures InputsAt(b, uses, i) <= Run(b, uses).Spent()
    decreases |uses|
  {
    RunKeeps(b, uses[..|uses| - 1]);
    AfterKeeps(Run(b, uses[..|uses| - 1]), uses[|uses| - 1]);
    if i < |uses| - 1 {
      InputsStaySpent(b, uses[..|uses| - 1], i);
      assert uses[..|uses| - 1][..i] == uses[..i];
    }
  }

  lemma InputsAreNew(b: Books, uses: seq<Use>, j: nat)
    requires b.Sound() && FairRun(b, uses) && j < |uses|
    ensures InputsAt(b, uses, j) !! Run(b, uses[..j]).Spent() && b.Spent() <= Run(b, uses[..j]).Spent()
  {
    FairUntil(b, uses, j);
    RunKeeps(b, uses[..j]);
    AfterKeeps(Run(b, uses[..j]), uses[j]);
  }

  lemma InputsWereSpent(b: Books, uses: seq<Use>, i: nat, j: nat)
    requires b.Sound() && FairRun(b, uses) && i < j < |uses|
    ensures InputsAt(b, uses, i) <= Run(b, uses[..j]).Spent()
  {
    assert InputsAt(b, uses[..j], i) <= Run(b, uses[..j]).Spent() by {
      FairUntil(b, uses, j);
      InputsStaySpent(b, uses[..j], i);
    }
    assert InputsAt(b, uses[..j], i) == InputsAt(b, uses, i) by {
      assert uses[..j][..i] == uses[..i];
    }
  }

  /** Over every run no note is an input twice, nor if it was one before the run. */
  lemma NoInputTwice(b: Books, uses: seq<Use>, i: nat, j: nat)
    requires b.Sound() && FairRun(b, uses) && i < j < |uses|
    ensures InputsAt(b, uses, j) !! InputsAt(b, uses, i)
    ensures InputsAt(b, uses, j) !! b.Spent()
  {
    InputsAreNew(b, uses, j);
    InputsWereSpent(b, uses, i, j);
  }

  class WalletClient {
    // in memory
    var available: set<Key>
    var unconfirmed: set<Key>
    // on disk
    var diskAvailable: set<Key>
    var diskUnconfirmed: set<Key>
    var confirmed: set<Key>
    // the notes the network reported as spent elsewhere, and the inputs of spends that were not on disk at a restart
    ghost var burnt: set<Key>
    ghost var lost: set<Key>

    /** What the disk will tell at the next restart. */
    ghost function Ledger(): Books
      reads this
    {
      Books(diskAvailable, diskUnconfirmed, confirmed, burnt, lost + (unconfirmed - diskUnconfirmed))
    }

    ghost predicate Valid()
      reads this
    {
      Ledger().Sound() && diskAvailable == available && diskUnconfirmed <= unconfirmed && unconfirmed !! lost
    }

    /** The disk knows every pending spend. */
    ghost predicate Durable()
      reads this
    {
      diskUnconfirmed == unconfirmed
    }

    constructor (notes: set<Key>)
      ensures Valid() && Durable() && Ledger() == Books(notes, {}, {}, {}, {})
    {
      available, diskAvailable, unconfirmed, diskUnconfirmed, confirmed := notes, notes, {}, {}, {};
      burnt, lost := {}, {};
    }

    /** Load the wallet from disk, as the next process does. Pending spends that were not stored are gone. */
    method Restart()
      requires Valid()
      modifies this`available, this`unconfirmed, this`lost
      ensures Valid() && Durable() && Ledger() == old(Ledger())
      ensures lost == old(lost) + (old(unconfirmed) - diskUnconfirmed)
    {
      lost := lost + (unconfirmed - diskUnconfirmed);
      available, unconfirmed := diskAvailable, diskUnconfirmed;
    }

    method ClearConfirmedSpendRequests()
      requires Valid()
      modifies this`unconfirmed, this`diskUnconfirmed, this`confirmed
      ensures Valid() && Durable() && unconfirmed == {}
      ensures confirmed == old(confirmed) + old(unconfirmed)
    {
      confirmed := confirmed + unconfirmed;
      diskUnconfirmed := {};
      unconfirmed := {};
    }

    method ResendPendingTransactions(answers: Answers)
      requires Valid()
      modifies this`unconfirmed, this`diskUnconfirmed, this`confirmed
      ensures Valid() && (old(Durable()) ==> Durable())
      ensures unconfirmed == if AllAccepted(old(unconfirmed), answers) then {} else old(unconfirmed)
      ensures confirmed == old(confirmed) + (old(unconfirmed) - unconfirmed)
    {
      var sent := SendSpends(unconfirmed, answers);
      if sent == Sent {
        ClearConfirmedSpendRequests();
      }
    }

    /** Whatever the network does: all pending spends are confirmed together or all stay. */
    method ResendPendingTransactionUntilSuccess(network: nat -> Answers) returns (ok: bool, ghost rounds: nat)
      requires Valid()
      modifies this`unconfirmed, this`diskUnconfirmed, this`confirmed
      ensures Valid() && (old(Durable()) ==> Durable())
      ensures (unconfirmed, ok) == Retry(old(unconfirmed), network, 0)
      ensures rounds == Rounds(old(unconfirmed), network, 0)
      ensures ok ==> unconfirmed == {}
      ensures !ok ==> rounds == MAX_RESEND_PENDING_TX_ATTEMPTS + 2
      ensures confirmed == old(confirmed) + (old(unconfirmed) - unconfirmed)
    {
      var didError, attempts := false, 0;
      rounds := 0;
      while unconfirmed != {}
        invariant Valid() && attempts <= MAX_RESEND_PENDING_TX_ATTEMPTS + 1 && !didError
        invariant old(Durable()) ==> Durable()
        invariant Retry(old(unconfirmed), network, 0) == Retry(unconfirmed, network, attempts)
        invariant Rounds(old(unconfirmed), network, 0) == rounds + Rounds(unconfirmed, network, attempts)
        invariant unconfirmed <= old(unconfirmed) && confirmed == old(confirmed) + (old(unconfirmed) - unconfirmed)
        decreases MAX_RESEND_PENDING_TX_ATTEMPTS + 1 - attempts
      {
        ResendPendingTransactions(network(attempts));
        rounds := rounds + 1;
        if attempts > MAX_RESEND_PENDING_TX_ATTEMPTS {
          didError := true;
          break;
        }
        attempts := attempts + 1;
      }
      GoOnMeansClear(old(unconfirmed), network);
      GivesUpAfter(old(unconfirmed), network, 0);
      ok := !didError;
    }

    /** Reload from disk, build a transaction from what is available there, and mark its inputs as pending. The
        pending spends themselves stay in memory. */
    method LocalSend(choose: set<Key> -> Option<Transaction>) returns (tx: Option<Transaction>)
      requires Valid() && Durable() && Fair(Ledger(), choose)
      modifies this`available, this`unconfirmed, this`diskAvailable
      ensures Valid() && tx == choose(old(available)) && diskUnconfirmed == old(unconfirmed)
      ensures tx.None? ==> Durable() && available == old(available)
      ensures tx.Some? ==> && unconfirmed == old(unconfirmed) + tx.value.inputs
                           && available == old(available) - tx.value.inputs + tx.value.Change()
    {
      available, unconfirmed := diskAvailable, diskUnconfirmed;
      tx := choose(available);
      if tx.Some? {
        available := available - tx.value.inputs + tx.value.Change();
        unconfirmed := unconfirmed + tx.value.inputs;
        diskAvailable := available;
      }
    }

    /** Pay for records. New spends are made only when none is pending, so no note is ever in two of them. Whatever
        the network answers, nothing is lost and the disk knows it all afterwards. */
    method PayForRecords(choose: set<Key> -> Option<Transaction>, network: nat -> Answers, answers: Answers)
      returns (r: PayResult)
      requires Valid() && Durable() && Fair(Ledger(), choose)
      modifies this
      ensures Valid() && Durable() && lost == old(lost)
      ensures r == Result(old(Ledger()), Use(false, choose, network, answers))
      ensures Ledger() == After(old(Ledger()), Use(false, choose, network, answers))
    {
      ghost var before := Ledger();
      GoOnMeansClear(unconfirmed, network);
      var clear, _ := ResendPendingTransactionUntilSuccess(network);
      assert Ledger() == Resent(before, network);
      if !clear {
        return UnconfirmedTxAfterRetries;
      }
      var tx := LocalSend(choose);
      if tx.None? {
        return Unaffordable;
      }
      assert unconfirmed == tx.value.inputs;
      var paid := SendPending(answers);
      r := if paid then Paid else Unpaid;
    }

    /** Send the pending spends once. All are confirmed, or those spent elsewhere are dropped and the rest stored. */
    method SendPending(answers: Answers) returns (paid: bool)
      requires Valid()
      modifies this`unconfirmed, this`diskUnconfirmed, this`confirmed, this`burnt
      ensures Valid() && Durable() && (paid <==> AllAccepted(old(unconfirmed), answers))
      ensures confirmed == old(confirmed) + (if paid then old(unconfirmed) else {})
      ensures burnt == old(burnt) + Doubles(old(unconfirmed), answers)
      ensures unconfirmed == if paid then {} else old(unconfirmed) - Doubles(old(unconfirmed), answers)
    {
      var sent := SendSpends(unconfirmed, answers);
      paid := sent == Sent;
      if paid {
        assert Doubles(unconfirmed, answers) == {};
        ClearConfirmedSpendRequests();
        return;
      }
      if sent.DoubleSpends? {
        unconfirmed := unconfirmed - sent.keys;
        burnt := burnt + sent.keys;
      }
      diskUnconfirmed := unconfirmed;
    }

    /** Send to another wallet. The wallet is given up with the call, so only what it left on disk counts afterwards:
        the list of available notes and the records of pending and confirmed spends forget the inputs of the payment
        exactly when the network did not accept them all. */
    method Send(choose: set<Key> -> Option<Transaction>, network: nat -> Answers, answers: Answers)
      returns (r: PayResult)
      requires Valid() && Durable() && Fair(Ledger(), choose)
      modifies this
      ensures Valid() && lost == old(lost) && burnt == old(burnt)
      ensures Durable() <==> r != Unpaid
      ensures unconfirmed == if r == Unpaid then Inputs(old(Ledger()), Use(true, choose, network, answers))
                             else Ledger().pending
      ensures r == Result(old(Ledger()), Use(true, choose, network, answers))
      ensures Ledger() == After(old(Ledger()), Use(true, choose, network, answers))
    {
      ghost var before := Ledger();
      GoOnMeansClear(unconfirmed, network);
      var clear, _ := ResendPendingTransactionUntilSuccess(network);
      assert Ledger() == Resent(before, network);
      if !clear {
        return UnconfirmedTxAfterRetries;
      }
      var tx := LocalSend(choose);
      if tx.None? {
        return Unaffordable;
      }
      assert unconfirmed == tx.value.inputs;
      var sent := SendSpends(unconfirmed, answers);
      if sent != Sent {
        return Unpaid;
      }
      ClearConfirmedSpendRequests();
      r := Paid;
    }
  }
}
