/** The auditor's endless crawl: fetch the spends of known outputs, track the outputs of what was fetched, and
    try the rest again later. */
module UtxoCrawl {

  type Address = nat

  const BIG_UTXO: nat := 100_000

  /** What fetching an address gives; a spend comes with the outputs to track further. */
  datatype Fetch = Spend(outputs: map<Address, nat>) | DoubleSpend | NotFound | Error

  datatype Pending = Pending(failures: nat, time: nat, amount: nat)

  datatype Request = Request(failures: nat, amount: nat)

  function Again(p: Pending): Request
  {
    Request(p.failures, p.amount)
  }

  /** One turn of the loop: when it starts, what the network answers, when the answers are in. */
  datatype Round = Round(now: nat, network: Address -> Fetch, done: nat, reattemptSeconds: nat)

  datatype State = State(utxos: map<Address, Pending>, toGet: map<Address, Request>, fetched: set<Address>) {
    /** All addresses ever learnt of. */
    function Known(): set<Address>
    {
      fetched + utxos.Keys + toGet.Keys
    }

    function Expired(now: nat): map<Address, Request>
    {
      map a | a in utxos && now > utxos[a].time :: Again(utxos[a])
    }

    function Requested(now: nat): map<Address, Request>
    {
      toGet + Expired(now)
    }
  }

  // ---- what one crawl returns ----

  function Fetched(requests: map<Address, Request>, network: Address -> Fetch): set<Address>
  {
    set a | a in requests && (network(a).Spend? || network(a).DoubleSpend?)
  }

  function NextTry(r: Round, request: Request, answer: Fetch): nat
  {
    r.done + if answer.NotFound? && request.amount <= BIG_UTXO
             then r.reattemptSeconds * (request.failures * 8 + 1) else r.reattemptSeconds
  }

  function Failed(requests: map<Address, Request>, r: Round): map<Address, Pending>
  {
    map a | a in requests && (r.network(a).NotFound? || r.network(a).Error?) ::
      Pending(requests[a].failures + 1, NextTry(r, requests[a], r.network(a)), requests[a].amount)
  }

  function Tracked(requests: map<Address, Request>, network: Address -> Fetch): set<(Address, nat)>
  {
    set a, b | a in requests && network(a).Spend? && b in network(a).outputs :: (b, network(a).outputs[b])
  }

  ghost function TrackedAddresses(requests: map<Address, Request>, network: Address -> Fetch): set<Address>
  {
    set a, b | a in requests && network(a).Spend? && b in network(a).outputs :: b
  }

  /** After a failure at least one interval passes; for a small output that is not found it grows by eight intervals
      with each failure. */
  lemma BacksOff(r: Round, request: Request, answer: Fetch)
    ensures NextTry(r, request, answer) >= r.done + r.reattemptSeconds
    ensures NextTry(r, request.(failures := request.failures + 1), answer)
            == NextTry(r, request, answer)
               + if answer.NotFound? && request.amount <= BIG_UTXO then 8 * r.reattemptSeconds else 0
  {
    var f, t := request.failures, r.reattemptSeconds;
    assert t * (f * 8 + 1) == t + 8 * (t * f);
    assert t * ((f + 1) * 8 + 1) == t * (f * 8 + 1) + 8 * t;
  }

  lemma TrackedByPairs(requests: map<Address, Request>, network: Address -> Fetch, b: Address)
    ensures (exists n :: (b, n) in Tracked(requests, network)) <==> b in TrackedAddresses(requests, network)
  {
    if b in TrackedAddresses(requests, network) {
      var a :| a in requests && network(a).Spend? && b in network(a).outputs;
      assert (b, network(a).outputs[b]) in Tracked(requests, network);
    }
  }

  /** Each request ends in exactly one of the two results. */
  lemma EveryRequestIsAnswered(requests: map<Address, Request>, r: Round)
    ensures Fetched(requests, r.network) !! Failed(requests, r).Keys
    ensures Fetched(requests, r.network) + Failed(requests, r).Keys == requests.Keys
  {
  }

  // ---- one turn of the loop ----

  ghost predicate Turn(s: State, r: Round, t: State)
  {
    var requests := s.Requested(r.now);
    if requests.Keys == {} then t == s
    else
      && t.fetched == s.fetched + Fetched(requests, r.network)
      && t.utxos == (s.utxos - Fetched(requests, r.network)) + Failed(requests, r)
      && t.toGet.Keys == TrackedAddresses(requests, r.network) - t.fetched
      && forall a | a in t.toGet :: t.toGet[a].failures == 0 && (a, t.toGet[a].amount) in Tracked(requests, r.network)
  }

  /** The address is not both fetched and waiting to be fetched. */
  ghost predicate Once(s: State, a: Address)
  {
    a in s.fetched ==> a !in s.utxos && a !in s.toGet
  }

  lemma RequestsAreKnown(s: State, now: nat)
    ensures s.Requested(now).Keys <= s.utxos.Keys + s.toGet.Keys
    ensures s.toGet.Keys <= s.Requested(now).Keys
  {
  }

  lemma TurnKeepsOnce(s: State, r: Round, t: State, a: Address)
    requires Turn(s, r, t) && Once(s, a)
    ensures Once(t, a)
  {
    EveryRequestIsAnswered(s.Requested(r.now), r);
    RequestsAreKnown(s, r.now);
  }

  lemma TurnMoves(s: State, r: Round, t: State)
    requires Turn(s, r, t) && s.Requested(r.now).Keys != {}
    ensures t.fetched + t.utxos.Keys == s.fetched + s.utxos.Keys + s.Requested(r.now).Keys
  {
    var requests := s.Requested(r.now);
    EveryRequestIsAnswered(requests, r);
    assert t.utxos.Keys == (s.utxos.Keys - Fetched(requests, r.network)) + Failed(requests, r).Keys;
  }

  lemma KnownAfter(fetched: set<Address>, waiting: set<Address>, requests: set<Address>, toGet: set<Address>,
                   fetchedNext: set<Address>, waitingNext: set<Address>, learnt: set<Address>)
    requires toGet <= requests <= waiting + toGet && fetchedNext + waitingNext == fetched + waiting + requests
    ensures fetchedNext + waitingNext + (learnt - fetchedNext) == fetched + waiting + toGet + learnt
  {
  }

  /** A turn forgets no address and learns of exactly the outputs of the spends it fetched. */
  lemma TurnLearns(s: State, r: Round, t: State)
    requires Turn(s, r, t)
    ensures t.Known() == s.Known() + TrackedAddresses(s.Requested(r.now), r.network)
  {
    var requests := s.Requested(r.now);
    if requests.Keys != {} {
      TurnMoves(s, r, t);
      RequestsAreKnown(s, r.now);
      KnownAfter(s.fetched, s.utxos.Keys, requests.Keys, s.toGet.Keys, t.fetched, t.utxos.Keys,
                 TrackedAddresses(requests, r.network));
    }
  }

  // ---- every run ----

  /** Turn `i` leads from state `i` to the next. */
  ghost predicate TurnAt(states: seq<State>, rounds: seq<Round>, i: nat)
    requires |states| == |rounds| + 1 && i < |rounds|
  {
    Turn(states[i], rounds[i], states[i + 1])
  }

  ghost predicate IsRun(states: seq<State>, rounds: seq<Round>)
  {
    && |states| == |rounds| + 1 && states[0].fetched == {}
    && forall i: nat | i < |rounds| :: TurnAt(states, rounds, i)
  }

  /** What turn `i` asks the network for, what it fetches and what it learns of. */
  ghost function Asked(states: seq<State>, rounds: seq<Round>, i: nat): set<Address>
    requires i < |states| && i < |rounds|
  {
    states[i].Requested(rounds[i].now).Keys
  }

  ghost function FetchedBy(states: seq<State>, rounds: seq<Round>, i: nat): set<Address>
    requires i < |states| && i < |rounds|
  {
    Fetched(states[i].Requested(rounds[i].now), rounds[i].network)
  }

  ghost function Learnt(states: seq<State>, rounds: seq<Round>, i: nat): set<Address>
    requires i < |states| && i < |rounds|
  {
    TrackedAddresses(states[i].Requested(rounds[i].now), rounds[i].network)
  }

  /** What a turn does to one address. */
  lemma TurnFor(s: State, r: Round, t: State, a: Address)
    requires Turn(s, r, t)
    ensures a in t.Known() <==> a in s.Known() || a in TrackedAddresses(s.Requested(r.now), r.network)
    ensures a in s.fetched || a in Fetched(s.Requested(r.now), r.network) ==> a in t.fetched
    ensures Once(s, a) ==> Once(t, a)
  {
    assert a in t.Known() <==> a in s.Known() || a in TrackedAddresses(s.Requested(r.now), r.network) by {
      TurnLearns(s, r, t);
    }
    if Once(s, a) {
      TurnKeepsOnce(s, r, t, a);
    }
  }

  lemma StepOfRun(states: seq<State>, rounds: seq<Round>, i: nat, a: Address)
    requires IsRun(states, rounds) && i < |rounds|
    ensures a in states[i + 1].Known() <==> a in states[i].Known() || a in Learnt(states, rounds, i)
    ensures a in states[i].fetched || a in FetchedBy(states, rounds, i) ==> a in states[i + 1].fetched
    ensures Once(states[i], a) ==> Once(states[i + 1], a)
  {
    assert TurnAt(states, rounds, i);
    TurnFor(states[i], rounds[i], states[i + 1], a);
  }

  /** At every loop head of every run, no address is both fetched and waiting. */
  lemma {:induction false} NeverBoth(states: seq<State>, rounds: seq<Round>, i: nat, a: Address)
    requires IsRun(states, rounds) && i <= |rounds|
    ensures Once(states[i], a)
    decreases i
  {
    if i > 0 {
      NeverBoth(states, rounds, i - 1, a);
      StepOfRun(states, rounds, i - 1, a);
    }
  }

  /** A known address stays known for ever, and a fetched one fetched. */
  lemma {:induction false} KnownForEver(states: seq<State>, rounds: seq<Round>, i: nat, j: nat, a: Address)
    requires IsRun(states, rounds) && i <= j < |states|
    ensures a in states[i].Known() ==> a in states[j].Known()
    ensures a in states[i].fetched ==> a in states[j].fetched
    decreases j
  {
    if i < j {
      KnownForEver(states, rounds, i, j - 1, a);
      StepOfRun(states, rounds, j - 1, a);
    }
  }

  /** An output of a spend fetched in any turn is from then on fetched or waiting to be. */
  lemma NoOutputIsForgotten(states: seq<State>, rounds: seq<Round>, i: nat, j: nat, output: Address)
    requires IsRun(states, rounds) && i < j < |states|
    requires output in Learnt(states, rounds, i)
    ensures output in states[j].fetched || output in states[j].utxos || output in states[j].toGet
  {
    StepOfRun(states, rounds, i, output);
    KnownForEver(states, rounds, i + 1, j, output);
  }

  /** What is known came from somewhere: it was there at the start or is an output of a spend fetched since. */
  lemma {:induction false} KnownWasLearnt(states: seq<State>, rounds: seq<Round>, j: nat, a: Address) returns (i: nat)
    requires IsRun(states, rounds) && j < |states|
    requires a in states[j].Known() && a !in states[0].Known()
    ensures i < j && a in Learnt(states, rounds, i)
    decreases j
  {
    StepOfRun(states, rounds, j - 1, a);
    if a in states[j - 1].Known() {
      i := KnownWasLearnt(states, rounds, j - 1, a);
    } else {
      i := j - 1;
    }
  }

  /** No address is asked for again after a turn fetched it, so no spend is processed in two turns. */
  lemma FetchedOnlyOnce(states: seq<State>, rounds: seq<Round>, i: nat, j: nat, a: Address)
    requires IsRun(states, rounds) && i < j < |rounds|
    requires a in FetchedBy(states, rounds, i)
    ensures a !in Asked(states, rounds, j)
  {
    assert a in states[j].fetched by {
      StepOfRun(states, rounds, i, a);
      KnownForEver(states, rounds, i + 1, j, a);
    }
    assert a !in states[j].utxos && a !in states[j].toGet by {
      NeverBoth(states, rounds, j, a);
    }
    RequestsAreKnown(states[j], rounds[j].now);
  }

  // the pause between two attempts

  predicate Fails(answer: Fetch) { answer.NotFound? || answer.Error? }

  /** An address asked for in vain waits with one failure more; one that was not asked for waits as before. */
  lemma TurnPending(s: State, r: Round, t: State, a: Address)
    requires Turn(s, r, t)
    ensures a in s.Requested(r.now) && Fails(r.network(a)) ==>
              && a in t.utxos
              && t.utxos[a] == var request := s.Requested(r.now)[a];
                               Pending(request.failures + 1, NextTry(r, request, r.network(a)), request.amount)
    ensures a !in s.Requested(r.now) && a in s.utxos ==> a in t.utxos && t.utxos[a] == s.utxos[a]
  {
  }

  lemma PendingStep(states: seq<State>, rounds: seq<Round>, i: nat, a: Address)
    requires IsRun(states, rounds) && i < |rounds|
    ensures a in Asked(states, rounds, i) && Fails(rounds[i].network(a)) ==>
              && a in states[i + 1].utxos
              && states[i + 1].utxos[a]
                 == var request := states[i].Requested(rounds[i].now)[a];
                    Pending(request.failures + 1, NextTry(rounds[i], request, rounds[i].network(a)), request.amount)
    ensures a !in Asked(states, rounds, i) && a in states[i].utxos ==>
              a in states[i + 1].utxos && states[i + 1].utxos[a] == states[i].utxos[a]
  {
    assert TurnAt(states, rounds, i);
    TurnPending(states[i], rounds[i], states[i + 1], a);
  }

  lemma {:induction false} WaitsUnchanged(states: seq<State>, rounds: seq<Round>, i: nat, j: nat, a: Address)
    requires IsRun(states, rounds) && i <= j < |states| && a in states[i].utxos
    requires forall k | i <= k < j :: a !in Asked(states, rounds, k)
    ensures a in states[j].utxos && states[j].utxos[a] == states[i].utxos[a]
    decreases j
  {
    if i < j {
      WaitsUnchanged(states, rounds, i, j - 1, a);
      PendingStep(states, rounds, j - 1, a);
    }
  }

  /** An address that was not found is not asked for again within the interval, unless a spend fetched meanwhile
      names it as an output. */
  lemma PausesBetweenAttempts(states: seq<State>, rounds: seq<Round>, i: nat, j: nat, a: Address)
    requires IsRun(states, rounds) && i < j < |rounds|
    requires a in Asked(states, rounds, i) && Fails(rounds[i].network(a))
    requires forall k | i < k < j :: a !in Asked(states, rounds, k)
    requires a in Asked(states, rounds, j) && a !in states[j].toGet
    ensures rounds[j].now > rounds[i].done + rounds[i].reattemptSeconds
    ensures states[j].Requested(rounds[j].now)[a].failures == states[i].Requested(rounds[i].now)[a].failures + 1
    ensures states[j].Requested(rounds[j].now)[a].amount == states[i].Requested(rounds[i].now)[a].amount
  {
    PendingStep(states, rounds, i, a);
    WaitsUnchanged(states, rounds, i + 1, j, a);
    BacksOff(rounds[i], states[i].Requested(rounds[i].now)[a], rounds[i].network(a));
  }

  /** Over every run, whatever waits is asked for by some turn once a turn starts after its time. */
  lemma {:induction false} AskedInTime(states: seq<State>, rounds: seq<Round>, i: nat, j: nat, a: Address)
    returns (k: nat)
    requires IsRun(states, rounds) && i <= j < |rounds|
    requires a in states[i].toGet || (a in states[i].utxos && rounds[j].now > states[i].utxos[a].time)
    ensures i <= k <= j && a in Asked(states, rounds, k)
    decreases j - i
  {
    if a in Asked(states, rounds, i) {
      return i;
    }
    RequestsAreKnown(states[i], rounds[i].now);
    PendingStep(states, rounds, i, a);
    k := AskedInTime(states, rounds, i + 1, j, a);
  }

  // ---- the loop body ----

  function Collected(utxos: map<Address, Pending>, toGet: map<Address, Request>, seen: set<Address>, now: nat)
    : map<Address, Request>
  {
    toGet + map a | a in utxos && a in seen && now > utxos[a].time :: Again(utxos[a])
  }

  lemma CollectOne(utxos: map<Address, Pending>, toGet: map<Address, Request>, seen: set<Address>, now: nat, a: Address)
    requires a in utxos
    ensures Collected(utxos, toGet, seen + {a}, now)
            == if now > utxos[a].time then Collected(utxos, toGet, seen, now)[a := Again(utxos[a])]
               else Collected(utxos, toGet, seen, now)
  {
  }

  lemma CollectEnds(utxos: map<Address, Pending>, toGet: map<Address, Request>, now: nat)
    ensures Collected(utxos, toGet, {}, now) == toGet
    ensures Collected(utxos, toGet, utxos.Keys, now) == State(utxos, toGet, {}).Requested(now)
  {
  }

  method CollectExpired(utxos: map<Address, Pending>, toGet: map<Address, Request>, now: nat)
    returns (requests: map<Address, Request>)
    ensures requests == State(utxos, toGet, {}).Requested(now)
  {
    requests := toGet;
    var rest := utxos.Keys;
    ghost var seen: set<Address> := {};
    CollectEnds(utxos, toGet, now);
    while rest != {}
      invariant rest <= utxos.Keys && seen == utxos.Keys - rest
      invariant requests == Collected(utxos, toGet, seen, now)
      decreases |rest|
    {
      var a :| a in rest;
      CollectOne(utxos, toGet, seen, now, a);
      if now > utxos[a].time {
        requests := requests[a := Again(utxos[a])];
      }
      rest, seen := rest - {a}, seen + {a};
    }
    assert seen == utxos.Keys;
  }

  class Auditor {
    var utxoAddresses: map<Address, Pending>
    var addrsToGet: map<Address, Request>
    var addrsFetched: set<Address>

    ghost function Now(): State
      reads this
    {
      State(utxoAddresses, addrsToGet, addrsFetched)
    }

    /** Start from the outputs of the genesis spend, which count as worth nothing. */
    constructor (genesisUtxos: set<Address>, now: nat)
      ensures Now().Known() == genesisUtxos && addrsFetched == {} && addrsToGet == map[]
      ensures forall a | a in genesisUtxos :: utxoAddresses[a] == Pending(0, now, 0)
    {
      utxoAddresses := map a | a in genesisUtxos :: Pending(0, now, 0);
      addrsToGet, addrsFetched := map[], {};
    }

    method CrawlOnce(r: Round)
      modifies this
      ensures Turn(old(Now()), r, Now())
    {
      addrsToGet := CollectExpired(utxoAddresses, addrsToGet, r.now);
      ghost var requests := addrsToGet;
      if addrsToGet.Keys == {} {
        return;
      }
      var fetched := Fetched(addrsToGet, r.network);
      var failed := Failed(addrsToGet, r);
      var tracked := Tracked(addrsToGet, r.network);
      addrsToGet := map[];
      utxoAddresses := utxoAddresses - fetched;
      addrsFetched := addrsFetched + fetched;
      utxoAddresses := utxoAddresses + failed;
      Track(tracked);
      assert addrsToGet.Keys == TrackedAddresses(requests, r.network) - addrsFetched by {
        forall a ensures (exists n :: (a, n) in tracked) <==> a in TrackedAddresses(requests, r.network) {
          TrackedByPairs(requests, r.network, a);
        }
      }
    }

    method Track(tracked: set<(Address, nat)>)
      requires addrsToGet == map[]
      modifies this`addrsToGet
      ensures forall a :: a in addrsToGet <==> a !in addrsFetched && exists n :: (a, n) in tracked
      ensures forall a | a in addrsToGet :: addrsToGet[a].failures == 0 && (a, addrsToGet[a].amount) in tracked
    {
      var rest := tracked;
      while rest != {}
        invariant rest <= tracked
        invariant forall a | a in addrsToGet ::
                    a !in addrsFetched && addrsToGet[a].failures == 0 && (a, addrsToGet[a].amount) in tracked
        invariant forall e | e in tracked && e !in rest && e.0 !in addrsFetched :: e.0 in addrsToGet
        decreases |rest|
      {
        var e :| e in rest;
        if e.0 !in addrsFetched && e.0 !in addrsToGet {
          addrsToGet := addrsToGet[e.0 := Request(0, e.1)];
        }
        rest := rest - {e};
      }
      forall a, n | (a, n) in tracked && a !in addrsFetched ensures a in addrsToGet {
        assert (a, n).0 == a;
      }
    }
  }
}
