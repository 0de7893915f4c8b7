/** Adding nodes one by one, each on the next port that is not in use. */
module PortAllocation {
  import opened Wrappers

  const PORT_MAX: nat := 65535
  const NODE_ADD_MAX_RETRIES: nat := 5

  type Port = p: nat | p <= PORT_MAX

  /** How an attempt to add a node ends. */
  datatype Attempt = Added | PortInUse | FailedToAdd | OtherError

  function Successes(attempts: nat -> Attempt, n: nat): nat
  {
    if n == 0 then 0 else Successes(attempts, n - 1) + if attempts(n - 1).Added? then 1 else 0
  }

  /** The ports tried that a node now runs on. */
  function TakenPorts(tried: seq<Port>, attempts: nat -> Attempt): seq<Port>
  {
    if tried == [] then []
    else TakenPorts(tried[..|tried| - 1], attempts)
         + if attempts(|tried| - 1).Added? then [tried[|tried| - 1]] else []
  }

  ghost predicate AllBelow(ports: seq<Port>, p: nat)
  {
    forall i | 0 <= i < |ports| :: ports[i] < p
  }

  /** Each port is larger than all before it. */
  ghost predicate Increasing(ports: seq<Port>)
    decreases |ports|
  {
    ports == [] || (Increasing(ports[..|ports| - 1]) && AllBelow(ports[..|ports| - 1], ports[|ports| - 1]))
  }

  /** No port from `start` up to `end` was passed over while it was free. */
  ghost predicate NoneSkipped(used: seq<Port>, tried: seq<Port>, start: nat, end: nat)
  {
    forall p: Port | start <= p < end :: p in used || p in tried
  }

  /** The last `n` of the first `count` attempts failed. */
  ghost predicate FailedInARow(attempts: nat -> Attempt, count: nat, n: nat)
    requires n <= count
  {
    forall i | count - n <= i < count :: !attempts(i).Added?
  }

  /** The last five of the first `count` attempts failed. */
  ghost predicate GaveUp(attempts: nat -> Attempt, count: nat)
  {
    count >= NODE_ADD_MAX_RETRIES && FailedInARow(attempts, count, NODE_ADD_MAX_RETRIES)
  }

  lemma TakeOne(tried: seq<Port>, p: Port, attempts: nat -> Attempt)
    ensures TakenPorts(tried + [p], attempts)
            == TakenPorts(tried, attempts) + if attempts(|tried|).Added? then [p] else []
  {
  }

  /** Ports passed over because they are in use were in use before or are taken by a node added since. */
  lemma PassedOver(usedPorts: seq<Port>, tried: seq<Port>, attempts: nat -> Attempt, start: nat, port: nat, next: nat)
    requires NoneSkipped(usedPorts, tried, start, port)
    requires forall p: Port | port <= p < next :: p in usedPorts + TakenPorts(tried, attempts)
    ensures NoneSkipped(usedPorts, tried, start, next)
  {
    TakenWereTried(tried, attempts);
    forall p: Port | start <= p < next ensures p in usedPorts || p in tried {
      assert p >= port ==> p in usedPorts + TakenPorts(tried, attempts);
    }
  }

  /** The ports tried so far, before `port`, are in order, in range, were free, and left out none that was. */
  ghost predicate TriedWell(usedPorts: seq<Port>, tried: seq<Port>, start: nat, port: nat, maxPort: nat)
  {
    && Increasing(tried) && AllBelow(tried, port) && NoneSkipped(usedPorts, tried, start, port)
    && forall p | p in tried :: start <= p <= maxPort && p !in usedPorts
  }

  lemma TryOne(usedPorts: seq<Port>, tried: seq<Port>, start: nat, port: Port, maxPort: nat)
    requires TriedWell(usedPorts, tried, start, port, maxPort) && start <= port <= maxPort && port !in usedPorts
    ensures TriedWell(usedPorts, tried + [port], start, port + 1, maxPort)
  {
  }

  /** After `n` attempts, `left` nodes are still to add and exactly the last `retries` attempts failed. */
  ghost predicate CountedWell(nodesToAdd: int, attempts: nat -> Attempt, n: nat, left: int, retries: nat)
  {
    && left == nodesToAdd - Successes(attempts, n)
    && (nodesToAdd > 0 ==> left >= 0 && n <= NODE_ADD_MAX_RETRIES * (nodesToAdd - left) + retries)
    && (nodesToAdd <= 0 ==> n == 0)
    && retries <= n && retries <= NODE_ADD_MAX_RETRIES && (retries > 0 ==> left > 0)
    && FailedInARow(attempts, n, retries) && (retries < n ==> attempts(n - 1 - retries).Added?)
  }

  lemma CountOne(nodesToAdd: int, attempts: nat -> Attempt, n: nat, left: int, retries: nat)
    requires CountedWell(nodesToAdd, attempts, n, left, retries) && left > 0 && retries < NODE_ADD_MAX_RETRIES
    ensures if attempts(n).Added? then CountedWell(nodesToAdd, attempts, n + 1, left - 1, 0)
            else CountedWell(nodesToAdd, attempts, n + 1, left, retries + 1)
  {
  }

  /** Pass over used ports. A port number cannot go beyond the largest: then there is none. */
  method NextFree(used: seq<Port>, start: Port, maxPort: Port) returns (port: Option<Port>)
    ensures port.Some? ==> && start <= port.value && (port.value > maxPort || port.value !in used)
                           && (port.value > maxPort ==> port.value == maxPort + 1 || port.value == start)
                           && forall p: Port | start <= p < port.value :: p in used
    ensures port.None? <==> maxPort == PORT_MAX && forall p: Port | start <= p <= PORT_MAX :: p in used
  {
    var current: Port := start;
    while current in used && current <= maxPort
      invariant start <= current && forall p: Port | start <= p < current :: p in used
      invariant current > maxPort ==> current == maxPort + 1 || current == start
      decreases PORT_MAX - current
    {
      if current == PORT_MAX {
        return None;
      }
      current := current + 1;
    }
    port := Some(current);
  }

  datatype Outcome = Outcome(used: seq<Port>, left: int, errors: nat, overflow: bool)

  /** What a run of `AddNodes` may come to. */
  ghost predicate AddedWell(nodesToAdd: int, usedPorts: seq<Port>, start: Port, maxPort: nat, attempts: nat -> Attempt,
                            r: Outcome, tried: seq<Port>)
  {
    // where nodes are tried
    && Increasing(tried) && (forall p | p in tried :: start <= p <= maxPort && p !in usedPorts)
    && r.used == usedPorts + TakenPorts(tried, attempts)
    // how often
    && r.left == nodesToAdd - Successes(attempts, |tried|)
    && (nodesToAdd > 0 ==> r.left >= 0 && |tried| <= NODE_ADD_MAX_RETRIES * nodesToAdd)
    && (nodesToAdd <= 0 ==> tried == [])
    // why it stops short
    && (r.left > 0 && !r.overflow ==>
          GaveUp(attempts, |tried|) || NoneSkipped(usedPorts, tried, start, maxPort + 1))
    && (r.left > 0 && !GaveUp(attempts, |tried|) ==> |tried| < NODE_ADD_MAX_RETRIES * nodesToAdd)
    // what is reported
    && (!r.overflow ==> r.errors == if r.left > 0 then 1 else 0)
    // when the port number overflows
    && (r.overflow <==>
          && maxPort == PORT_MAX && NoneSkipped(usedPorts, tried, start, PORT_MAX + 1)
          && (PORT_MAX in tried || (r.left > 0 && !GaveUp(attempts, |tried|))))
  }

  lemma Ends(nodesToAdd: int, usedPorts: seq<Port>, start: Port, port: nat, maxPort: Port, attempts: nat -> Attempt,
             r: Outcome, tried: seq<Port>, retries: nat)
    requires TriedWell(usedPorts, tried, start, port, maxPort)
    requires CountedWell(nodesToAdd, attempts, |tried|, r.left, retries)
    requires r.used == usedPorts + TakenPorts(tried, attempts)
    requires r.overflow ==> && maxPort == PORT_MAX && port == PORT_MAX + 1
                            && (PORT_MAX in tried || (r.left > 0 && retries < NODE_ADD_MAX_RETRIES))
    requires !r.overflow ==>
               && (port <= PORT_MAX || maxPort < PORT_MAX)
               && (r.left > 0 ==> retries == NODE_ADD_MAX_RETRIES || port > maxPort)
               && r.errors == if r.left > 0 then 1 else 0
    ensures AddedWell(nodesToAdd, usedPorts, start, maxPort, attempts, r, tried)
  {
    assert retries < NODE_ADD_MAX_RETRIES ==> !GaveUp(attempts, |tried|);
  }

  datatype Run = Run(used: seq<Port>, tried: seq<Port>, port: nat, left: int, retries: nat)

  datatype Stop = Continue | Exhausted | Overflowed

  ghost predicate Going(run: Run, nodesToAdd: int, usedPorts: seq<Port>, start: Port, maxPort: Port,
                        attempts: nat -> Attempt)
  {
    && start <= run.port
    && TriedWell(usedPorts, run.tried, start, run.port, maxPort)
    && run.used == usedPorts + TakenPorts(run.tried, attempts)
    && CountedWell(nodesToAdd, attempts, |run.tried|, run.left, run.retries)
  }

  lemma PassOver(run: Run, next: nat, nodesToAdd: int, usedPorts: seq<Port>, start: Port, maxPort: Port,
                 attempts: nat -> Attempt)
    requires Going(run, nodesToAdd, usedPorts, start, maxPort, attempts) && run.port <= next
    requires forall p: Port | run.port <= p < next :: p in run.used
    ensures Going(run.(port := next), nodesToAdd, usedPorts, start, maxPort, attempts)
  {
    PassedOver(usedPorts, run.tried, attempts, start, run.port, next);
  }

  /** The port of the run has been tried. */
  function Tried(run: Run, port: Port, attempt: Attempt): Run
  {
    if attempt.Added? then Run(run.used + [port], run.tried + [port], port + 1, run.left - 1, 0)
    else Run(run.used, run.tried + [port], port + 1, run.left, run.retries + 1)
  }

  lemma Try(run: Run, port: Port, nodesToAdd: int, usedPorts: seq<Port>, start: Port, maxPort: Port,
            attempts: nat -> Attempt)
    requires Going(run, nodesToAdd, usedPorts, start, maxPort, attempts)
    requires run.left > 0 && run.retries < NODE_ADD_MAX_RETRIES
    requires port == run.port <= maxPort && port !in run.used
    ensures Going(Tried(run, port, attempts(|run.tried|)), nodesToAdd, usedPorts, start, maxPort, attempts)
  {
    TakeOne(run.tried, port, attempts);
    TryOne(usedPorts, run.tried, start, port, maxPort);
    CountOne(nodesToAdd, attempts, |run.tried|, run.left, run.retries);
  }

  /** One turn of the loop: find the next free port and try it. */
  method TryNext(run: Run, ghost nodesToAdd: int, ghost usedPorts: seq<Port>, ghost start: Port, maxPort: Port,
                 attempts: nat -> Attempt)
    returns (after: Run, stop: Stop)
    requires Going(run, nodesToAdd, usedPorts, start, maxPort, attempts) && run.port <= PORT_MAX
    requires run.left > 0 && run.retries < NODE_ADD_MAX_RETRIES
    ensures Going(after, nodesToAdd, usedPorts, start, maxPort, attempts)
    ensures stop == Continue ==> run.port < after.port <= PORT_MAX
    ensures stop == Exhausted ==> maxPort < after.port <= PORT_MAX && after.left > 0
    ensures stop == Overflowed ==>
              && maxPort == PORT_MAX && after.port == PORT_MAX + 1
              && (PORT_MAX in after.tried || (after.left > 0 && after.retries < NODE_ADD_MAX_RETRIES))
  {
    var next := NextFree(run.used, run.port, maxPort);
    after := run.(port := if next.None? then PORT_MAX + 1 else next.value);
    PassOver(run, after.port, nodesToAdd, usedPorts, start, maxPort, attempts);
    if next.None? {
      return after, Overflowed;
    }
    if next.value > maxPort {
      return after, Exhausted;
    }
    Try(after, next.value, nodesToAdd, usedPorts, start, maxPort, attempts);
    // the report for repeated failures inside the loop needs five retries, which end the loop first
    assert run.retries < NODE_ADD_MAX_RETRIES;
    after := Tried(after, next.value, attempts(|run.tried|));
    stop := if next.value == PORT_MAX then Overflowed else Continue;
  }

  /** `attempts` says how each attempt ends. The ports tried are returned in order. An overflow of the port number
      ends the run there. */
  method AddNodes(nodesToAdd: int, usedPorts: seq<Port>, currentPort: Port, maxPort: Port, attempts: nat -> Attempt)
    returns (r: Outcome, tried: seq<Port>)
    ensures AddedWell(nodesToAdd, usedPorts, currentPort, maxPort, attempts, r, tried)
  {
    var run, stop := Run(usedPorts, [], currentPort, nodesToAdd, 0), Continue;
    while run.left > 0 && run.retries < NODE_ADD_MAX_RETRIES && stop == Continue
      invariant Going(run, nodesToAdd, usedPorts, currentPort, maxPort, attempts)
      invariant stop == Continue ==> run.port <= PORT_MAX
      invariant stop == Exhausted ==> maxPort < run.port <= PORT_MAX && run.left > 0
      invariant stop == Overflowed ==>
                  && maxPort == PORT_MAX && run.port == PORT_MAX + 1
                  && (PORT_MAX in run.tried || (run.left > 0 && run.retries < NODE_ADD_MAX_RETRIES))
      decreases stop == Continue, PORT_MAX + 1 - run.port
    {
      run, stop := TryNext(run, nodesToAdd, usedPorts, currentPort, maxPort, attempts);
    }
    tried := run.tried;
    r := Outcome(run.used, run.left,
                 if stop == Exhausted || (stop == Continue && run.retries >= NODE_ADD_MAX_RETRIES) then 1 else 0,
                 stop == Overflowed);
    Ends(nodesToAdd, usedPorts, currentPort, run.port, maxPort, attempts, r, tried, run.retries);
  }

  lemma {:induction false} TakenWereTried(tried: seq<Port>, attempts: nat -> Attempt)
    ensures forall p | p in TakenPorts(tried, attempts) :: p in tried
    decreases |tried|
  {
    if tried != [] {
      TakenWereTried(tried[..|tried| - 1], attempts);
    }
  }

  // ---- when the port number can overflow ----

  /** The ports from `start` up to `end` that are not in use. */
  ghost function FreePorts(used: seq<Port>, start: nat, end: nat): (free: seq<Port>)
    requires end <= PORT_MAX + 1
    ensures Increasing(free) && forall p: Port :: p in free <==> start <= p < end && p !in used
    decreases end - start
  {
    if end <= start then []
    else
      var below := FreePorts(used, start, end - 1);
      assert forall i | 0 <= i < |below| :: below[i] in below;
      assert (below + [end - 1])[..|below|] == below;
      if end - 1 in used then below else below + [end - 1]
  }

  ghost function PortSet(ports: seq<Port>): (s: set<Port>)
    ensures forall p :: p in s <==> p in ports
  {
    set p | p in ports
  }

  lemma {:induction false} IncreasingCounts(ports: seq<Port>)
    requires Increasing(ports)
    ensures |PortSet(ports)| == |ports|
    decreases |ports|
  {
    if ports != [] {
      var n := |ports| - 1;
      IncreasingCounts(ports[..n]);
      assert PortSet(ports) == PortSet(ports[..n]) + {ports[n]};
    }
  }

  lemma PartCounts(a: seq<Port>, b: seq<Port>)
    requires Increasing(a) && Increasing(b) && forall p: Port | p in a :: p in b
    ensures |a| <= |b| && (|a| == |b| <==> forall p: Port | p in b :: p in a)
  {
    IncreasingCounts(a);
    IncreasingCounts(b);
    assert |PortSet(b)| == |PortSet(a)| + |PortSet(b) - PortSet(a)| by {
      assert PortSet(b) == PortSet(a) + (PortSet(b) - PortSet(a));
    }
    if p: Port :| p in b && p !in a {
      assert p in PortSet(b) - PortSet(a);
    }
  }

  /** Attempts of which every fifth succeeds. */
  function EveryFifth(i: nat): Attempt
  {
    if i % 5 == 4 then Added else PortInUse
  }

  lemma {:induction false} FifthsSucceed(n: nat)
    ensures Successes(EveryFifth, n) == n / 5
  {
    if n > 0 {
      FifthsSucceed(n - 1);
    }
  }

  lemma FifthsNeverGiveUp(n: nat)
    ensures !GaveUp(EveryFifth, n)
  {
    if n >= 5 {
      assert EveryFifth(n - 1 - n % 5).Added?;
    }
  }

  /** The range ends at the largest port number, nodes are to be added, and all free ports can be tried; when the
      largest port is in use, with an attempt to spare. */
  ghost predicate CanOverflow(nodesToAdd: int, usedPorts: seq<Port>, start: Port, maxPort: Port)
  {
    && maxPort == PORT_MAX && nodesToAdd > 0
    && |FreePorts(usedPorts, start, PORT_MAX + 1)| + (if PORT_MAX in usedPorts then 1 else 0)
       <= NODE_ADD_MAX_RETRIES * nodesToAdd
  }

  lemma OverflowTriesAll(nodesToAdd: int, usedPorts: seq<Port>, start: Port, maxPort: Port, attempts: nat -> Attempt,
                         r: Outcome, tried: seq<Port>)
    requires AddedWell(nodesToAdd, usedPorts, start, maxPort, attempts, r, tried) && r.overflow
    ensures CanOverflow(nodesToAdd, usedPorts, start, maxPort)
  {
    PartCounts(tried, FreePorts(usedPorts, start, PORT_MAX + 1));
  }

  lemma SlowRunOverflows(nodesToAdd: int, usedPorts: seq<Port>, start: Port, maxPort: Port)
    requires CanOverflow(nodesToAdd, usedPorts, start, maxPort)
    ensures var tried := FreePorts(usedPorts, start, PORT_MAX + 1);
            AddedWell(nodesToAdd, usedPorts, start, maxPort, EveryFifth,
                      Outcome(usedPorts + TakenPorts(tried, EveryFifth), nodesToAdd - |tried| / 5, 0, true), tried)
  {
    var tried := FreePorts(usedPorts, start, PORT_MAX + 1);
    FifthsSucceed(|tried|);
    FifthsNeverGiveUp(|tried|);
  }

  /** The run whose every fifth attempt succeeds must overflow then. */
  lemma SlowRunMustOverflow(nodesToAdd: int, usedPorts: seq<Port>, start: Port, maxPort: Port, r: Outcome,
                            tried: seq<Port>)
    requires CanOverflow(nodesToAdd, usedPorts, start, maxPort)
    requires AddedWell(nodesToAdd, usedPorts, start, maxPort, EveryFifth, r, tried)
    ensures r.overflow
  {
    PartCounts(tried, FreePorts(usedPorts, start, PORT_MAX + 1));
    FifthsSucceed(|tried|);
    FifthsNeverGiveUp(|tried|);
  }

  /** No outcome of the attempts lets the port number overflow, if and only if it cannot by the count of free ports. */
  lemma NeverOverflowsIff(nodesToAdd: int, usedPorts: seq<Port>, start: Port, maxPort: Port)
    ensures (forall attempts: nat -> Attempt, r, tried |
               AddedWell(nodesToAdd, usedPorts, start, maxPort, attempts, r, tried) :: !r.overflow)
            <==> !CanOverflow(nodesToAdd, usedPorts, start, maxPort)
  {
    forall attempts: nat -> Attempt, r, tried |
      AddedWell(nodesToAdd, usedPorts, start, maxPort, attempts, r, tried) && r.overflow
      ensures CanOverflow(nodesToAdd, usedPorts, start, maxPort)
    {
      OverflowTriesAll(nodesToAdd, usedPorts, start, maxPort, attempts, r, tried);
    }
    if CanOverflow(nodesToAdd, usedPorts, start, maxPort) {
      SlowRunOverflows(nodesToAdd, usedPorts, start, maxPort);
    }
  }
}
