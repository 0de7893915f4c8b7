/** How a node judges its peers: reported issues, quotes, and the pace of replication requests. */
module PeerQuality {

  const SECOND: nat := 1_000_000_000 // times are in nanoseconds
  const ISSUE_LIFETIME: nat := 300
  const ISSUE_SPACING: nat := 10
  const MAX_ISSUES: nat := 10
  const REPLICATION_TIMEOUT: nat := 45 * SECOND
  const REPLICATION_PEERS_COUNT: nat := 7
  const LIVE_TIME_MARGIN: nat := 10

  type Peer = nat

  datatype NodeIssue = ConnectionIssue | ReplicationFailure | CloseNodesShunning | BadQuoting | FailedChunkProofCheck

  datatype Entry = Entry(issue: NodeIssue, at: nat)

  /** What is on record about a peer. */
  datatype Standing = Standing(issues: seq<Entry>, bad: bool)

  // ---- one report ----

  /** Whole seconds since. */
  function Elapsed(at: nat, now: nat): nat
  {
    if at <= now then (now - at) / SECOND else 0
  }

  function Retained(issues: seq<Entry>, now: nat): seq<Entry>
  {
    if issues == [] then []
    else (if Elapsed(issues[0].at, now) < ISSUE_LIFETIME then [issues[0]] else []) + Retained(issues[1..], now)
  }

  function Kept(issues: seq<Entry>, now: nat): seq<Entry>
  {
    var retained := Retained(issues, now);
    if |retained| == MAX_ISSUES then retained[1..] else retained
  }

  predicate IsNew(kept: seq<Entry>, now: nat)
  {
    kept == [] || Elapsed(kept[|kept| - 1].at, now) > ISSUE_SPACING
  }

  function Count(issues: seq<Entry>, kind: NodeIssue): nat
  {
    if issues == [] then 0
    else Count(issues[..|issues| - 1], kind) + if issues[|issues| - 1].issue == kind then 1 else 0
  }

  predicate HasThree(issues: seq<Entry>)
  {
    exists kind :: Count(issues, kind) >= 3
  }

  function Observe(s: Standing, issue: NodeIssue, now: nat): Standing
  {
    if s.bad then s
    else
      var kept := Kept(s.issues, now);
      var issues := if IsNew(kept, now) then kept + [Entry(issue, now)] else kept;
      Standing(issues, HasThree(issues))
  }

  // ---- what is always true of a standing ----

  ghost predicate Spaced(issues: seq<Entry>)
  {
    forall i, j | 0 <= i < j < |issues| :: issues[i].at + (ISSUE_SPACING + 1) * SECOND <= issues[j].at
  }

  ghost predicate InOneWindow(issues: seq<Entry>)
  {
    forall i, j | 0 <= i < |issues| && 0 <= j < |issues| :: Young(issues[i], issues[j].at)
  }

  ghost predicate WellKept(s: Standing, now: nat)
  {
    && Spaced(s.issues) && |s.issues| <= MAX_ISSUES
    && UpTo(s.issues, now) && InOneWindow(s.issues)
    && (s.bad <==> HasThree(s.issues))
  }

  lemma ElapsedBelow(at: nat, now: nat, seconds: nat)
    requires at <= now
    ensures Elapsed(at, now) < seconds <==> now < at + seconds * SECOND
  {
  }

  predicate Young(e: Entry, now: nat)
  {
    now < e.at + ISSUE_LIFETIME * SECOND
  }

  ghost predicate UpTo(issues: seq<Entry>, now: nat)
  {
    forall i | 0 <= i < |issues| :: issues[i].at <= now
  }

  lemma {:induction false} AllYoungStay(issues: seq<Entry>, now: nat)
    requires UpTo(issues, now) && forall i | 0 <= i < |issues| :: Young(issues[i], now)
    ensures Retained(issues, now) == issues
  {
    if issues != [] {
      assert Young(issues[0], now);
      ElapsedBelow(issues[0].at, now, ISSUE_LIFETIME);
      AllYoungStay(issues[1..], now);
    }
  }

  lemma {:induction false} RetainedIsSuffix(issues: seq<Entry>, now: nat) returns (k: nat)
    requires Spaced(issues) && UpTo(issues, now)
    ensures k <= |issues| && Retained(issues, now) == issues[k..]
    ensures forall i | 0 <= i < |issues| :: i >= k <==> Young(issues[i], now)
  {
    k := 0;
    if issues != [] {
      ElapsedBelow(issues[0].at, now, ISSUE_LIFETIME);
      if Young(issues[0], now) {
        AllYoungStay(issues, now);
      } else {
        k := RetainedIsSuffix(issues[1..], now);
        assert issues[1..][k..] == issues[k + 1..];
        k := k + 1;
      }
    }
  }

  lemma {:induction false} SuffixCountsLess(issues: seq<Entry>, k: nat, kind: NodeIssue)
    requires k <= |issues|
    ensures Count(issues[k..], kind) <= Count(issues, kind)
    decreases |issues|
  {
    if k < |issues| {
      var n := |issues| - 1;
      SuffixCountsLess(issues[..n], k, kind);
      assert issues[k..][..n - k] == issues[..n][k..];
    }
  }

  lemma {:induction false} CountedIsThere(issues: seq<Entry>, kind: NodeIssue) returns (i: nat)
    requires Count(issues, kind) >= 1
    ensures i < |issues| && issues[i].issue == kind && Count(issues[..i], kind) == Count(issues, kind) - 1
    decreases |issues|
  {
    var n := |issues| - 1;
    if issues[n].issue == kind {
      i := n;
    } else {
      i := CountedIsThere(issues[..n], kind);
      assert issues[..n][..i] == issues[..i];
    }
  }

  lemma {:induction false} CountsAddUp(issues: seq<Entry>)
    ensures |issues| == Count(issues, ConnectionIssue) + Count(issues, ReplicationFailure)
                        + Count(issues, CloseNodesShunning) + Count(issues, BadQuoting)
                        + Count(issues, FailedChunkProofCheck)
    decreases |issues|
  {
    if issues != [] {
      CountsAddUp(issues[..|issues| - 1]);
    }
  }

  /** Without three issues of any kind there are ten at most: the limit on the list follows from the rule. */
  lemma GoodPeersHaveFewIssues(issues: seq<Entry>)
    requires !HasThree(issues)
    ensures |issues| <= MAX_ISSUES
  {
    CountsAddUp(issues);
  }

  /** What is kept is a part of the record without old entries: the newest of them, nine at most. */
  lemma KeptIsSuffix(issues: seq<Entry>, now: nat) returns (k: nat)
    requires Spaced(issues) && |issues| <= MAX_ISSUES && UpTo(issues, now)
    ensures k <= |issues| && Kept(issues, now) == issues[k..] && |issues| - k < MAX_ISSUES
    ensures forall i | k <= i < |issues| :: Young(issues[i], now)
  {
    k := RetainedIsSuffix(issues, now);
    if |issues| - k == MAX_ISSUES {
      k := k + 1;
    }
  }

  /** A report is new exactly from eleven seconds after the last one kept. */
  lemma NewIff(kept: seq<Entry>, now: nat)
    requires UpTo(kept, now)
    ensures IsNew(kept, now) <==> kept == [] || kept[|kept| - 1].at + 11 * SECOND <= now
  {
    if kept != [] {
      ElapsedBelow(kept[|kept| - 1].at, now, ISSUE_SPACING + 1);
    }
  }

  lemma AppendKeepsSpaced(kept: seq<Entry>, e: Entry)
    requires Spaced(kept) && UpTo(kept, e.at) && IsNew(kept, e.at)
    ensures Spaced(kept + [e])
  {
  }

  lemma AppendKeepsWindow(kept: seq<Entry>, e: Entry)
    requires InOneWindow(kept) && UpTo(kept, e.at) && forall i | 0 <= i < |kept| :: Young(kept[i], e.at)
    ensures InOneWindow(kept + [e])
  {
  }

  lemma SuffixKeeps(issues: seq<Entry>, k: nat, now: nat)
    requires k <= |issues| && Spaced(issues) && UpTo(issues, now) && InOneWindow(issues)
    ensures Spaced(issues[k..]) && UpTo(issues[k..], now) && InOneWindow(issues[k..])
  {
  }

  lemma ObserveKeeps(s: Standing, issue: NodeIssue, now: nat)
    requires WellKept(s, now)
    ensures WellKept(Observe(s, issue, now), now)
  {
    if !s.bad {
      var k := KeptIsSuffix(s.issues, now);
      SuffixKeeps(s.issues, k, now);
      var kept := s.issues[k..];
      if IsNew(kept, now) {
        AppendKeepsSpaced(kept, Entry(issue, now));
        AppendKeepsWindow(kept, Entry(issue, now));
      }
    }
  }

  lemma Later(s: Standing, now: nat, later: nat)
    requires WellKept(s, now) && now <= later
    ensures WellKept(s, later)
  {
  }

  // ---- when a peer becomes bad ----

  lemma CountAppend(issues: seq<Entry>, e: Entry, kind: NodeIssue)
    ensures Count(issues + [e], kind) == Count(issues, kind) + if e.issue == kind then 1 else 0
  {
  }

  lemma KeptHasFew(s: Standing, now: nat, kind: NodeIssue)
    requires WellKept(s, now) && !s.bad
    ensures Count(Kept(s.issues, now), kind) <= 2
  {
    var k := KeptIsSuffix(s.issues, now);
    SuffixCountsLess(s.issues, k, kind);
  }

  /** A peer becomes bad exactly when an issue not too soon after the last is the third of its kind on record. */
  lemma BecomesBadIff(s: Standing, issue: NodeIssue, now: nat)
    requires WellKept(s, now) && !s.bad
    ensures Observe(s, issue, now).bad
            <==> IsNew(Kept(s.issues, now), now) && Count(Kept(s.issues, now), issue) >= 2
  {
    var kept, e := Kept(s.issues, now), Entry(issue, now);
    forall kind ensures Count(kept, kind) <= 2 {
      KeptHasFew(s, now, kind);
    }
    forall kind ensures Count(kept + [e], kind) == Count(kept, kind) + if kind == issue then 1 else 0 {
      CountAppend(kept, e, kind);
    }
    assert (kept + [e])[|kept|].issue == issue;
  }

  lemma {:induction false} HeadCounts(issues: seq<Entry>, kind: NodeIssue)
    requires issues != []
    ensures Count(issues, kind) == Count(issues[1..], kind) + if issues[0].issue == kind then 1 else 0
    decreases |issues|
  {
    var n := |issues| - 1;
    if n > 0 {
      HeadCounts(issues[..n], kind);
      assert issues[..n][1..] == issues[1..][..n - 1];
    }
  }

  /** The limit of ten makes the code miss a third issue of a kind within the lifetime exactly when the record is
      full and the issue it drops for room is of that kind. */
  lemma ThirdIsMissedIff(s: Standing, issue: NodeIssue, now: nat)
    requires WellKept(s, now) && !s.bad && IsNew(Kept(s.issues, now), now)
    requires Count(Retained(s.issues, now), issue) >= 2
    ensures !Observe(s, issue, now).bad
            <==> |Retained(s.issues, now)| == MAX_ISSUES && Retained(s.issues, now)[0].issue == issue
  {
    var retained := Retained(s.issues, now);
    BecomesBadIff(s, issue, now);
    var k := RetainedIsSuffix(s.issues, now);
    SuffixCountsLess(s.issues, k, issue);
    HeadCounts(retained, issue);
  }

  // ---- every run of reports ----

  datatype Report = Report(peer: Peer, issue: NodeIssue, now: nat)

  /** The records and the peers that were told they are considered bad. */
  datatype Judgement = Judgement(badNodes: map<Peer, Standing>, notified: seq<Peer>) {
    function Of(p: Peer): Standing
    {
      if p in badNodes then badNodes[p] else Standing([], false)
    }

    function Process(r: Report): Judgement
    {
      var after := Observe(Of(r.peer), r.issue, r.now);
      Judgement(badNodes[r.peer := after], if after.bad && !Of(r.peer).bad then notified + [r.peer] else notified)
    }
  }

  function ProcessAll(reports: seq<Report>): Judgement
  {
    if reports == [] then Judgement(map[], [])
    else ProcessAll(reports[..|reports| - 1]).Process(reports[|reports| - 1])
  }

  lemma LastReport(reports: seq<Report>, p: Peer)
    requires reports != []
    ensures var r, before := reports[|reports| - 1], ProcessAll(reports[..|reports| - 1]).Of(p);
            ProcessAll(reports).Of(p) == if r.peer == p then Observe(before, r.issue, r.now) else before
  {
  }

  ghost predicate Ordered(reports: seq<Report>)
  {
    forall i, j | 0 <= i < j < |reports| :: reports[i].now <= reports[j].now
  }

  function Now(reports: seq<Report>): nat
  {
    if reports == [] then 0 else reports[|reports| - 1].now
  }

  function Times(peers: seq<Peer>, p: Peer): nat
  {
    if peers == [] then 0 else Times(peers[..|peers| - 1], p) + if peers[|peers| - 1] == p then 1 else 0
  }

  lemma TimesAppend(peers: seq<Peer>, q: Peer, p: Peer)
    ensures Times(peers + [q], p) == Times(peers, p) + if q == p then 1 else 0
  {
  }

  /** Over every run: each peer's record is well kept, and it was notified once if it is bad, never otherwise. */
  lemma {:induction false} JudgedFairly(reports: seq<Report>, p: Peer)
    requires Ordered(reports)
    ensures var j := ProcessAll(reports);
            WellKept(j.Of(p), Now(reports)) && Times(j.notified, p) == if j.Of(p).bad then 1 else 0
    decreases |reports|
  {
    if reports != [] {
      var n := |reports| - 1;
      var r, before := reports[n], ProcessAll(reports[..n]);
      JudgedFairly(reports[..n], p);
      Later(before.Of(p), Now(reports[..n]), r.now);
      TimesAppend(before.notified, r.peer, p);
      if r.peer == p {
        ObserveKeeps(before.Of(p), r.issue, r.now);
      }
    }
  }

  /** Once bad, a peer stays bad and its record does not change. */
  lemma {:induction false} BadForGood(reports: seq<Report>, later: seq<Report>, p: Peer)
    requires ProcessAll(reports).Of(p).bad
    ensures ProcessAll(reports + later).Of(p) == ProcessAll(reports).Of(p)
    decreases |later|
  {
    if later == [] {
      assert reports + later == reports;
    } else {
      var n := |later| - 1;
      assert (reports + later)[..|reports + later| - 1] == reports + later[..n];
      BadForGood(reports, later[..n], p);
    }
  }

  function About(reports: seq<Report>, p: Peer): seq<Report>
  {
    if reports == [] then []
    else About(reports[..|reports| - 1], p)
         + if reports[|reports| - 1].peer == p then [reports[|reports| - 1]] else []
  }

  lemma AppendReport(reports: seq<Report>, r: Report)
    ensures ProcessAll(reports + [r]).Of(r.peer) == Observe(ProcessAll(reports).Of(r.peer), r.issue, r.now)
  {
  }

  /** What is reported of other peers makes no difference. */
  lemma {:induction false} OthersDoNotMatter(reports: seq<Report>, p: Peer)
    ensures ProcessAll(reports).Of(p) == ProcessAll(About(reports, p)).Of(p)
    decreases |reports|
  {
    if reports != [] {
      var n := |reports| - 1;
      OthersDoNotMatter(reports[..n], p);
      LastReport(reports, p);
      if reports[n].peer == p {
        AppendReport(About(reports[..n], p), reports[n]);
      } else {
        assert About(reports, p) == About(reports[..n], p);
      }
    }
  }

  ghost predicate Reported(reports: seq<Report>, p: Peer, e: Entry)
  {
    Report(p, e.issue, e.at) in reports
  }

  lemma ObserveAddsOnlyIts(s: Standing, issue: NodeIssue, now: nat, e: Entry)
    requires WellKept(s, now) && e in Observe(s, issue, now).issues
    ensures e in s.issues || e == Entry(issue, now)
  {
    if !s.bad {
      var k := KeptIsSuffix(s.issues, now);
    }
  }

  lemma {:induction false} EntriesWereReported(reports: seq<Report>, p: Peer, e: Entry)
    requires Ordered(reports) && e in ProcessAll(reports).Of(p).issues
    ensures Reported(reports, p, e)
    decreases |reports|
  {
    if reports != [] {
      var n := |reports| - 1;
      var r, before := reports[n], ProcessAll(reports[..n]).Of(p);
      LastReport(reports, p);
      if r.peer == p {
        JudgedFairly(reports[..n], p);
        Later(before, Now(reports[..n]), r.now);
        ObserveAddsOnlyIts(before, r.issue, r.now, e);
      }
      if e in before.issues {
        EntriesWereReported(reports[..n], p, e);
      }
    }
  }

  lemma ThreeOfAKind(issues: seq<Entry>) returns (a: Entry, b: Entry, c: Entry)
    requires HasThree(issues) && Spaced(issues) && InOneWindow(issues)
    ensures a in issues && b in issues && c in issues && a.issue == b.issue == c.issue
    ensures a.at + 11 * SECOND <= b.at && b.at + 11 * SECOND <= c.at < a.at + ISSUE_LIFETIME * SECOND
  {
    var kind :| Count(issues, kind) >= 3;
    var k := CountedIsThere(issues, kind);
    var j := CountedIsThere(issues[..k], kind);
    assert issues[..k][..j] == issues[..j];
    var i := CountedIsThere(issues[..j], kind);
    a, b, c := issues[i], issues[j], issues[k];
    assert Young(issues[i], issues[k].at);
  }

  /** A peer is bad only on three reports of one kind, each more than ten seconds after the one before and all
      within the lifetime. */
  lemma BadMeansThreeReports(reports: seq<Report>, p: Peer) returns (kind: NodeIssue, a: nat, b: nat, c: nat)
    requires Ordered(reports) && ProcessAll(reports).Of(p).bad
    ensures Report(p, kind, a) in reports && Report(p, kind, b) in reports && Report(p, kind, c) in reports
    ensures a + 11 * SECOND <= b && b + 11 * SECOND <= c < a + ISSUE_LIFETIME * SECOND
  {
    JudgedFairly(reports, p);
    var x, y, z := ThreeOfAKind(ProcessAll(reports).Of(p).issues);
    EntriesWereReported(reports, p, x);
    EntriesWereReported(reports, p, y);
    EntriesWereReported(reports, p, z);
    kind, a, b, c := x.issue, x.at, y.at, z.at;
  }

  // ---- a run in which a third issue is missed ----

  const KINDS: seq<NodeIssue> :=
    [BadQuoting, ConnectionIssue, ReplicationFailure, CloseNodesShunning, FailedChunkProofCheck]

  /** Issues of each kind in turn, eleven seconds apart. */
  function Cycled(n: nat): seq<Entry>
  {
    seq(n, i requires 0 <= i < n => Entry(KINDS[i % 5], i * 11 * SECOND))
  }

  function CycledReports(p: Peer, n: nat): seq<Report>
  {
    seq(n, i requires 0 <= i < n => Report(p, KINDS[i % 5], i * 11 * SECOND))
  }

  lemma KindsDiffer(i: nat, j: nat)
    requires i < 5 && j < 5
    ensures KINDS[i] == KINDS[j] <==> i == j
  {
  }

  /** How many of the first `n` numbers up to ten leave the remainder when divided by five. */
  function Turns(n: nat, which: nat): nat
  {
    (if n > which then 1 else 0) + (if n > which + 5 then 1 else 0)
  }

  lemma TurnsGrow(n: nat, which: nat)
    requires n < 10 && which < 5
    ensures Turns(n + 1, which) == Turns(n, which) + if n % 5 == which then 1 else 0
  {
  }

  lemma CycledNext(n: nat, kind: NodeIssue)
    ensures Count(Cycled(n + 1), kind) == Count(Cycled(n), kind) + if KINDS[n % 5] == kind then 1 else 0
  {
    CountAppend(Cycled(n), Entry(KINDS[n % 5], n * 11 * SECOND), kind);
    assert Cycled(n) + [Entry(KINDS[n % 5], n * 11 * SECOND)] == Cycled(n + 1);
  }

  lemma {:induction false} CycledCounts(n: nat, which: nat)
    requires n <= 10 && which < 5
    ensures Count(Cycled(n), KINDS[which]) == Turns(n, which)
  {
    if n > 0 {
      CycledCounts(n - 1, which);
      CycledNext(n - 1, KINDS[which]);
      KindsDiffer((n - 1) % 5, which);
      TurnsGrow(n - 1, which);
    }
  }

  lemma CycledHasNoThree(n: nat)
    requires n <= 10
    ensures var issues := Cycled(n); !HasThree(issues) && (n == 10 ==> forall kind :: Count(issues, kind) == 2)
  {
    var issues := Cycled(n);
    forall kind ensures Count(issues, kind) <= 2 && (n == 10 ==> Count(issues, kind) == 2) {
      var which := if kind == BadQuoting then 0 else if kind == ConnectionIssue then 1
                   else if kind == ReplicationFailure then 2 else if kind == CloseNodesShunning then 3 else 4;
      CycledCounts(n, which);
    }
  }

  lemma CycledStays(n: nat)
    requires n <= 10
    ensures Retained(Cycled(n), n * 11 * SECOND) == Cycled(n)
  {
    AllYoungStay(Cycled(n), n * 11 * SECOND);
  }

  /** Each of the first ten is recorded and none makes the peer bad. */
  lemma CycledGrows(n: nat)
    requires n < 10
    ensures Observe(Standing(Cycled(n), false), KINDS[n % 5], n * 11 * SECOND) == Standing(Cycled(n + 1), false)
  {
    var now := n * 11 * SECOND;
    assert Kept(Cycled(n), now) == Cycled(n) by {
      CycledStays(n);
    }
    assert IsNew(Cycled(n), now) by {
      NewIff(Cycled(n), now);
    }
    assert Cycled(n) + [Entry(KINDS[n % 5], now)] == Cycled(n + 1);
    CycledHasNoThree(n + 1);
  }

  lemma {:induction false} CycledRun(p: Peer, n: nat)
    requires n <= 10
    ensures ProcessAll(CycledReports(p, n)).Of(p) == Standing(Cycled(n), false)
  {
    if n > 0 {
      CycledRun(p, n - 1);
      CycledGrows(n - 1);
      assert CycledReports(p, n)[..n - 1] == CycledReports(p, n - 1);
      LastReport(CycledReports(p, n), p);
    }
  }

  lemma EleventhIsMissed()
    ensures !Observe(Standing(Cycled(10), false), BadQuoting, 110 * SECOND).bad
  {
    var s, now := Standing(Cycled(10), false), 110 * SECOND;
    CycledHasNoThree(10);
    assert WellKept(s, now);
    CycledStays(10);
    assert Kept(s.issues, now) == s.issues[1..] && s.issues[1..][8] == s.issues[9];
    NewIff(Kept(s.issues, now), now);
    ThirdIsMissedIff(s, BadQuoting, now);
  }

  /** A run that shows it: three bad quotes in two minutes, 55 seconds apart, and the peer is not considered bad. */
  lemma MissedThird(p: Peer)
    ensures var reports := CycledReports(p, 11);
            && Ordered(reports) && !ProcessAll(reports).Of(p).bad
            && reports[0] == Report(p, BadQuoting, 0)
            && reports[5] == Report(p, BadQuoting, 55 * SECOND)
            && reports[10] == Report(p, BadQuoting, 110 * SECOND)
  {
    CycledRun(p, 10);
    EleventhIsMissed();
    assert CycledReports(p, 11)[..10] == CycledReports(p, 10);
    LastReport(CycledReports(p, 11), p);
  }

  // ---- quotes ----

  datatype Quote = Quote(liveTime: nat, receivedPayments: nat, timestamp: int)

  /** Whether `q` is credible after `h`, at wall-clock time `now`. */
  predicate HistoricalVerify(h: Quote, q: Quote, now: int)
  {
    var older, newer := if h.timestamp > q.timestamp then q else h, if h.timestamp > q.timestamp then h else q;
    && newer.liveTime >= older.liveTime
    && older.timestamp <= now && newer.timestamp <= now
    && newer.liveTime - older.liveTime
       <= SaturatingSub((now - older.timestamp) / SECOND, (now - newer.timestamp) / SECOND) + LIVE_TIME_MARGIN
    && newer.receivedPayments >= older.receivedPayments
  }

  function SaturatingSub(a: nat, b: nat): nat
  {
    if a < b then 0 else a - b
  }

  datatype Event =
    | Issue(report: Report)
    | Quoted(peer: Peer, quote: Quote, now: nat, wall: int)

  datatype Driver = Driver(judgement: Judgement, quotes: map<Peer, Quote>) {
    function VerifyQuote(p: Peer, q: Quote, now: nat, wall: int): Driver
    {
      if p in quotes && !HistoricalVerify(quotes[p], q, wall) then
        this.(judgement := judgement.Process(Report(p, BadQuoting, now)))
      else if p in quotes && quotes[p].timestamp > q.timestamp then this
      else this.(quotes := quotes[p := q])
    }

    function Handle(e: Event): Driver
    {
      match e
      case Issue(report) => this.(judgement := judgement.Process(report))
      case Quoted(p, q, now, wall) => if judgement.Of(p).bad then this else VerifyQuote(p, q, now, wall)
    }

    /** The event makes the peer be reported for a bad quote. */
    predicate Flags(e: Event, p: Peer)
    {
      && e.Quoted? && e.peer == p && !judgement.Of(p).bad
      && p in quotes && !HistoricalVerify(quotes[p], e.quote, e.wall)
    }

    /** The event puts a later quote of a known peer in the history. */
    predicate Replaces(e: Event, p: Peer)
    {
      && e.Quoted? && e.peer == p && p in quotes && !judgement.Of(p).bad
      && HistoricalVerify(quotes[p], e.quote, e.wall) && quotes[p].timestamp <= e.quote.timestamp
    }
  }

  function HandleAll(d: Driver, events: seq<Event>): Driver
  {
    if events == [] then d else HandleAll(d, events[..|events| - 1]).Handle(events[|events| - 1])
  }

  function Replacements(d: Driver, events: seq<Event>, p: Peer): nat
  {
    if events == [] then 0
    else
      var n := |events| - 1;
      Replacements(d, events[..n], p) + if HandleAll(d, events[..n]).Replaces(events[n], p) then 1 else 0
  }

  /** `q` may stand in the history `k` replacements after `h`. */
  ghost predicate Advanced(h: Quote, q: Quote, k: nat)
  {
    && (k == 0 ==> q == h)
    && h.timestamp <= q.timestamp && h.liveTime <= q.liveTime && h.receivedPayments <= q.receivedPayments
    && (k > 0 ==> (q.liveTime - h.liveTime) * SECOND < q.timestamp - h.timestamp + 11 * k * SECOND)
  }

  lemma CredibleAdvance(h: Quote, q: Quote, now: int)
    requires HistoricalVerify(h, q, now) && h.timestamp <= q.timestamp
    ensures Advanced(h, q, 1)
  {
  }

  lemma Chained(a: Quote, b: Quote, c: Quote, k: nat)
    requires Advanced(a, b, k) && Advanced(b, c, 1)
    ensures Advanced(a, c, k + 1)
  {
  }

  lemma HandleAdvances(d: Driver, e: Event, p: Peer)
    requires p in d.quotes
    ensures p in d.Handle(e).quotes
    ensures Advanced(d.quotes[p], d.Handle(e).quotes[p], if d.Replaces(e, p) then 1 else 0)
  {
  }

  /** Over every run, the quote on record for a peer never goes back, and between any two moments the live time it
      claims grows by less than the time between the quotes plus eleven seconds for each replacement. */
  lemma {:induction false} HistoryAdvances(d: Driver, events: seq<Event>, p: Peer)
    requires p in d.quotes
    ensures p in HandleAll(d, events).quotes
    ensures Advanced(d.quotes[p], HandleAll(d, events).quotes[p], Replacements(d, events, p))
    decreases |events|
  {
    if events != [] {
      var n := |events| - 1;
      var before := HandleAll(d, events[..n]);
      HistoryAdvances(d, events[..n], p);
      HandleAdvances(before, events[n], p);
      if before.Replaces(events[n], p) {
        Chained(d.quotes[p], before.quotes[p], HandleAll(d, events).quotes[p], Replacements(d, events[..n], p));
      }
    }
  }

  /** The history of a bad peer is not touched again, whatever it quotes. */
  lemma {:induction false} BadHistoryIsFrozen(d: Driver, events: seq<Event>, p: Peer)
    requires d.judgement.Of(p).bad
    ensures var after := HandleAll(d, events);
            && after.judgement.Of(p).bad && (p in after.quotes <==> p in d.quotes)
            && (p in d.quotes ==> after.quotes[p] == d.quotes[p])
    decreases |events|
  {
    if events != [] {
      BadHistoryIsFrozen(d, events[..|events| - 1], p);
    }
  }

  /** What a node that has been up since `start` truthfully quotes: `paid` are its payments up to a time. */
  ghost predicate Honest(q: Quote, start: int, paid: int -> nat)
  {
    start <= q.timestamp && q.liveTime == (q.timestamp - start) / SECOND && q.receivedPayments == paid(q.timestamp)
  }

  ghost predicate NeverLess(paid: int -> nat)
  {
    forall a, b :: a <= b ==> paid(a) <= paid(b)
  }

  lemma LiveTimesAgree(start: int, a: int, b: int, now: int)
    requires start <= a <= b <= now
    ensures (a - start) / SECOND <= (b - start) / SECOND
    ensures (b - start) / SECOND - (a - start) / SECOND <= (now - a) / SECOND - (now - b) / SECOND + 1
  {
  }

  /** Two truthful quotes always agree, whichever comes first. */
  lemma HonestQuotesPass(h: Quote, q: Quote, start: int, paid: int -> nat, now: int)
    requires NeverLess(paid) && Honest(h, start, paid) && Honest(q, start, paid)
    requires h.timestamp <= now && q.timestamp <= now
    ensures HistoricalVerify(h, q, now)
  {
    if h.timestamp <= q.timestamp {
      LiveTimesAgree(start, h.timestamp, q.timestamp, now);
    } else {
      LiveTimesAgree(start, q.timestamp, h.timestamp, now);
    }
  }

  /** The quote on record is the one of the start or one that was handled since. */
  lemma {:induction false} HistoryWasQuoted(d: Driver, events: seq<Event>, p: Peer) returns (j: int)
    requires p in HandleAll(d, events).quotes
    ensures j < |events|
    ensures j < 0 ==> p in d.quotes && HandleAll(d, events).quotes[p] == d.quotes[p]
    ensures 0 <= j ==> events[j].Quoted? && events[j].peer == p && HandleAll(d, events).quotes[p] == events[j].quote
    decreases |events|
  {
    if events == [] {
      return -1;
    }
    var n := |events| - 1;
    var before, e := HandleAll(d, events[..n]), events[n];
    if p in before.quotes && before.quotes[p] == HandleAll(d, events).quotes[p] {
      j := HistoryWasQuoted(d, events[..n], p);
    } else {
      j := n;
    }
  }

  /** Over every run, a peer that quotes truthfully and never ahead of the clock is not reported for its quotes. */
  lemma HonestPeersAreNotFlagged(d: Driver, events: seq<Event>, p: Peer, start: int, paid: int -> nat, i: nat)
    requires NeverLess(paid) && i < |events|
    requires p in d.quotes ==> Honest(d.quotes[p], start, paid)
    requires forall j | 0 <= j < |events| && events[j].Quoted? && events[j].peer == p ::
               Honest(events[j].quote, start, paid)
    requires forall j, k | 0 <= j <= k < |events| && events[j].Quoted? && events[k].Quoted?
                           && events[j].peer == events[k].peer == p ::
               events[j].quote.timestamp <= events[k].wall
    requires p in d.quotes ==> forall k | 0 <= k < |events| && events[k].Quoted? && events[k].peer == p ::
               d.quotes[p].timestamp <= events[k].wall
    ensures !HandleAll(d, events[..i]).Flags(events[i], p)
  {
    var before, e := HandleAll(d, events[..i]), events[i];
    if e.Quoted? && e.peer == p && p in before.quotes {
      var j := HistoryWasQuoted(d, events[..i], p);
      HonestQuotesPass(before.quotes[p], e.quote, start, paid, e.wall);
    }
  }

  // ---- replication requests ----

  datatype Tick = Tick(closest: seq<Peer>, hasRecords: bool, now: nat)

  /** Until when each peer is left alone, and the requests sent so far with their times. */
  datatype Replication = Replication(targets: map<Peer, nat>, sent: seq<(Peer, nat)>) {
    function Waiting(now: nat): map<Peer, nat>
    {
      map p | p in targets && targets[p] > now :: targets[p]
    }

    function Interval(t: Tick): Replication
    {
      var waiting := Waiting(t.now);
      var chosen := Choose(t.closest[..Min(|t.closest|, REPLICATION_PEERS_COUNT)], waiting);
      if t.hasRecords then SendAll(Replication(waiting, sent), chosen, t.now) else Replication(waiting, sent)
    }
  }

  function Min(a: nat, b: nat): nat
  {
    if a < b then a else b
  }

  function Choose(peers: seq<Peer>, waiting: map<Peer, nat>): seq<Peer>
  {
    if peers == [] then []
    else Choose(peers[..|peers| - 1], waiting)
         + if peers[|peers| - 1] in waiting then [] else [peers[|peers| - 1]]
  }

  function SendAll(r: Replication, peers: seq<Peer>, now: nat): Replication
  {
    if peers == [] then r
    else
      var n := |peers| - 1;
      var before := SendAll(r, peers[..n], now);
      Replication(before.targets[peers[n] := now + REPLICATION_TIMEOUT], before.sent + [(peers[n], now)])
  }

  ghost predicate Distinct(peers: seq<Peer>)
  {
    forall i, j | 0 <= i < j < |peers| :: peers[i] != peers[j]
  }

  /** Requests to one peer are at least the timeout apart. */
  ghost predicate Paced(sent: seq<(Peer, nat)>)
  {
    forall i, j | 0 <= i < j < |sent| && sent[i].0 == sent[j].0 :: sent[i].1 + REPLICATION_TIMEOUT <= sent[j].1
  }

  /** A peer is left alone exactly for the timeout after a request to it. */
  ghost predicate Remembered(r: Replication, now: nat)
  {
    && (forall i | 0 <= i < |r.sent| :: r.sent[i].1 <= now && LeftAlone(r.targets, r.sent[i], now))
    && (forall p | p in r.targets :: r.targets[p] >= REPLICATION_TIMEOUT
                                     && (p, r.targets[p] - REPLICATION_TIMEOUT) in r.sent)
  }

  ghost predicate LeftAlone(targets: map<Peer, nat>, request: (Peer, nat), now: nat)
  {
    request.1 + REPLICATION_TIMEOUT > now ==>
      request.0 in targets && targets[request.0] >= request.1 + REPLICATION_TIMEOUT
  }

  lemma {:induction false} ChosenAre(peers: seq<Peer>, waiting: map<Peer, nat>)
    requires Distinct(peers)
    ensures var c := Choose(peers, waiting);
            Distinct(c) && forall p :: p in c <==> p in peers && p !in waiting
    decreases |peers|
  {
    if peers != [] {
      ChosenAre(peers[..|peers| - 1], waiting);
      assert peers == peers[..|peers| - 1] + [peers[|peers| - 1]];
    }
  }

  /** No request to `p` is more recent than the timeout. */
  ghost predicate Rested(sent: seq<(Peer, nat)>, p: Peer, now: nat)
  {
    forall i | 0 <= i < |sent| && sent[i].0 == p :: sent[i].1 + REPLICATION_TIMEOUT <= now
  }

  function Requests(peers: seq<Peer>, now: nat): seq<(Peer, nat)>
  {
    seq(|peers|, i requires 0 <= i < |peers| => (peers[i], now))
  }

  lemma {:induction false} SentIs(r: Replication, peers: seq<Peer>, now: nat)
    ensures SendAll(r, peers, now).sent == r.sent + Requests(peers, now)
    decreases |peers|
  {
    if peers != [] {
      SentIs(r, peers[..|peers| - 1], now);
    }
  }

  lemma SendOnePaces(r: Replication, p: Peer, now: nat)
    requires Paced(r.sent) && Remembered(r, now) && Rested(r.sent, p, now)
    ensures Paced(r.sent + [(p, now)])
  {
  }

  lemma SendOneRemembers(r: Replication, p: Peer, now: nat)
    requires Remembered(r, now)
    ensures Remembered(Replication(r.targets[p := now + REPLICATION_TIMEOUT], r.sent + [(p, now)]), now)
  {
  }

  lemma {:induction false} SendAllPaces(r: Replication, peers: seq<Peer>, now: nat)
    requires Paced(r.sent) && Remembered(r, now) && Distinct(peers)
    requires forall p | p in peers :: Rested(r.sent, p, now)
    ensures var after := SendAll(r, peers, now); Paced(after.sent) && Remembered(after, now)
    decreases |peers|
  {
    if peers != [] {
      var n := |peers| - 1;
      SendAllPaces(r, peers[..n], now);
      SentIs(r, peers[..n], now);
      var before := SendAll(r, peers[..n], now);
      assert Rested(before.sent, peers[n], now) by {
        assert Rested(r.sent, peers[n], now);
      }
      SendOnePaces(before, peers[n], now);
      SendOneRemembers(before, peers[n], now);
    }
  }

  lemma WaitingRemembers(r: Replication, before: nat, now: nat)
    requires Remembered(r, before) && before <= now
    ensures Remembered(Replication(r.Waiting(now), r.sent), now)
    ensures forall p :: p !in r.Waiting(now) ==> Rested(r.sent, p, now)
  {
  }

  lemma IntervalPaces(r: Replication, before: nat, t: Tick)
    requires Paced(r.sent) && Remembered(r, before) && before <= t.now && Distinct(t.closest)
    ensures Paced(r.Interval(t).sent) && Remembered(r.Interval(t), t.now)
  {
    WaitingRemembers(r, before, t.now);
    var near := t.closest[..Min(|t.closest|, REPLICATION_PEERS_COUNT)];
    ChosenAre(near, r.Waiting(t.now));
    if t.hasRecords {
      SendAllPaces(Replication(r.Waiting(t.now), r.sent), Choose(near, r.Waiting(t.now)), t.now);
    }
  }

  /** A tick with records to offer reaches each of the closest peers that was not asked within the timeout, and
      no other. */
  lemma IntervalReaches(r: Replication, before: nat, t: Tick, p: Peer)
    requires Remembered(r, before) && before <= t.now && Distinct(t.closest)
    ensures r.sent <= r.Interval(t).sent
    ensures (p, t.now) in r.Interval(t).sent[|r.sent|..]
            <==> && t.hasRecords && Rested(r.sent, p, t.now)
                 && p in t.closest[..Min(|t.closest|, REPLICATION_PEERS_COUNT)]
  {
    WaitingRemembers(r, before, t.now);
    var near := t.closest[..Min(|t.closest|, REPLICATION_PEERS_COUNT)];
    var chosen := Choose(near, r.Waiting(t.now));
    ChosenAre(near, r.Waiting(t.now));
    SentIs(Replication(r.Waiting(t.now), r.sent), chosen, t.now);
    if p in chosen {
      var i :| 0 <= i < |chosen| && chosen[i] == p;
      assert Requests(chosen, t.now)[i] == (p, t.now);
    }
    if p in r.Waiting(t.now) {
      WaitingIsNotRested(r, before, t.now, p);
    }
  }

  lemma WaitingIsNotRested(r: Replication, before: nat, now: nat, p: Peer)
    requires Remembered(r, before) && p in r.Waiting(now)
    ensures !Rested(r.sent, p, now)
  {
  }

  function Intervals(ticks: seq<Tick>): Replication
  {
    if ticks == [] then Replication(map[], []) else Intervals(ticks[..|ticks| - 1]).Interval(ticks[|ticks| - 1])
  }

  ghost predicate OrderedTicks(ticks: seq<Tick>)
  {
    && (forall i, j | 0 <= i < j < |ticks| :: ticks[i].now <= ticks[j].now)
    && (forall i | 0 <= i < |ticks| :: Distinct(ticks[i].closest))
  }

  /** Over every run of ticks, requests to one peer are never closer than the timeout. */
  lemma {:induction false} RequestsArePaced(ticks: seq<Tick>)
    requires OrderedTicks(ticks)
    ensures Paced(Intervals(ticks).sent)
    ensures Remembered(Intervals(ticks), if ticks == [] then 0 else ticks[|ticks| - 1].now)
    decreases |ticks|
  {
    if ticks != [] {
      var n := |ticks| - 1;
      RequestsArePaced(ticks[..n]);
      IntervalPaces(Intervals(ticks[..n]), if n == 0 then 0 else ticks[n - 1].now, ticks[n]);
    }
  }

  // ---- the driver ----

  datatype Request = ConsideredBad(peer: Peer, behaviour: NodeIssue) | Replicate(to: Peer)

  class SwarmDriver {
    var badNodes: map<Peer, Standing>
    var quotesHistory: map<Peer, Quote>
    var replicationTargets: map<Peer, nat>
    var routingTable: set<Peer>
    var queue: seq<Request>

    constructor (routingTable: set<Peer>)
      ensures badNodes == map[] && quotesHistory == map[] && replicationTargets == map[] && queue == []
      ensures this.routingTable == routingTable
    {
      badNodes, quotesHistory, replicationTargets, queue := map[], map[], map[], [];
      this.routingTable := routingTable;
    }

    ghost function State(): Driver
      reads this
    {
      Driver(Judgement(badNodes, NotifiedBy(queue)), quotesHistory)
    }

    method RecordNodeIssue(peer: Peer, issue: NodeIssue, now: nat)
      modifies this`badNodes, this`routingTable, this`queue
      ensures State() == old(State()).Handle(Issue(Report(peer, issue, now)))
      ensures routingTable == if badNodes[peer].bad then old(routingTable) - {peer} else old(routingTable)
      ensures old(State()).judgement.Of(peer).bad || !badNodes[peer].bad ==> queue == old(queue)
      ensures !old(State()).judgement.Of(peer).bad && badNodes[peer].bad ==>
                exists kind :: queue == old(queue) + [ConsideredBad(peer, kind)]
                               && Count(badNodes[peer].issues, kind) >= 3
    {
      var standing := if peer in badNodes then badNodes[peer] else Standing([], false);
      var after, behaviour := Judge(standing, issue, now);
      badNodes := badNodes[peer := after];
      if after.bad {
        routingTable := routingTable - {peer};
        if !standing.bad {
          NotifiedAppend(queue, ConsideredBad(peer, behaviour));
          queue := queue + [ConsideredBad(peer, behaviour)];
        }
      }
    }

    static method Judge(standing: Standing, issue: NodeIssue, now: nat) returns (after: Standing, behaviour: NodeIssue)
      ensures after == Observe(standing, issue, now)
      ensures after.bad && !standing.bad ==> Count(after.issues, behaviour) >= 3
    {
      if standing.bad {
        return standing, issue;
      }
      var issues := Retained(standing.issues, now);
      if |issues| == MAX_ISSUES {
        issues := issues[1..];
      }
      assert issues == Kept(standing.issues, now);
      if IsNew(issues, now) {
        issues := issues + [Entry(issue, now)];
      }
      var bad;
      bad, behaviour := Accumulated(issues, issue);
      after := Standing(issues, bad);
    }

    static method Accumulated(issues: seq<Entry>, none: NodeIssue) returns (bad: bool, kind: NodeIssue)
      ensures bad == HasThree(issues) && (bad ==> Count(issues, kind) >= 3)
    {
      for i := 0 to |issues|
        invariant forall j | 0 <= j < i :: Count(issues, issues[j].issue) < 3
      {
        if Count(issues, issues[i].issue) >= 3 {
          return true, issues[i].issue;
        }
      }
      forall k ensures Count(issues, k) < 3 {
        if Count(issues, k) >= 1 {
          var i := CountedIsThere(issues, k);
        }
      }
      return false, none;
    }

    method VerifyPeerQuote(peer: Peer, quote: Quote, now: nat, wall: int)
      modifies this`badNodes, this`routingTable, this`queue, this`quotesHistory
      ensures State() == old(State()).VerifyQuote(peer, quote, now, wall)
    {
      if peer in quotesHistory {
        var history := quotesHistory[peer];
        if !HistoricalVerify(history, quote, wall) {
          RecordNodeIssue(peer, BadQuoting, now);
          return;
        }
        if history.timestamp > quote.timestamp {
          return;
        }
      }
      quotesHistory := quotesHistory[peer := quote];
    }

    method QuoteVerification(quotes: seq<(Peer, Quote)>, now: nat, wall: int)
      modifies this`badNodes, this`routingTable, this`queue, this`quotesHistory
      ensures State() == HandleAll(old(State()), QuoteEvents(quotes, now, wall))
    {
      for i := 0 to |quotes|
        invariant State() == HandleAll(old(State()), QuoteEvents(quotes[..i], now, wall))
      {
        assert QuoteEvents(quotes[..i + 1], now, wall)[..i] == QuoteEvents(quotes[..i], now, wall);
        var (peer, quote) := quotes[i];
        if peer in badNodes && badNodes[peer].bad {
          continue;
        }
        VerifyPeerQuote(peer, quote, now, wall);
      }
      assert quotes[..|quotes|] == quotes;
    }

    /** One replication interval; `sent` are the peers asked. */
    method TryIntervalReplication(t: Tick) returns (sent: seq<Peer>)
      modifies this`replicationTargets, this`queue
      ensures var after := Replication(old(replicationTargets), []).Interval(t);
              replicationTargets == after.targets && Requests(sent, t.now) == after.sent
      ensures queue == old(queue) + seq(|sent|, i requires 0 <= i < |sent| => Replicate(sent[i]))
    {
      ghost var start := Replication(replicationTargets, []);
      var targets := t.closest[..Min(|t.closest|, REPLICATION_PEERS_COUNT)];
      replicationTargets := map p | p in replicationTargets && replicationTargets[p] > t.now :: replicationTargets[p];
      targets := Choose(targets, replicationTargets);
      sent := [];
      if targets == [] {
        return;
      }
      if t.hasRecords {
        ghost var waiting := Replication(replicationTargets, []);
        for i := 0 to |targets|
          invariant sent == targets[..i]
          invariant SendAll(waiting, targets[..i], t.now) == Replication(replicationTargets, Requests(sent, t.now))
          invariant queue == old(queue) + seq(i, j requires 0 <= j < i => Replicate(targets[j]))
        {
          assert targets[..i + 1][..i] == targets[..i];
          queue := queue + [Replicate(targets[i])];
          replicationTargets := replicationTargets[targets[i] := t.now + REPLICATION_TIMEOUT];
          sent := sent + [targets[i]];
        }
        assert targets[..|targets|] == targets;
      }
    }
  }

  function NotifiedBy(queue: seq<Request>): seq<Peer>
  {
    if queue == [] then []
    else NotifiedBy(queue[..|queue| - 1])
         + match queue[|queue| - 1] case ConsideredBad(p, _) => [p] case Replicate(_) => []
  }

  lemma NotifiedAppend(queue: seq<Request>, r: Request)
    ensures NotifiedBy(queue + [r]) == NotifiedBy(queue) + if r.ConsideredBad? then [r.peer] else []
  {
  }

  function QuoteEvents(quotes: seq<(Peer, Quote)>, now: nat, wall: int): seq<Event>
  {
    seq(|quotes|, i requires 0 <= i < |quotes| => Quoted(quotes[i].0, quotes[i].1, now, wall))
  }
}
