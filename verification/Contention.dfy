/** A version conflict is only reported after enough rival commands have landed on the same streams. */
module Contention {
  import opened Events
  import opened Aggregates
  import opened EventLog
  import opened Commands
  import opened Protocol
  import opened ClientInvariant
  import opened History

  /** Commands that write a common stream. */
  predicate Rival(a: Command, b: Command) {
    a.Touches(b.Primary()) || a.Touches(b.Last())
  }

  /** The clients whose batches landed on cmd's streams while the log grew from length lo to length hi. */
  function RivalsIn(hist: seq<Commit>, cmd: Command, lo: nat, hi: nat): set<nat> {
    set j | 0 <= j < |hist| && lo <= hist[j].at < hi && Rival(hist[j].cmd, cmd) :: hist[j].client
  }

  lemma SubsetSize<T>(a: set<T>, b: set<T>)
    requires a <= b
    ensures |a| <= |b|
  {
    assert b == a + (b - a);
  }

  /** The client indices below n. */
  function Below(n: nat): (r: set<nat>)
    ensures |r| == n
    ensures forall i :: i in r <==> 0 <= i < n
  {
    if n == 0 then {} else Below(n - 1) + {n - 1}
  }

  /** q is a point between blocks: no block of the run straddles it. */
  predicate Boundary(st0: StoreState, s: Sys, q: nat) {
    && |st0.log| <= q <= |s.store.log|
    && forall j :: 0 <= j < |s.hist| ==> s.hist[j].at + s.hist[j].cmd.Size() <= q || q <= s.hist[j].at
  }

  lemma {:induction false} EventInBlock(st0: StoreState, s: Sys, e: nat, m: nat) returns (j: nat)
    requires Tiled(st0, s) && m <= |s.hist| && |st0.log| <= e < StartOf(s, m)
    ensures j < m && s.hist[j].at <= e < s.hist[j].at + s.hist[j].cmd.Size()
    decreases m
  {
    assert m > 0;
    assert Followed(s, m - 1);
    if s.hist[m - 1].at <= e {
      j := m - 1;
    } else {
      j := EventInBlock(st0, s, e, m - 1);
    }
  }

  lemma {:induction false} NoEventsNoStream(es: seq<Event>, k: StreamKey)
    requires forall j :: 0 <= j < |es| ==> es[j].stream != k
    ensures StreamOf(es, k) == []
    decreases |es|
  {
    if es != [] {
      NoEventsNoStream(es[..|es| - 1], k);
    }
  }

  predicate NoneTouchesFrom(s: Sys, q: nat, k: StreamKey) {
    forall j :: 0 <= j < |s.hist| && s.hist[j].at >= q ==> !s.hist[j].cmd.Touches(k)
  }

  lemma BlockEventsTouch(s: Sys, c: Commit, e: nat)
    requires CommitOk(s, c) && c.at <= e < c.at + c.cmd.Size()
    ensures c.cmd.Touches(s.store.log[e].stream)
  {
  }

  lemma UntouchedEvent(st0: StoreState, s: Sys, q: nat, k: StreamKey, e: nat)
    requires CommitsOk(s) && Tiled(st0, s) && Boundary(st0, s, q) && NoneTouchesFrom(s, q, k)
    requires q <= e < |s.store.log|
    ensures s.store.log[e].stream != k
  {
    var j := EventInBlock(st0, s, e, |s.hist|);
    BlockEventsTouch(s, s.hist[j], e);
  }

  lemma SuffixWithout(log: seq<Event>, q: nat, k: StreamKey)
    requires q <= |log| && forall e :: q <= e < |log| ==> log[e].stream != k
    ensures StreamOf(log[..q], k) == StreamOf(log, k)
  {
    NoEventsNoStream(log[q..], k);
    assert log == log[..q] + log[q..];
    StreamOfConcat(log[..q], log[q..], k);
  }

  /** If no block from q on touches stream k, the stream is what it was at q. */
  lemma UntouchedStream(st0: StoreState, s: Sys, q: nat, k: StreamKey)
    requires CommitsOk(s) && Tiled(st0, s) && Boundary(st0, s, q) && NoneTouchesFrom(s, q, k)
    ensures StreamOf(s.store.log[..q], k) == StreamOf(s.store.log, k)
  {
    forall e | q <= e < |s.store.log| ensures s.store.log[e].stream != k {
      UntouchedEvent(st0, s, q, k, e);
    }
    SuffixWithout(s.store.log, q, k);
  }

  predicate RivalLanded(s: Sys, cmd: Command, r: nat, j: nat) {
    j < |s.hist| && s.hist[j].at >= r && Rival(s.hist[j].cmd, cmd)
  }

  /** A conflict seen by an unpinned client is the work of a rival that landed after its first load. */
  lemma ConflictHasRival(cfg: Config, st0: StoreState, s: Sys, cl: Client) returns (j: nat)
    requires ValidLog(s.store.log) && CommitsOk(s) && Tiled(st0, s)
    requires ClientOk(cfg, s.store.log, cl) && cl.pc.Appending? && !PlanOf(cfg, cl.cmd).pinned
    requires Boundary(st0, s, cl.pc.readAt) && Boundary(st0, s, cl.pc.readLastAt)
    requires !Admissible(s.store.log, cl.pc.decided.batch)
    ensures RivalLanded(s, cl.cmd, cl.pc.readAt, j)
  {
    if j' :| 0 <= j' < |s.hist| && RivalLanded(s, cl.cmd, cl.pc.readAt, j') {
      j := j';
    } else {
      NoRivalNoConflict(cfg, st0, s, cl);
      assert false;
    }
  }

  lemma NoRivalNoConflict(cfg: Config, st0: StoreState, s: Sys, cl: Client)
    requires ValidLog(s.store.log) && CommitsOk(s) && Tiled(st0, s)
    requires ClientOk(cfg, s.store.log, cl) && cl.pc.Appending? && !PlanOf(cfg, cl.cmd).pinned
    requires Boundary(st0, s, cl.pc.readAt) && Boundary(st0, s, cl.pc.readLastAt)
    requires forall j :: 0 <= j < |s.hist| ==> !RivalLanded(s, cl.cmd, cl.pc.readAt, j)
    ensures Admissible(s.store.log, cl.pc.decided.batch)
  {
    NoRivalNoTouch(s, cl.cmd, cl.pc.readAt, cl.pc.readAt);
    NoRivalNoTouch(s, cl.cmd, cl.pc.readAt, cl.pc.readLastAt);
    UntouchedStream(st0, s, cl.pc.readAt, cl.cmd.Primary());
    UntouchedStream(st0, s, cl.pc.readLastAt, cl.cmd.Last());
    UnchangedStreamsAdmit(cfg, s.store.log, cl);
  }

  lemma NoRivalNoTouch(s: Sys, cmd: Command, r: nat, q: nat)
    requires r <= q && forall j :: 0 <= j < |s.hist| ==> !RivalLanded(s, cmd, r, j)
    ensures NoneTouchesFrom(s, q, cmd.Primary()) && NoneTouchesFrom(s, q, cmd.Last())
  {
    forall j | 0 <= j < |s.hist| && s.hist[j].at >= q
      ensures !s.hist[j].cmd.Touches(cmd.Primary()) && !s.hist[j].cmd.Touches(cmd.Last())
    {
      assert !RivalLanded(s, cmd, r, j);
    }
  }

  lemma UnchangedStreamsAdmit(cfg: Config, log: seq<Event>, cl: Client)
    requires ValidLog(log) && ClientOk(cfg, log, cl) && cl.pc.Appending? && !PlanOf(cfg, cl.cmd).pinned
    requires StreamOf(log[..cl.pc.readAt], cl.cmd.Primary()) == StreamOf(log, cl.cmd.Primary())
    requires StreamOf(log[..cl.pc.readLastAt], cl.cmd.Last()) == StreamOf(log, cl.cmd.Last())
    ensures Admissible(log, cl.pc.decided.batch)
  {
    PrefixIsValid(log, cl.pc.readAt);
    PrefixIsValid(log, cl.pc.readLastAt);
    PlannedAdmissible(cfg, cl.cmd, log[..cl.pc.readAt], log[..cl.pc.readLastAt], log);
  }

  /** Each attempt a client has lost is paid for by a different rival that landed during its run. */
  predicate PaidFor(cfg: Config, st0: StoreState, s: Sys, cl: Client) {
    var unpinned := !PlanOf(cfg, cl.cmd).pinned;
    match cl.pc
    case Start => true
    case Loading(t) =>
      && |st0.log| <= cl.since <= |s.store.log|
      && (unpinned ==> t <= |RivalsIn(s.hist, cl.cmd, cl.since, |s.store.log|)|)
    case LoadingLast(t, _, r) =>
      && Boundary(st0, s, r) && |st0.log| <= cl.since
      && (unpinned ==> t <= |RivalsIn(s.hist, cl.cmd, cl.since, r)|)
    case Appending(t, _, r, rl) =>
      && Boundary(st0, s, r) && Boundary(st0, s, rl) && |st0.log| <= cl.since
      && (unpinned ==> t <= |RivalsIn(s.hist, cl.cmd, cl.since, r)|)
    case Done(o, r) =>
      && Boundary(st0, s, r) && |st0.log| <= cl.since
      && (unpinned && o.Conflicted? ==> MaxRetries(cfg) + 1 <= |RivalsIn(s.hist, cl.cmd, cl.since, r)|)
  }

  ghost predicate AllPaidFor(cfg: Config, st0: StoreState, s: Sys) {
    forall i :: 0 <= i < |s.clients| ==> PaidFor(cfg, st0, s, s.clients[i])
  }

  /** Between two states of a run: the later one has the earlier history, then commits beyond its log. */
  predicate Later(s: Sys, s': Sys) {
    && |s.store.log| <= |s'.store.log|
    && s.hist <= s'.hist
    && (forall j :: 0 <= j < |s.hist| ==> s.hist[j].at + s.hist[j].cmd.Size() <= |s.store.log|)
    && (forall j :: |s.hist| <= j < |s'.hist| ==> s'.hist[j].at >= |s.store.log|)
  }

  lemma RivalsKept(s: Sys, s': Sys, cmd: Command, lo: nat, hi: nat)
    requires Later(s, s') && hi <= |s.store.log|
    ensures RivalsIn(s'.hist, cmd, lo, hi) == RivalsIn(s.hist, cmd, lo, hi)
  {
    var a, b := RivalsIn(s.hist, cmd, lo, hi), RivalsIn(s'.hist, cmd, lo, hi);
    forall c | c in a ensures c in b {
      var j :| 0 <= j < |s.hist| && lo <= s.hist[j].at < hi && Rival(s.hist[j].cmd, cmd) && s.hist[j].client == c;
      assert s'.hist[j] == s.hist[j];
    }
    forall c | c in b ensures c in a {
      var j :| 0 <= j < |s'.hist| && lo <= s'.hist[j].at < hi && Rival(s'.hist[j].cmd, cmd) && s'.hist[j].client == c;
      assert s'.hist[j] == s.hist[j];
    }
  }

  lemma RivalsWiden(s: Sys, cmd: Command, lo: nat, hi: nat, hi': nat)
    requires hi <= hi'
    ensures |RivalsIn(s.hist, cmd, lo, hi)| <= |RivalsIn(s.hist, cmd, lo, hi')|
  {
    SubsetSize(RivalsIn(s.hist, cmd, lo, hi), RivalsIn(s.hist, cmd, lo, hi'));
  }

  lemma PaidForStays(cfg: Config, st0: StoreState, s: Sys, s': Sys, cl: Client)
    requires PaidFor(cfg, st0, s, cl) && Later(s, s')
    ensures PaidFor(cfg, st0, s', cl)
  {
    match cl.pc {
      case Start =>
      case Loading(t) =>
        RivalsKept(s, s', cl.cmd, cl.since, |s.store.log|);
        RivalsWiden(s', cl.cmd, cl.since, |s.store.log|, |s'.store.log|);
      case LoadingLast(_, _, r) => RivalsKept(s, s', cl.cmd, cl.since, r);
      case Appending(_, _, r, _) => RivalsKept(s, s', cl.cmd, cl.since, r);
      case Done(_, r) => RivalsKept(s, s', cl.cmd, cl.since, r);
    }
  }

  lemma BlocksEndInLog(st0: StoreState, s: Sys)
    requires CommitsOk(s) && |st0.log| <= |s.store.log|
    ensures forall j :: 0 <= j < |s.hist| ==> s.hist[j].at + s.hist[j].cmd.Size() <= |s.store.log|
    ensures Boundary(st0, s, |s.store.log|)
  {
    forall j | 0 <= j < |s.hist| ensures s.hist[j].at + s.hist[j].cmd.Size() <= |s.store.log| {
      assert CommitOk(s, s.hist[j]);
    }
  }

  lemma StepIsLater(cfg: Config, st0: StoreState, s: Sys, i: nat)
    requires HistOk(st0, s)
    ensures Later(s, Step(cfg, s, i))
  {
    BlocksEndInLog(st0, s);
    if i < |s.clients| {
      StepMoves(cfg, s, i);
    }
  }

  lemma OneMoreRival(st0: StoreState, s: Sys, cmd: Command, lo: nat, r: nat, j: nat)
    requires DistinctClients(s.hist) && RivalLanded(s, cmd, r, j) && lo <= r && s.hist[j].at < |s.store.log|
    requires r <= |s.store.log|
    ensures |RivalsIn(s.hist, cmd, lo, |s.store.log|)| >= |RivalsIn(s.hist, cmd, lo, r)| + 1
  {
    var counted, all := RivalsIn(s.hist, cmd, lo, r), RivalsIn(s.hist, cmd, lo, |s.store.log|);
    var c := s.hist[j].client;
    assert c !in counted;
    assert c in all;
    SubsetSize(counted + {c}, all);
  }

  /** A lost attempt adds a rival nobody has counted yet. */
  lemma ConflictAddsRival(cfg: Config, st0: StoreState, s: Sys, cl: Client)
    requires ValidLog(s.store.log) && HistOk(st0, s)
    requires ClientOk(cfg, s.store.log, cl) && cl.pc.Appending? && !PlanOf(cfg, cl.cmd).pinned
    requires PaidFor(cfg, st0, s, cl) && !Admissible(s.store.log, cl.pc.decided.batch)
    ensures |RivalsIn(s.hist, cl.cmd, cl.since, |s.store.log|)| >= cl.pc.attempt + 1
  {
    var j := ConflictHasRival(cfg, st0, s, cl);
    BlocksEndInLog(st0, s);
    OneMoreRival(st0, s, cl.cmd, cl.since, cl.pc.readAt, j);
  }

  lemma AppendStepPaid(cfg: Config, st0: StoreState, s: Sys, cl: Client)
    requires ValidLog(s.store.log) && HistOk(st0, s)
    requires ClientOk(cfg, s.store.log, cl) && cl.pc.Appending? && PaidFor(cfg, st0, s, cl)
    requires !AppendTo(s.store, cl.cmd.dedupeKey, cl.pc.decided.batch).0.Appended?
    ensures PaidFor(cfg, st0, s, ClientStep(cfg, cl, s.store))
  {
    BlocksEndInLog(st0, s);
    AppendMisses(cfg, cl, s.store);
    if !KeyUsed(s.store, cl.cmd.dedupeKey) && !PlanOf(cfg, cl.cmd).pinned {
      ConflictAddsRival(cfg, st0, s, cl);
    }
  }

  lemma ReadStepPaid(cfg: Config, st0: StoreState, s: Sys, cl: Client)
    requires CommitsOk(s) && !cl.pc.Appending? && PaidFor(cfg, st0, s, cl) && |st0.log| <= |s.store.log|
    ensures PaidFor(cfg, st0, s, ClientStep(cfg, cl, s.store))
  {
    ReadMoves(cfg, cl, s.store);
    BlocksEndInLog(st0, s);
  }

  lemma OwnStepPaid(cfg: Config, st0: StoreState, s: Sys, i: nat)
    requires Inv(cfg, st0, s) && i < |s.clients| && !Commits(s, i) && PaidFor(cfg, st0, s, s.clients[i])
    ensures PaidFor(cfg, st0, s, ClientStep(cfg, s.clients[i], s.store))
  {
    assert ClientOk(cfg, s.store.log, s.clients[i]);
    if s.clients[i].pc.Appending? {
      AppendStepPaid(cfg, st0, s, s.clients[i]);
    } else {
      ReadStepPaid(cfg, st0, s, s.clients[i]);
    }
  }

  lemma StepKeepsPaid(cfg: Config, st0: StoreState, s: Sys, i: nat)
    requires Inv(cfg, st0, s) && AllPaidFor(cfg, st0, s)
    ensures AllPaidFor(cfg, st0, Step(cfg, s, i))
  {
    if i < |s.clients| {
      var s' := Step(cfg, s, i);
      StepMoves(cfg, s, i);
      StepIsLater(cfg, st0, s, i);
      forall c | 0 <= c < |s'.clients| ensures PaidFor(cfg, st0, s', s'.clients[c]) {
        if c != i {
          PaidForStays(cfg, st0, s, s', s.clients[c]);
        } else if Commits(s, i) {
          BlocksEndInLog(st0, s);
          PaidForStays(cfg, st0, s, s', s'.clients[i]);
        } else {
          OwnStepPaid(cfg, st0, s, i);
          PaidForStays(cfg, st0, s, s', s'.clients[i]);
        }
      }
    }
  }

  lemma {:induction false} RunKeepsPaid(cfg: Config, st0: StoreState, cmds: seq<Command>, schedule: seq<nat>)
    requires ValidStore(st0)
    ensures AllPaidFor(cfg, st0, Run(cfg, Init(st0, cmds), schedule))
    decreases |schedule|
  {
    if schedule != [] {
      var n := |schedule| - 1;
      RunKeepsPaid(cfg, st0, cmds, schedule[..n]);
      RunKeepsInv(cfg, st0, cmds, schedule[..n]);
      StepKeepsPaid(cfg, st0, Run(cfg, Init(st0, cmds), schedule[..n]), schedule[n]);
    }
  }

  predicate ReportsConflict(s: Sys, i: nat) {
    i < |s.clients| && s.clients[i].pc.Done? && s.clients[i].pc.outcome.Conflicted?
  }

  /**
   * An auto-mode command or a transfer answers ErrVersionConflict only if more than maxRetries other
   * commands landed on its streams between its first step and that answer.
   */
  lemma ConflictCostsRivals(
    cfg: Config, st0: StoreState, cmds: seq<Command>, schedule: seq<nat>, i: nat)
    requires ValidStore(st0) && i < |cmds| && !PlanOf(cfg, cmds[i]).pinned
    requires ReportsConflict(Run(cfg, Init(st0, cmds), schedule), i)
    ensures var s := Run(cfg, Init(st0, cmds), schedule);
            var rivals := RivalsIn(s.hist, cmds[i], s.clients[i].since, s.clients[i].pc.readAt);
            |rivals| > MaxRetries(cfg) && i !in rivals
  {
    var s := Run(cfg, Init(st0, cmds), schedule);
    RunKeepsInv(cfg, st0, cmds, schedule);
    RunKeepsPaid(cfg, st0, cmds, schedule);
    RunExtends(cfg, Init(st0, cmds), schedule, 0);
    assert PaidFor(cfg, st0, s, s.clients[i]);
    forall j | 0 <= j < |s.hist| ensures s.hist[j].client != i {
      assert CommitOk(s, s.hist[j]);
    }
  }

  /** The other commands of a run that write one of command i's streams. */
  function RivalsOf(cmds: seq<Command>, i: nat): set<nat>
    requires i < |cmds|
  {
    set j | 0 <= j < |cmds| && j != i && Rival(cmds[j], cmds[i])
  }

  lemma RivalIsOther(s: Sys, cmds: seq<Command>, i: nat, lo: nat, hi: nat, c: nat)
    requires CommitsOk(s) && i < |cmds| == |s.clients|
    requires forall j :: 0 <= j < |cmds| ==> s.clients[j].cmd == cmds[j]
    requires c in RivalsIn(s.hist, cmds[i], lo, hi) && c != i
    ensures c in RivalsOf(cmds, i)
  {
    var j :| 0 <= j < |s.hist| && Rival(s.hist[j].cmd, cmds[i]) && s.hist[j].client == c;
    assert CommitOk(s, s.hist[j]);
  }

  lemma RivalsAreOthers(s: Sys, cmds: seq<Command>, i: nat, lo: nat, hi: nat)
    requires CommitsOk(s) && i < |cmds| == |s.clients|
    requires forall j :: 0 <= j < |cmds| ==> s.clients[j].cmd == cmds[j]
    requires i !in RivalsIn(s.hist, cmds[i], lo, hi)
    ensures |RivalsIn(s.hist, cmds[i], lo, hi)| <= |RivalsOf(cmds, i)|
  {
    var rivals := RivalsIn(s.hist, cmds[i], lo, hi);
    forall c | c in rivals ensures c in RivalsOf(cmds, i) {
      RivalIsOther(s, cmds, i, lo, hi, c);
    }
    SubsetSize(rivals, RivalsOf(cmds, i));
  }

  /** With at most maxRetries rival commands in the whole run, nobody is ever told to retry. */
  lemma FewRivalsNoConflict(cfg: Config, st0: StoreState, cmds: seq<Command>, schedule: seq<nat>, i: nat)
    requires ValidStore(st0) && i < |cmds| && !PlanOf(cfg, cmds[i]).pinned
    requires |RivalsOf(cmds, i)| <= MaxRetries(cfg)
    ensures !ReportsConflict(Run(cfg, Init(st0, cmds), schedule), i)
  {
    var s := Run(cfg, Init(st0, cmds), schedule);
    if ReportsConflict(s, i) {
      ConflictCostsRivals(cfg, st0, cmds, schedule, i);
      RunKeepsInv(cfg, st0, cmds, schedule);
      RunExtends(cfg, Init(st0, cmds), schedule, 0);
      RivalsAreOthers(s, cmds, i, s.clients[i].since, s.clients[i].pc.readAt);
    }
  }
}
