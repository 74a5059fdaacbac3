/**
 * The double-spend race in full: k concurrent withdrawals of the same amount from one account, any
 * schedule, and exactly as many succeed as the balance pays for.
 */
module WithdrawRace {
  import opened Events
  import opened Int64
  import opened Aggregates
  import opened EventLog
  import opened Commands
  import opened Protocol
  import opened ClientInvariant
  import opened History
  import opened Refinement
  import opened Solvency
  import opened Contention
  import opened Conservation
  import opened Overflow

  /** The race: only auto-mode withdrawals of `amount` from `account`, each with its own key or none. */
  ghost predicate Race(cfg: Config, st0: StoreState, cmds: seq<Command>, account: string, amount: int) {
    && ValidStore(st0) && LogShape(st0.log) && LogSolvent(st0.log)
    && StreamOf(st0.log, AccountKey(account)) != []
    && amount > 0 && cfg.arith.Exact? && MaxRetries(cfg) >= |cmds| - 1
    && (forall i :: 0 <= i < |cmds| ==> RaceCommand(cmds[i], account, amount) && PrivateKey(st0, cmds, i))
  }

  predicate RaceCommand(cmd: Command, account: string, amount: int) {
    cmd.Withdraw? && cmd.account == account && cmd.amountCents == amount && cmd.expectedVersion == NO_VERSION_CHECK
  }

  predicate Complete(s: Sys) {
    forall i :: 0 <= i < |s.clients| ==> s.clients[i].pc.Done?
  }

  function AppliedSet(s: Sys): set<nat> {
    set i | 0 <= i < |s.clients| && IsApplied(s.clients[i])
  }

  function Min(a: int, b: int): int {
    if a < b then a else b
  }

  // --- Arithmetic ---

  lemma DivBounds(b: int, a: int, h: int)
    requires a > 0 && b - a * h >= 0
    ensures h <= b / a
    ensures b - a * h < a ==> h == b / a
  {
    var q := b / a;
    assert a * q <= b < a * q + a;
    LeFromProducts(a, h, q);
    if b - a * h < a {
      LeFromProducts(a, q, h);
    }
  }

  lemma LeFromProducts(a: int, x: int, y: int)
    requires a > 0 && a * x < a * y + a
    ensures x <= y
  {
    if x > y {
      ProductGrows(a, x, y);
    }
  }

  lemma ProductGrows(a: int, x: int, y: int)
    requires a > 0 && x > y
    ensures a * x >= a * y + a
  {
    ProductNotNegative(a, x - y - 1);
    assert a * x == a * y + a + a * (x - y - 1);
  }

  lemma ProductMonotone(a: int, x: int, y: int)
    requires a >= 0 && x <= y
    ensures a * x <= a * y
  {
    ProductNotNegative(a, y - x);
    assert a * y == a * x + a * (y - x);
  }

  lemma ProductNotNegative(a: int, d: int)
    requires a >= 0 && d >= 0
    ensures a * d >= 0
  {
  }

  // --- Counting ---

  function ClientsOf(hist: seq<Commit>): set<nat> {
    set j | 0 <= j < |hist| :: hist[j].client
  }

  lemma ClientsOfOneMore(hist: seq<Commit>, n: nat)
    requires |hist| == n + 1
    ensures ClientsOf(hist) == ClientsOf(hist[..n]) + {hist[n].client}
  {
    forall c | c in ClientsOf(hist) ensures c in ClientsOf(hist[..n]) + {hist[n].client} {
      var j :| 0 <= j < |hist| && hist[j].client == c;
      if j < n {
        assert hist[..n][j].client == c;
      }
    }
    forall c | c in ClientsOf(hist[..n]) ensures c in ClientsOf(hist) {
      var j :| 0 <= j < n && hist[..n][j].client == c;
      assert hist[j].client == c;
    }
  }

  lemma {:induction false} DistinctCount(hist: seq<Commit>)
    requires DistinctClients(hist)
    ensures |ClientsOf(hist)| == |hist|
    decreases |hist|
  {
    if hist != [] {
      var n := |hist| - 1;
      DistinctCount(hist[..n]);
      ClientsOfOneMore(hist, n);
      assert hist[n].client !in ClientsOf(hist[..n]);
    }
  }

  /** As many clients are told Applied as there are commits. */
  lemma AppliedCount(st0: StoreState, s: Sys)
    requires HistOk(st0, s)
    ensures |AppliedSet(s)| == |s.hist|
  {
    DistinctCount(s.hist);
    forall c ensures c in AppliedSet(s) <==> c in ClientsOf(s.hist) {
      if c in AppliedSet(s) {
        assert InHist(s.hist, c);
        var j :| 0 <= j < |s.hist| && s.hist[j].client == c;
        assert s.hist[j].client in ClientsOf(s.hist);
      }
      if c in ClientsOf(s.hist) {
        var j :| 0 <= j < |s.hist| && s.hist[j].client == c;
        assert CommitOk(s, s.hist[j]);
      }
    }
    assert AppliedSet(s) == ClientsOf(s.hist);
  }

  // --- The balance along the race ---

  /** Every commit of a race is one withdrawal, so block m starts exactly m events after the start. */
  predicate RaceHistory(hist: seq<Commit>, account: string, amount: int) {
    forall j :: 0 <= j < |hist| ==> RaceCommand(hist[j].cmd, account, amount)
  }

  lemma {:induction false} RaceBlockStart(
    n0: nat, log: seq<Event>, hist: seq<Commit>, account: string, amount: int, m: nat)
    requires Adjacent(n0, log, hist) && RaceHistory(hist, account, amount) && m <= |hist|
    ensures StartAt(log, hist, m) == n0 + m
    decreases m
  {
    if m > 0 {
      RaceBlockStart(n0, log, hist, account, amount, m - 1);
      assert FollowedAt(log, hist, m - 1);
      assert RaceCommand(hist[m - 1].cmd, account, amount);
    }
  }

  /** After the first m commits the account's stream has lost exactly m * amount. */
  lemma {:induction false} RaceBalance(
    n0: nat, log: seq<Event>, hist: seq<Commit>, account: string, amount: int, m: nat)
    requires Filled(n0, log, hist) && RaceHistory(hist, account, amount) && m <= |hist|
    ensures n0 + m <= |log|
    ensures CreditsAt(log, account, n0 + m) == CreditsAt(log, account, n0) - amount * m
    decreases m
  {
    RaceBlockStart(n0, log, hist, account, amount, |hist|);
    if m > 0 {
      RaceBalance(n0, log, hist, account, amount, m - 1);
      RaceEvent(n0, log, hist, account, amount, m - 1);
      OneWithdrawal(log, n0 + m - 1, account, amount);
      assert amount * m == amount * (m - 1) + amount;
    }
  }

  /** The credits of the account's stream when the log had length n. */
  function CreditsAt(log: seq<Event>, account: string, n: nat): int {
    if n <= |log| then Credits(StreamOf(log[..n], AccountKey(account))) else 0
  }

  lemma RaceEvent(n0: nat, log: seq<Event>, hist: seq<Commit>, account: string, amount: int, j: nat)
    requires Filled(n0, log, hist) && RaceHistory(hist, account, amount) && j < |hist|
    ensures n0 + j < |log|
    ensures log[n0 + j].stream == AccountKey(account) && log[n0 + j].payload == FundsWithdrawn(amount)
  {
    RaceBlockStart(n0, log, hist, account, amount, j);
    assert RaceCommand(hist[j].cmd, account, amount) && BlockIs(log, hist[j].cmd, n0 + j);
  }

  lemma OneWithdrawal(log: seq<Event>, n: nat, account: string, amount: int)
    requires n < |log| && log[n].stream == AccountKey(account) && log[n].payload == FundsWithdrawn(amount)
    ensures CreditsAt(log, account, n + 1) == CreditsAt(log, account, n) - amount
  {
    var k := AccountKey(account);
    assert log[..n + 1] == log[..n] + [log[n]];
    StreamOfSnoc(log[..n], log[n], k);
    var before := StreamOf(log[..n], k);
    assert (before + [log[n]])[..|before|] == before;
  }

  // --- How a race client can end ---

  /** A client that was told Duplicate had a used key. */
  predicate ReplayHasKey(s: Sys, i: nat)
    requires i < |s.clients|
  {
    s.clients[i].pc.Done? && s.clients[i].pc.outcome.Replayed? ==> KeyUsed(s.store, s.clients[i].cmd.dedupeKey)
  }

  lemma StepKeepsReplayHasKey(cfg: Config, s: Sys, k: nat, i: nat)
    requires i < |s.clients| && ReplayHasKey(s, i)
    ensures ReplayHasKey(Step(cfg, s, k), i)
  {
  }

  lemma {:induction false} RunKeepsReplayHasKey(
    cfg: Config, st0: StoreState, cmds: seq<Command>, schedule: seq<nat>, i: nat)
    requires i < |cmds|
    ensures i < |Run(cfg, Init(st0, cmds), schedule).clients|
    ensures ReplayHasKey(Run(cfg, Init(st0, cmds), schedule), i)
    decreases |schedule|
  {
    if schedule != [] {
      var n := |schedule| - 1;
      RunKeepsReplayHasKey(cfg, st0, cmds, schedule[..n], i);
      StepKeepsReplayHasKey(cfg, Run(cfg, Init(st0, cmds), schedule[..n]), schedule[n], i);
    }
  }

  lemma RaceRivals(cfg: Config, st0: StoreState, cmds: seq<Command>, account: string, amount: int, i: nat)
    requires Race(cfg, st0, cmds, account, amount) && i < |cmds|
    ensures |RivalsOf(cmds, i)| <= MaxRetries(cfg)
  {
    SubsetSize(RivalsOf(cmds, i), Below(|cmds|) - {i});
  }

  /** The client found too little money at the time it looked. */
  predicate Refused(st0: StoreState, log: seq<Event>, pc: Pc, account: string, amount: int) {
    && pc.Done? && pc.outcome == Rejected(InsufficientFunds)
    && |st0.log| <= pc.readAt <= |log|
    && CreditsAt(log, account, pc.readAt) < amount
  }

  /** In a race nobody is told Duplicate and nobody is told to retry. */
  lemma RaceNoRetry(cfg: Config, st0: StoreState, cmds: seq<Command>, schedule: seq<nat>,
                    account: string, amount: int, i: nat)
    requires Race(cfg, st0, cmds, account, amount) && i < |cmds|
    ensures i < |Run(cfg, Init(st0, cmds), schedule).clients|
    ensures var pc := Run(cfg, Init(st0, cmds), schedule).clients[i].pc;
            pc.Done? ==> !pc.outcome.Conflicted? && !pc.outcome.Replayed?
  {
    var s := Run(cfg, Init(st0, cmds), schedule);
    RunKeepsInv(cfg, st0, cmds, schedule);
    RunExtends(cfg, Init(st0, cmds), schedule, 0);
    RunKeepsReplayHasKey(cfg, st0, cmds, schedule, i);
    RaceRivals(cfg, st0, cmds, account, amount, i);
    assert RaceCommand(cmds[i], account, amount) && PrivateKey(st0, cmds, i);
    FewRivalsNoConflict(cfg, st0, cmds, schedule, i);
    if !IsApplied(s.clients[i]) {
      PrivateKeyUnused(st0, cmds, s, i);
    }
  }

  /** In a race a finished client was either applied or refused for lack of money. */
  lemma RaceEnds(cfg: Config, st0: StoreState, cmds: seq<Command>, schedule: seq<nat>,
                 account: string, amount: int, i: nat)
    requires Race(cfg, st0, cmds, account, amount) && i < |cmds|
    ensures i < |Run(cfg, Init(st0, cmds), schedule).clients|
    ensures var s := Run(cfg, Init(st0, cmds), schedule);
            s.clients[i].pc.Done? ==>
              IsApplied(s.clients[i]) || Refused(st0, s.store.log, s.clients[i].pc, account, amount)
  {
    var s := Run(cfg, Init(st0, cmds), schedule);
    RaceNoRetry(cfg, st0, cmds, schedule, account, amount, i);
    RunKeepsShape(cfg, st0, cmds, schedule);
    RunKeepsInv(cfg, st0, cmds, schedule);
    RunKeepsPaid(cfg, st0, cmds, schedule);
    RunExtends(cfg, Init(st0, cmds), schedule, 0);
    assert RaceCommand(cmds[i], account, amount);
    assert ClientOk(cfg, s.store.log, s.clients[i]) && PaidFor(cfg, st0, s, s.clients[i]);
    if s.clients[i].pc.Done? && !IsApplied(s.clients[i]) {
      RaceRefusal(cfg, st0, s.store.log, s.clients[i], account, amount);
    }
  }

  lemma RaceRefusal(cfg: Config, st0: StoreState, log: seq<Event>, cl: Client, account: string, amount: int)
    requires LogShape(log) && ClientOk(cfg, log, cl) && RaceCommand(cl.cmd, account, amount)
    requires cfg.arith.Exact? && amount > 0 && st0.log <= log && StreamOf(st0.log, AccountKey(account)) != []
    requires cl.pc.Done? && |st0.log| <= cl.pc.readAt && (cl.pc.outcome.Rejected? || cl.pc.outcome.LoadFailed?)
    ensures Refused(st0, log, cl.pc, account, amount)
  {
    var k, at := AccountKey(account), log[..cl.pc.readAt];
    ShapeOfPrefix(log, cl.pc.readAt);
    assert StreamShape(k, StreamOf(at, k));
    AccountShapeFolds(Exact, StreamOf(at, k));
    assert at[..|st0.log|] == st0.log;
    StreamGrows(at, |st0.log|, k);
  }

  /**
   * k withdrawals of a > 0 race for an open account of balance B, with distinct or empty keys, auto mode,
   * no other commands and maxRetries >= k - 1. Every complete run, whatever the schedule, applies exactly
   * min(k, B / a) of them, rejects the rest as insufficient funds, and leaves B - a * min(k, B / a).
   */
  lemma ExactlyWhatTheBalancePays(
    cfg: Config, st0: StoreState, cmds: seq<Command>, schedule: seq<nat>, account: string, amount: int)
    requires Race(cfg, st0, cmds, account, amount)
    requires Complete(Run(cfg, Init(st0, cmds), schedule))
    ensures var s := Run(cfg, Init(st0, cmds), schedule);
            var balance := BalanceOf(st0.log, account);
            var paid := Min(|cmds|, balance / amount);
            && |s.clients| == |cmds|
            && |AppliedSet(s)| == paid
            && (forall i :: 0 <= i < |cmds| ==>
                  IsApplied(s.clients[i]) || s.clients[i].pc.outcome == Rejected(InsufficientFunds))
            && BalanceOf(s.store.log, account) == balance - amount * paid
  {
    var s := Run(cfg, Init(st0, cmds), schedule);
    var log, k := s.store.log, AccountKey(account);
    RunExtends(cfg, Init(st0, cmds), schedule, 0);
    RunKeepsInv(cfg, st0, cmds, schedule);
    RunKeepsShape(cfg, st0, cmds, schedule);
    RunIsFilled(cfg, st0, cmds, schedule);
    AppliedCount(st0, s);
    RaceHistoryHolds(cfg, st0, cmds, s, account, amount);
    forall i | 0 <= i < |cmds|
      ensures IsApplied(s.clients[i]) || s.clients[i].pc.outcome == Rejected(InsufficientFunds)
    {
      RaceEnds(cfg, st0, cmds, schedule, account, amount, i);
    }
    RaceFinalBalance(st0.log, log, s.hist, account, amount);
    UnpinnedRunsAreSafe(cfg, st0, cmds, schedule);
    BalancesNeverNegative(cfg, st0, cmds, schedule, account);
    DivBounds(BalanceOf(st0.log, account), amount, |s.hist|);
    if i :| 0 <= i < |cmds| && !IsApplied(s.clients[i]) {
      RaceEnds(cfg, st0, cmds, schedule, account, amount, i);
      RefusalMeansEmpty(|st0.log|, log, s.hist, account, amount, s.clients[i].pc.readAt);
      NotAllApplied(s, i);
    } else {
      AllApplied(s);
    }
  }

  lemma RaceHistoryHolds(cfg: Config, st0: StoreState, cmds: seq<Command>, s: Sys, account: string, amount: int)
    requires Race(cfg, st0, cmds, account, amount) && CommitsOk(s) && |s.clients| == |cmds|
    requires forall i :: 0 <= i < |cmds| ==> s.clients[i].cmd == cmds[i]
    ensures RaceHistory(s.hist, account, amount)
  {
    forall j | 0 <= j < |s.hist| ensures RaceCommand(s.hist[j].cmd, account, amount) {
      assert CommitOk(s, s.hist[j]);
    }
  }

  lemma CreditsAtPrefix(log0: seq<Event>, log: seq<Event>, account: string)
    requires log0 <= log && LogShape(log0)
    ensures CreditsAt(log, account, |log0|) == BalanceOf(log0, account)
  {
    assert log[..|log0|] == log0;
    BalanceIsCredits(log0, account);
  }

  lemma RaceFinalBalance(log0: seq<Event>, log: seq<Event>, hist: seq<Commit>, account: string, amount: int)
    requires Filled(|log0|, log, hist) && RaceHistory(hist, account, amount) && log0 <= log
    requires LogShape(log0) && LogShape(log)
    ensures BalanceOf(log, account) == BalanceOf(log0, account) - amount * |hist|
  {
    RaceBalance(|log0|, log, hist, account, amount, |hist|);
    RaceBlockStart(|log0|, log, hist, account, amount, |hist|);
    CreditsAtPrefix(log0, log, account);
    CreditsAtPrefix(log, log, account);
  }

  /** The balance only falls in a race. */
  lemma CreditsFall(n0: nat, log: seq<Event>, hist: seq<Commit>, account: string, amount: int, r: nat)
    requires Filled(n0, log, hist) && RaceHistory(hist, account, amount) && amount > 0 && n0 <= r <= |log|
    ensures CreditsAt(log, account, |log|) <= CreditsAt(log, account, r)
  {
    RaceBlockStart(n0, log, hist, account, amount, |hist|);
    RaceBalance(n0, log, hist, account, amount, r - n0);
    RaceBalance(n0, log, hist, account, amount, |hist|);
    ProductMonotone(amount, r - n0, |hist|);
  }

  /** So one refusal at any time bounds the final balance too. */
  lemma RefusalMeansEmpty(n0: nat, log: seq<Event>, hist: seq<Commit>, account: string, amount: int, r: nat)
    requires Filled(n0, log, hist) && RaceHistory(hist, account, amount) && amount > 0
    requires n0 <= r <= |log| && CreditsAt(log, account, r) < amount
    requires LogShape(log)
    ensures BalanceOf(log, account) < amount
  {
    CreditsFall(n0, log, hist, account, amount, r);
    assert log[..|log|] == log;
    BalanceIsCredits(log, account);
  }

  lemma NotAllApplied(s: Sys, i: nat)
    requires i < |s.clients| && !IsApplied(s.clients[i])
    ensures |AppliedSet(s)| < |s.clients|
  {
    SubsetSize(AppliedSet(s), Below(|s.clients|) - {i});
  }

  lemma AllApplied(s: Sys)
    requires forall i :: 0 <= i < |s.clients| ==> IsApplied(s.clients[i])
    ensures |AppliedSet(s)| == |s.clients|
  {
    assert AppliedSet(s) == Below(|s.clients|);
  }

  // --- The race on the int64 machine ---

  lemma {:induction false} RaceHasNoInflow(hist: seq<Commit>, account: string, amount: int)
    requires RaceHistory(hist, account, amount)
    ensures Inflow(hist) == 0
    decreases |hist|
  {
    if hist != [] {
      var n := |hist| - 1;
      assert RaceHistory(hist[..n], account, amount);
      RaceHasNoInflow(hist[..n], account, amount);
      assert RaceCommand(hist[n].cmd, account, amount);
    }
  }

  /** Every event of a race is on the raced-for account. */
  lemma RaceEvents(n0: nat, log: seq<Event>, hist: seq<Commit>, account: string, amount: int, e: nat)
    requires Filled(n0, log, hist) && RaceHistory(hist, account, amount) && n0 <= e < |log|
    ensures log[e].stream == AccountKey(account)
  {
    RaceBlockStart(n0, log, hist, account, amount, |hist|);
    RaceEvent(n0, log, hist, account, amount, e - n0);
  }

  /** A race brings nothing in, so what fitted at the start still fits at the end. */
  lemma RaceKeepsFitting(n0: nat, log: seq<Event>, hist: seq<Commit>, account: string, amount: int)
    requires Filled(n0, log, hist) && RaceHistory(hist, account, amount)
    requires n0 <= |log| && Fits(n0, log[..n0], [])
    ensures Fits(n0, log, hist)
  {
    RaceHasNoInflow(hist, account, amount);
    assert log[..n0][..n0] == log[..n0];
    forall item ensures StreamOf(log, ItemKey(item)) == StreamOf(log[..n0], ItemKey(item)) {
      forall e | n0 <= e < |log| ensures log[e].stream != ItemKey(item) {
        RaceEvents(n0, log, hist, account, amount, e);
      }
      SuffixWithout(log, n0, ItemKey(item));
    }
  }

  /** The wrapping machine runs a race as the exact one does, if the starting store fits. */
  lemma RaceDoesNotWrap(
    retries: int, st0: StoreState, cmds: seq<Command>, schedule: seq<nat>, account: string, amount: int)
    requires Race(Config(retries, Exact), st0, cmds, account, amount)
    requires Fits(|st0.log|, st0.log, []) && amount <= MAX_INT64
    ensures Run(Config(retries, Wrapping), Init(st0, cmds), schedule) ==
            Run(Config(retries, Exact), Init(st0, cmds), schedule)
  {
    var cfg := Config(retries, Exact);
    var s := Run(cfg, Init(st0, cmds), schedule);
    forall i | 0 <= i < |cmds| ensures Int64Args(cmds[i]) && cmds[i].RequestedVersion() == NO_VERSION_CHECK {
      assert RaceCommand(cmds[i], account, amount);
    }
    RunExtends(cfg, Init(st0, cmds), schedule, 0);
    RunKeepsInv(cfg, st0, cmds, schedule);
    RunIsFilled(cfg, st0, cmds, schedule);
    RaceHistoryHolds(cfg, st0, cmds, s, account, amount);
    assert s.store.log[..|st0.log|] == st0.log;
    RaceKeepsFitting(|st0.log|, s.store.log, s.hist, account, amount);
    UnpinnedRunsAreSafe(cfg, st0, cmds, schedule);
    WrappingNeverShows(retries, st0, cmds, schedule);
  }

  /**
   * The same race on the Go machine: if at the start every replay and the total over all accounts fit in an
   * int64, its wrapping arithmetic applies exactly min(k, B / a) withdrawals too and leaves the same balance.
   */
  lemma ExactlyWhatTheBalancePaysInInt64(
    retries: int, st0: StoreState, cmds: seq<Command>, schedule: seq<nat>, account: string, amount: int)
    requires Race(Config(retries, Exact), st0, cmds, account, amount)
    requires Fits(|st0.log|, st0.log, []) && amount <= MAX_INT64
    requires Complete(Run(Config(retries, Wrapping), Init(st0, cmds), schedule))
    ensures var s := Run(Config(retries, Wrapping), Init(st0, cmds), schedule);
            var balance := BalanceOf(st0.log, account);
            var paid := Min(|cmds|, balance / amount);
            && |s.clients| == |cmds|
            && |AppliedSet(s)| == paid
            && (forall i :: 0 <= i < |cmds| ==>
                  IsApplied(s.clients[i]) || s.clients[i].pc.outcome == Rejected(InsufficientFunds))
            && BalanceOf(s.store.log, account) == balance - amount * paid
  {
    RaceDoesNotWrap(retries, st0, cmds, schedule, account, amount);
    ExactlyWhatTheBalancePays(Config(retries, Exact), st0, cmds, schedule, account, amount);
  }
}
