/** The bound on rivals is tight: maxRetries + 1 well-timed commands do make an auto-mode command give up. */
module Tightness {
  import opened Events
  import opened Int64
  import opened Aggregates
  import opened EventLog
  import opened Commands
  import opened Protocol
  import opened ClientInvariant
  import opened Contention
  import opened Pins
  import opened Witnesses

  /** An ordinary auto-mode deposit; the loser and its rivals differ in the amount only. */
  function AutoDeposit(account: string, amount: int): Command {
    Deposit(account, amount, "", NO_VERSION_CHECK)
  }

  /** The loser, and n rivals on the same account. */
  function LoserAndRivals(account: string, amount: int, n: nat): seq<Command> {
    [AutoDeposit(account, amount)] + seq(n, i requires 0 <= i < n => AutoDeposit(account, 1))
  }

  /** An unlucky attempt: the loser loads, rival r runs from start to end, the loser appends. */
  lemma RunUnluckyAttempt(cfg: Config, s: Sys, schedule: seq<nat>, r: nat) returns (longer: seq<nat>)
    ensures Run(cfg, s, longer) ==
            Step(cfg, Step(cfg, Step(cfg, Step(cfg, Step(cfg, Run(cfg, s, schedule), 0), r), r), r), 0)
  {
    longer := OneMore(cfg, s, schedule, 0);
    longer := ThreeMore(cfg, s, longer, r);
    longer := OneMore(cfg, s, longer, 0);
  }

  /** The account is open in a valid store. */
  predicate Alive(cfg: Config, st: StoreState, account: string) {
    var r := FoldAccount(cfg.arith, StreamOf(st.log, AccountKey(account)));
    ValidStore(st) && r.Success? && r.value.isOpen
  }

  function Landed(st: StoreState, account: string, amount: int): Event {
    var k := AccountKey(account);
    Event(|st.log| + 1, k, Version(st.log, k) + 1, FundsDeposited(amount), "")
  }

  /** After a deposit has landed the account is still open and its stream one event longer. */
  lemma DepositKeepsAlive(cfg: Config, st: StoreState, account: string, amount: int)
    requires Alive(cfg, st, account)
    ensures var st' := Record(st, "", [Landed(st, account, amount)]);
            && Alive(cfg, st', account)
            && Version(st'.log, AccountKey(account)) == Version(st.log, AccountKey(account)) + 1
  {
    var k, ev := AccountKey(account), Landed(st, account, amount);
    StreamOfSnoc(st.log, ev, k);
    FoldAccountSnoc(cfg.arith, StreamOf(st.log, k), ev);
    LandedKeepsValid(st, account, amount);
  }

  lemma LandedKeepsValid(st: StoreState, account: string, amount: int)
    requires ValidStore(st)
    ensures ValidStore(Record(st, "", [Landed(st, account, amount)]))
  {
    var item := AppendEvent(AccountKey(account), FundsDeposited(amount), NO_VERSION_CHECK);
    OneItemAppend(st, "", item);
    AppendKeepsValidStore(st, "", [item]);
  }

  function DepositAttempt(st: StoreState, account: string, amount: int): Attempt {
    var k := AccountKey(account);
    Attempt(Version(st.log, k), [AppendEvent(k, FundsDeposited(amount), Version(st.log, k))])
  }

  /** What an auto-mode deposit decides: to append, expecting the version it has just loaded. */
  lemma DepositDecision(cfg: Config, st: StoreState, account: string, amount: int)
    requires Alive(cfg, st, account) && amount > 0
    ensures DecideSingle(cfg, AutoDeposit(account, amount), st.log) == Success(DepositAttempt(st, account, amount))
  {
    LoadedVersionIsStreamLength(cfg.arith, st.log, AccountKey(account));
  }

  /** An append that expects a version the stream has left behind conflicts. */
  lemma StaleAppendConflicts(st: StoreState, e: AppendEvent)
    requires e.expectedVersion != NO_VERSION_CHECK && e.expectedVersion != Version(st.log, e.stream)
    ensures AppendTo(st, "", [e]) == (Conflict, st)
  {
    assert [e][..0] == [];
    assert RunningVersion(st.log, [e], 0) == Version(st.log, e.stream);
    assert !ItemAdmissible(st.log, [e], 0);
  }

  /** Client 0, the loser, is at pc; the rivals after number t have not started. */
  predicate Standing(cfg: Config, s: Sys, account: string, amount: int, t: nat, pc: Pc) {
    && |s.clients| == MaxRetries(cfg) + 2
    && s.clients[0].cmd == AutoDeposit(account, amount) && s.clients[0].pc == pc
    && (forall j :: t < j < |s.clients| ==> s.clients[j] == Client(AutoDeposit(account, 1), Start, 0))
    && Alive(cfg, s.store, account)
  }

  lemma LoserLooksUp(cfg: Config, st0: StoreState, account: string, amount: int)
    requires Alive(cfg, st0, account)
    ensures var cmds := LoserAndRivals(account, amount, MaxRetries(cfg) + 1);
            Standing(cfg, Step(cfg, Init(st0, cmds), 0), account, amount, 0, Loading(0))
  {
  }

  /** The loser loads and decides. */
  lemma LoserLoads(cfg: Config, s: Sys, account: string, amount: int, t: nat)
    requires Standing(cfg, s, account, amount, t, Loading(t)) && amount > 0
    ensures Step(cfg, s, 0).store == s.store
    ensures var now := |s.store.log|;
            Standing(cfg, Step(cfg, s, 0), account, amount, t,
                     Appending(t, DepositAttempt(s.store, account, amount), now, now))
  {
    DepositDecision(cfg, s.store, account, amount);
  }

  /** What rival r leaves when it runs from start to end without being disturbed. */
  lemma RivalLeaves(cfg: Config, s: Sys, account: string, r: nat)
    requires r < |s.clients| && s.clients[r] == Client(AutoDeposit(account, 1), Start, 0)
    requires Alive(cfg, s.store, account)
    ensures var s', n := Step(cfg, Step(cfg, Step(cfg, s, r), r), r), |s.store.log|;
            && s'.store == Record(s.store, "", [Landed(s.store, account, 1)])
            && |s'.clients| == |s.clients|
            && forall j :: 0 <= j < |s.clients| && j != r ==> s'.clients[j] == s.clients[j]
  {
    DepositDecision(cfg, s.store, account, 1);
    ThreeSteps(cfg, s, r, FundsDeposited(1));
  }

  lemma RivalRuns(cfg: Config, s: Sys, account: string, amount: int, t: nat, pc: Pc)
    requires Standing(cfg, s, account, amount, t, pc) && t <= MaxRetries(cfg)
    ensures var s' := Step(cfg, Step(cfg, Step(cfg, s, t + 1), t + 1), t + 1);
            && Standing(cfg, s', account, amount, t + 1, pc)
            && Version(s'.store.log, AccountKey(account)) == Version(s.store.log, AccountKey(account)) + 1
  {
    RivalLeaves(cfg, s, account, t + 1);
    DepositKeepsAlive(cfg, s.store, account, 1);
  }

  /** The loser's append finds its stream moved on. */
  lemma LoserConflicts(cfg: Config, s: Sys, account: string, amount: int, t: nat, loaded: StoreState, r: nat)
    requires Standing(cfg, s, account, amount, t + 1, Appending(t, DepositAttempt(loaded, account, amount), r, r))
    requires Version(loaded.log, AccountKey(account)) != Version(s.store.log, AccountKey(account))
    ensures Standing(cfg, Step(cfg, s, 0), account, amount, t + 1,
                     if t < MaxRetries(cfg) then Loading(t + 1) else Done(Conflicted, |s.store.log|))
  {
    StaleAppendConflicts(s.store, DepositAttempt(loaded, account, amount).batch[0]);
  }

  predicate HasLost(cfg: Config, s: Sys, account: string, amount: int, t: nat) {
    if t <= MaxRetries(cfg) then Standing(cfg, s, account, amount, t, Loading(t))
    else Standing(cfg, s, account, amount, t, Done(Conflicted, |s.store.log|))
  }

  /** One attempt, with one rival between its load and its append, is lost. */
  lemma AttemptIsLost(cfg: Config, s: Sys, account: string, amount: int, t: nat)
    requires HasLost(cfg, s, account, amount, t) && t <= MaxRetries(cfg) && amount > 0
    ensures var r := t + 1;
            HasLost(cfg, Step(cfg, Step(cfg, Step(cfg, Step(cfg, Step(cfg, s, 0), r), r), r), 0), account, amount, r)
  {
    var now := |s.store.log|;
    LoserLoads(cfg, s, account, amount, t);
    var loaded := Step(cfg, s, 0);
    RivalRuns(cfg, loaded, account, amount, t, Appending(t, DepositAttempt(s.store, account, amount), now, now));
    LoserConflicts(cfg, Step(cfg, Step(cfg, Step(cfg, loaded, t + 1), t + 1), t + 1), account, amount, t, s.store, now);
  }

  lemma AttemptIsLostInRun(cfg: Config, s0: Sys, account: string, amount: int, schedule: seq<nat>, t: nat)
    returns (longer: seq<nat>)
    requires HasLost(cfg, Run(cfg, s0, schedule), account, amount, t) && t <= MaxRetries(cfg) && amount > 0
    ensures HasLost(cfg, Run(cfg, s0, longer), account, amount, t + 1)
  {
    AttemptIsLost(cfg, Run(cfg, s0, schedule), account, amount, t);
    longer := RunUnluckyAttempt(cfg, s0, schedule, t + 1);
  }

  lemma NothingLostYet(cfg: Config, st0: StoreState, account: string, amount: int) returns (schedule: seq<nat>)
    requires Alive(cfg, st0, account)
    ensures var s0 := Init(st0, LoserAndRivals(account, amount, MaxRetries(cfg) + 1));
            HasLost(cfg, Run(cfg, s0, schedule), account, amount, 0)
  {
    LoserLooksUp(cfg, st0, account, amount);
    schedule := OneMore(cfg, Init(st0, LoserAndRivals(account, amount, MaxRetries(cfg) + 1)), [], 0);
  }

  lemma {:induction false} AttemptsAreLost(cfg: Config, st0: StoreState, account: string, amount: int, t: nat)
    returns (schedule: seq<nat>)
    requires Alive(cfg, st0, account) && amount > 0 && t <= MaxRetries(cfg) + 1
    ensures var s0 := Init(st0, LoserAndRivals(account, amount, MaxRetries(cfg) + 1));
            HasLost(cfg, Run(cfg, s0, schedule), account, amount, t)
    decreases t
  {
    if t == 0 {
      schedule := NothingLostYet(cfg, st0, account, amount);
    } else {
      var s0 := Init(st0, LoserAndRivals(account, amount, MaxRetries(cfg) + 1));
      schedule := AttemptsAreLost(cfg, st0, account, amount, t - 1);
      schedule := AttemptIsLostInRun(cfg, s0, account, amount, schedule, t - 1);
    }
  }

  lemma AllOthersAreRivals(account: string, amount: int, n: nat)
    ensures |RivalsOf(LoserAndRivals(account, amount, n), 0)| == n
  {
    var cmds := LoserAndRivals(account, amount, n);
    forall j | 0 < j < |cmds| ensures Rival(cmds[j], cmds[0]) {
      assert cmds[j] == AutoDeposit(account, 1);
    }
    var rivals, others := RivalsOf(cmds, 0), Below(n + 1) - {0};
    assert forall j: nat :: j in rivals <==> j in others;
    assert rivals == others;
  }

  /**
   * For every retry limit, every open account and every amount there is a run in which an auto-mode deposit
   * has exactly maxRetries + 1 rivals, all of them auto-mode deposits too, and answers ErrVersionConflict:
   * one rival more than FewRivalsNoConflict allows is already too many.
   */
  lemma EnoughRivalsConflict(cfg: Config, st0: StoreState, account: string, amount: int)
    returns (cmds: seq<Command>, schedule: seq<nat>)
    requires Alive(cfg, st0, account) && amount > 0
    ensures cmds != [] && cmds[0] == AutoDeposit(account, amount)
    ensures |RivalsOf(cmds, 0)| == MaxRetries(cfg) + 1
    ensures ReportsConflict(Run(cfg, Init(st0, cmds), schedule), 0)
  {
    var n: nat := MaxRetries(cfg) + 1;
    cmds := LoserAndRivals(account, amount, n);
    schedule := AttemptsAreLost(cfg, st0, account, amount, n);
    AllOthersAreRivals(account, amount, n);
  }

  // --- The same bounds with the limit written out ---

  /**
   * With a configured limit n > 0, at most n rival commands never make an auto-mode command or a transfer report a
   * conflict; without one, at most 8 never do.
   */
  lemma RivalsWithinTheLimit(cfg: Config, st0: StoreState, cmds: seq<Command>, schedule: seq<nat>, i: nat)
    requires ValidStore(st0) && i < |cmds| && AutoMode(cmds[i])
    requires |RivalsOf(cmds, i)| <= RetryLimit(cfg.configuredRetries)
    ensures !ReportsConflict(Run(cfg, Init(st0, cmds), schedule), i)
  {
    FewRivalsNoConflict(cfg, st0, cmds, schedule, i);
  }

  /** And one rival more, n + 1 or 9, is too many: on every open account there is a run of deposits that shows it. */
  lemma OneRivalTooMany(cfg: Config, st0: StoreState, account: string, amount: int)
    returns (cmds: seq<Command>, schedule: seq<nat>)
    requires Alive(cfg, st0, account) && amount > 0
    ensures cmds != [] && cmds[0] == Deposit(account, amount, "", -1)
    ensures |RivalsOf(cmds, 0)| == RetryLimit(cfg.configuredRetries) + 1
    ensures ReportsConflict(Run(cfg, Init(st0, cmds), schedule), 0)
  {
    cmds, schedule := EnoughRivalsConflict(cfg, st0, account, amount);
  }
}
