/** Concrete runs that show which hypotheses of the main results cannot be dropped. */
module Witnesses {
  import opened Events
  import opened Int64
  import opened Aggregates
  import opened EventLog
  import opened Commands
  import opened Protocol
  import opened ClientInvariant
  import opened Conservation

  lemma RunSnoc(cfg: Config, s: Sys, schedule: seq<nat>, i: nat)
    ensures Run(cfg, s, schedule + [i]) == Step(cfg, Run(cfg, s, schedule), i)
  {
    assert (schedule + [i])[..|schedule|] == schedule;
  }

  /** A schedule that continues the given one with one step of client i. */
  lemma OneMore(cfg: Config, s: Sys, schedule: seq<nat>, i: nat) returns (longer: seq<nat>)
    ensures Run(cfg, s, longer) == Step(cfg, Run(cfg, s, schedule), i)
  {
    longer := schedule + [i];
    RunSnoc(cfg, s, schedule, i);
  }

  /** A schedule that continues the given one with three steps of client i. */
  lemma ThreeMore(cfg: Config, s: Sys, schedule: seq<nat>, i: nat) returns (longer: seq<nat>)
    ensures Run(cfg, s, longer) == Step(cfg, Step(cfg, Step(cfg, Run(cfg, s, schedule), i), i), i)
  {
    longer := OneMore(cfg, s, schedule, i);
    longer := OneMore(cfg, s, longer, i);
    longer := OneMore(cfg, s, longer, i);
  }

  lemma OneItemAppend(st: StoreState, key: string, e: AppendEvent)
    requires !KeyUsed(st, key)
    requires e.expectedVersion == NO_VERSION_CHECK || e.expectedVersion == Version(st.log, e.stream)
    ensures var ev := Event(|st.log| + 1, e.stream, Version(st.log, e.stream) + 1, e.payload, key);
            AppendTo(st, key, [e]) == (Appended([ev]), Record(st, key, [ev]))
  {
    assert [e][..0] == [];
    assert RunningVersion(st.log, [e], 0) == Version(st.log, e.stream);
    assert ItemAdmissible(st.log, [e], 0);
    assert Admissible(st.log, [e]);
    assert Stamp(st.log, key, [e]) ==
           [Event(|st.log| + 1, e.stream, Version(st.log, e.stream) + 1, e.payload, key)];
  }

  lemma {:induction false} OnlyStream(log: seq<Event>, k: StreamKey)
    requires forall j :: 0 <= j < |log| ==> log[j].stream == k
    ensures StreamOf(log, k) == log
    decreases |log|
  {
    if log != [] {
      OnlyStream(log[..|log| - 1], k);
    }
  }

  const AUTO: Config := Config(0, Exact)

  function Opening(account: string, b: int): Event {
    Event(1, AccountKey(account), 1, AccountOpened(b), "")
  }

  function Withdrawal(n: int, account: string, b: int, key: string): Event {
    Event(n, AccountKey(account), n, FundsWithdrawn(b), key)
  }

  /** The account's state after it was opened with b, and after b was withdrawn once or twice. */
  lemma FoldsOfTheRun(account: string, b: int, key: string)
    ensures var k := AccountKey(account);
            var log1 := [Opening(account, b)];
            var log2 := log1 + [Withdrawal(2, account, b, key)];
            var log3 := log2 + [Withdrawal(3, account, b, "")];
            && StreamOf([], k) == [] && StreamOf(log1, k) == log1
            && StreamOf(log2, k) == log2 && StreamOf(log3, k) == log3
            && FoldAccount(Exact, log1) == Success(AccountState(1, true, b))
            && FoldAccount(Exact, log2) == Success(AccountState(2, true, 0))
            && FoldAccount(Exact, log3) == Success(AccountState(3, true, -b))
  {
    var k := AccountKey(account);
    var log1 := [Opening(account, b)];
    var log2 := log1 + [Withdrawal(2, account, b, key)];
    var log3 := log2 + [Withdrawal(3, account, b, "")];
    OnlyStream(log1, k);
    OnlyStream(log2, k);
    OnlyStream(log3, k);
    assert [] + [Opening(account, b)] == log1;
    FoldAccountSnoc(Exact, [], Opening(account, b));
    FoldAccountSnoc(Exact, log1, Withdrawal(2, account, b, key));
    FoldAccountSnoc(Exact, log2, Withdrawal(3, account, b, ""));
  }

  /** Three undisturbed steps take a command on one stream from start to Applied. */
  lemma ThreeSteps(cfg: Config, s: Sys, i: nat, payload: Payload)
    requires i < |s.clients| && s.clients[i].pc.Start? && !s.clients[i].cmd.Transfer?
    requires !KeyUsed(s.store, s.clients[i].cmd.dedupeKey)
    requires var v, cmd := Version(s.store.log, s.clients[i].cmd.Primary()), s.clients[i].cmd;
             && DecideSingle(cfg, cmd, s.store.log) == Success(Attempt(v, [AppendEvent(cmd.Primary(), payload, v)]))
    ensures var cmd, n := s.clients[i].cmd, |s.store.log|;
            var ev := Event(n + 1, cmd.Primary(), Version(s.store.log, cmd.Primary()) + 1, payload, cmd.dedupeKey);
            Step(cfg, Step(cfg, Step(cfg, s, i), i), i) ==
            Sys(Record(s.store, cmd.dedupeKey, [ev]),
                s.clients[i := Client(cmd, Done(Applied(ev.version), n), n)],
                s.hist + [Commit(i, cmd, n)])
  {
    var cmd, n, v := s.clients[i].cmd, |s.store.log|, Version(s.store.log, s.clients[i].cmd.Primary());
    var s1 := Step(cfg, s, i);
    assert s1.clients[i] == Client(cmd, Loading(0), n);
    var s2 := Step(cfg, s1, i);
    assert s2.clients[i] == Client(cmd, Appending(0, Attempt(v, [AppendEvent(cmd.Primary(), payload, v)]), n, n), n);
    OneItemAppend(s.store, cmd.dedupeKey, AppendEvent(cmd.Primary(), payload, v));
  }

  // --- A pin ahead of the loaded version ---

  /** Opening an account, a withdrawal pinned one version ahead, and an ordinary withdrawal. */
  function PinAheadCommands(account: string, b: int): seq<Command> {
    [OpenAccount(account, b, ""), Withdraw(account, b, "", 2), Withdraw(account, b, "", NO_VERSION_CHECK)]
  }

  /** The store after the account was opened. */
  function Opened1(account: string, b: int): StoreState {
    StoreState([Opening(account, b)], map[])
  }

  /** The three clients of a witness run, given what the first two have done. */
  function WitnessSys(cmds: seq<Command>, st: StoreState, pc1: Pc, since1: nat, c2: Client, hist: seq<Commit>): Sys
    requires |cmds| == 3
  {
    Sys(st, [Client(cmds[0], Done(Applied(1), 0), 0), Client(cmds[1], pc1, since1), c2], hist)
  }

  lemma OpeningDecision(account: string, b: int)
    requires b > 0
    ensures Version([], AccountKey(account)) == 0
    ensures DecideSingle(AUTO, OpenAccount(account, b, ""), []) ==
            Success(Attempt(0, [AppendEvent(AccountKey(account), AccountOpened(b), 0)]))
  {
  }

  /** Any witness run starts by opening the account, undisturbed. */
  lemma OpeningSteps(cmds: seq<Command>, account: string, b: int) returns (schedule: seq<nat>)
    requires |cmds| == 3 && b > 0 && cmds[0] == OpenAccount(account, b, "")
    ensures Run(AUTO, Init(EMPTY_STORE, cmds), schedule) ==
            WitnessSys(cmds, Opened1(account, b), Start, 0, Client(cmds[2], Start, 0), [Commit(0, cmds[0], 0)])
  {
    var s0 := Init(EMPTY_STORE, cmds);
    schedule := ThreeMore(AUTO, s0, [], 0);
    OpeningDecision(account, b);
    ThreeSteps(AUTO, s0, 0, AccountOpened(b));
  }

  function PinAheadPc(account: string, b: int): Pc {
    Appending(0, Attempt(1, [AppendEvent(AccountKey(account), FundsWithdrawn(b), 2)]), 1, 1)
  }

  /** The pinned client looks its key up and loads version 1. */
  lemma PinAheadLoads(account: string, b: int, hist: seq<Commit>)
    requires b > 0
    ensures var cmds := PinAheadCommands(account, b);
            var idle := Client(cmds[2], Start, 0);
            Step(AUTO, Step(AUTO, WitnessSys(cmds, Opened1(account, b), Start, 0, idle, hist), 1), 1) ==
            WitnessSys(cmds, Opened1(account, b), PinAheadPc(account, b), 1, idle, hist)
  {
    FoldsOfTheRun(account, b, "");
    var cmds := PinAheadCommands(account, b);
    var idle := Client(cmds[2], Start, 0);
    var s := WitnessSys(cmds, Opened1(account, b), Start, 0, idle, hist);
    assert Step(AUTO, s, 1) == WitnessSys(cmds, Opened1(account, b), Loading(0), 1, idle, hist);
  }

  function Opened2(account: string, b: int, key: string): StoreState {
    var es := [Withdrawal(2, account, b, key)];
    Record(Opened1(account, b), key, es)
  }

  /** From the second client pinned ahead, the rival's undisturbed withdrawal moves the stream to version 2. */
  lemma RivalWithdraws(account: string, b: int, hist: seq<Commit>)
    requires b > 0
    ensures var cmds := PinAheadCommands(account, b);
            var s := WitnessSys(cmds, Opened1(account, b), PinAheadPc(account, b), 1, Client(cmds[2], Start, 0), hist);
            Step(AUTO, Step(AUTO, Step(AUTO, s, 2), 2), 2) ==
            WitnessSys(cmds, Opened2(account, b, ""), PinAheadPc(account, b), 1,
                       Client(cmds[2], Done(Applied(2), 1), 1), hist + [Commit(2, cmds[2], 1)])
  {
    var cmds := PinAheadCommands(account, b);
    var s := WitnessSys(cmds, Opened1(account, b), PinAheadPc(account, b), 1, Client(cmds[2], Start, 0), hist);
    FoldsOfTheRun(account, b, "");
    ThreeSteps(AUTO, s, 2, FundsWithdrawn(b));
  }

  /** The pinned client's append lands on the stream the rival has meanwhile moved to version 2. */
  lemma PinAheadLands(account: string, b: int, hist: seq<Commit>)
    requires b > 0
    ensures var cmds := PinAheadCommands(account, b);
            var c2 := Client(cmds[2], Done(Applied(2), 1), 1);
            var s' := Step(AUTO, WitnessSys(cmds, Opened2(account, b, ""), PinAheadPc(account, b), 1, c2, hist), 1);
            && BalanceOf(s'.store.log, account) == -b
            && s'.clients == [Client(cmds[0], Done(Applied(1), 0), 0), Client(cmds[1], Done(Applied(3), 2), 1), c2]
  {
    FoldsOfTheRun(account, b, "");
    OneItemAppend(Opened2(account, b, ""), "", AppendEvent(AccountKey(account), FundsWithdrawn(b), 2));
  }

  lemma PinAheadRun(account: string, b: int) returns (schedule: seq<nat>)
    requires b > 0
    ensures var cmds := PinAheadCommands(account, b);
            Run(AUTO, Init(EMPTY_STORE, cmds), schedule) ==
            WitnessSys(cmds, Opened1(account, b), PinAheadPc(account, b), 1, Client(cmds[2], Start, 0),
                       [Commit(0, cmds[0], 0)])
  {
    var cmds := PinAheadCommands(account, b);
    schedule := OpeningSteps(cmds, account, b);
    schedule := OneMore(AUTO, Init(EMPTY_STORE, cmds), schedule, 1);
    schedule := OneMore(AUTO, Init(EMPTY_STORE, cmds), schedule, 1);
    PinAheadLoads(account, b, [Commit(0, cmds[0], 0)]);
  }

  lemma PinAheadRivalRun(account: string, b: int) returns (schedule: seq<nat>)
    requires b > 0
    ensures var cmds := PinAheadCommands(account, b);
            Run(AUTO, Init(EMPTY_STORE, cmds), schedule) ==
            WitnessSys(cmds, Opened2(account, b, ""), PinAheadPc(account, b), 1,
                       Client(cmds[2], Done(Applied(2), 1), 1), [Commit(0, cmds[0], 0)] + [Commit(2, cmds[2], 1)])
  {
    var cmds := PinAheadCommands(account, b);
    schedule := PinAheadRun(account, b);
    schedule := ThreeMore(AUTO, Init(EMPTY_STORE, cmds), schedule, 2);
    RivalWithdraws(account, b, [Commit(0, cmds[0], 0)]);
  }

  /**
   * Without pin-safety money is spent twice: for every account and every b > 0 there is a run in which the
   * pinned withdrawal decides on version 1, waits until a rival has moved the stream to version 2, and then
   * lands. All three commands are told Applied and the balance is -b.
   */
  lemma PinAheadOverdraws(account: string, b: int) returns (schedule: seq<nat>)
    requires b > 0
    ensures var s := Run(AUTO, Init(EMPTY_STORE, PinAheadCommands(account, b)), schedule);
            && |s.clients| == 3
            && (forall i :: 0 <= i < 3 ==> IsApplied(s.clients[i]))
            && BalanceOf(s.store.log, account) == -b
  {
    var cmds := PinAheadCommands(account, b);
    schedule := PinAheadRivalRun(account, b);
    schedule := OneMore(AUTO, Init(EMPTY_STORE, cmds), schedule, 1);
    PinAheadLands(account, b, [Commit(0, cmds[0], 0)] + [Commit(2, cmds[2], 1)]);
  }

  // --- A retry that looks its key up too early ---

  /** Opening an account, and the same keyed withdrawal submitted twice. */
  function EarlyRetryCommands(account: string, b: int, key: string): seq<Command> {
    var keyed := Withdraw(account, b, key, NO_VERSION_CHECK);
    [OpenAccount(account, b, ""), keyed, keyed]
  }

  /** The early retry's lookup finds nothing. */
  lemma EarlyLookup(account: string, b: int, key: string, hist: seq<Commit>)
    requires b > 0 && key != ""
    ensures var cmds := EarlyRetryCommands(account, b, key);
            var s := WitnessSys(cmds, Opened1(account, b), Start, 0, Client(cmds[2], Start, 0), hist);
            Step(AUTO, s, 2) ==
            WitnessSys(cmds, Opened1(account, b), Start, 0, Client(cmds[2], Loading(0), 1), hist)
  {
  }

  /** The original's undisturbed withdrawal. */
  lemma OriginalWithdraws(account: string, b: int, key: string, hist: seq<Commit>)
    requires b > 0 && key != ""
    ensures var cmds := EarlyRetryCommands(account, b, key);
            var retry := Client(cmds[2], Loading(0), 1);
            var s := WitnessSys(cmds, Opened1(account, b), Start, 0, retry, hist);
            Step(AUTO, Step(AUTO, Step(AUTO, s, 1), 1), 1) ==
            WitnessSys(cmds, Opened2(account, b, key), Done(Applied(2), 1), 1, retry, hist + [Commit(1, cmds[1], 1)])
  {
    var cmds := EarlyRetryCommands(account, b, key);
    FoldsOfTheRun(account, b, key);
    var retry := Client(cmds[2], Loading(0), 1);
    ThreeSteps(AUTO, WitnessSys(cmds, Opened1(account, b), Start, 0, retry, hist), 1, FundsWithdrawn(b));
  }

  /** The early retry's load finds the money gone. */
  lemma LateLoad(account: string, b: int, key: string, hist: seq<Commit>)
    requires b > 0 && key != ""
    ensures var cmds := EarlyRetryCommands(account, b, key);
            var retry := Client(cmds[2], Loading(0), 1);
            var s := WitnessSys(cmds, Opened2(account, b, key), Done(Applied(2), 1), 1, retry, hist);
            Step(AUTO, s, 2) ==
            WitnessSys(cmds, Opened2(account, b, key), Done(Applied(2), 1), 1,
                       Client(cmds[2], Done(Rejected(InsufficientFunds), 2), 1), hist)
  {
    FoldsOfTheRun(account, b, key);
  }

  lemma EarlyRetryRun(account: string, b: int, key: string) returns (schedule: seq<nat>)
    requires b > 0 && key != ""
    ensures var cmds := EarlyRetryCommands(account, b, key);
            Run(AUTO, Init(EMPTY_STORE, cmds), schedule) ==
            WitnessSys(cmds, Opened1(account, b), Start, 0, Client(cmds[2], Loading(0), 1), [Commit(0, cmds[0], 0)])
  {
    var cmds := EarlyRetryCommands(account, b, key);
    schedule := OpeningSteps(cmds, account, b);
    schedule := OneMore(AUTO, Init(EMPTY_STORE, cmds), schedule, 2);
    EarlyLookup(account, b, key, [Commit(0, cmds[0], 0)]);
  }

  lemma OriginalRun(account: string, b: int, key: string) returns (schedule: seq<nat>)
    requires b > 0 && key != ""
    ensures var cmds := EarlyRetryCommands(account, b, key);
            Run(AUTO, Init(EMPTY_STORE, cmds), schedule) ==
            WitnessSys(cmds, Opened2(account, b, key), Done(Applied(2), 1), 1, Client(cmds[2], Loading(0), 1),
                       [Commit(0, cmds[0], 0)] + [Commit(1, cmds[1], 1)])
  {
    var cmds := EarlyRetryCommands(account, b, key);
    schedule := EarlyRetryRun(account, b, key);
    schedule := ThreeMore(AUTO, Init(EMPTY_STORE, cmds), schedule, 1);
    OriginalWithdraws(account, b, key, [Commit(0, cmds[0], 0)]);
  }

  /**
   * "A retry returns Duplicate" needs the lookup to follow the original append: there is a run in which the
   * retry looks its key up before the original lands and loads after it, and is told insufficient funds.
   */
  lemma EarlyRetryIsRejected(account: string, b: int, key: string) returns (schedule: seq<nat>)
    requires b > 0 && key != ""
    ensures var s := Run(AUTO, Init(EMPTY_STORE, EarlyRetryCommands(account, b, key)), schedule);
            && |s.clients| == 3
            && s.clients[1].cmd == s.clients[2].cmd
            && IsApplied(s.clients[1])
            && s.clients[2].pc.Done? && s.clients[2].pc.outcome == Rejected(InsufficientFunds)
            && KeyUsed(s.store, key)
  {
    var cmds := EarlyRetryCommands(account, b, key);
    schedule := OriginalRun(account, b, key);
    schedule := OneMore(AUTO, Init(EMPTY_STORE, cmds), schedule, 2);
    LateLoad(account, b, key, [Commit(0, cmds[0], 0)] + [Commit(1, cmds[1], 1)]);
  }

  // --- What int64 arithmetic does beyond the bound ---

  const GO: Config := Config(0, Wrapping)

  /** An account that was opened with the largest int64 and received one cent more. */
  function OverfullAccount(account: string): seq<Event> {
    var k := AccountKey(account);
    [Event(1, k, 1, AccountOpened(MAX_INT64), ""), Event(2, k, 2, FundsDeposited(1), "")]
  }

  function OverfullItem(item: string): seq<Event> {
    var k := ItemKey(item);
    [Event(1, k, 1, InventoryAdjusted(MAX_INT64), ""), Event(2, k, 2, InventoryAdjusted(1), "")]
  }

  lemma OverfullFolds(id: string)
    ensures StreamOf(OverfullAccount(id), AccountKey(id)) == OverfullAccount(id)
    ensures FoldAccount(Wrapping, OverfullAccount(id)) == Success(AccountState(2, true, MIN_INT64))
    ensures FoldAccount(Exact, OverfullAccount(id)) == Success(AccountState(2, true, MAX_INT64 + 1))
    ensures StreamOf(OverfullItem(id), ItemKey(id)) == OverfullItem(id)
    ensures FoldInventory(Wrapping, OverfullItem(id)) == Success(InventoryState(2, MIN_INT64, 0))
    ensures FoldInventory(Exact, OverfullItem(id)) == Success(InventoryState(2, MAX_INT64 + 1, 0))
  {
    var a, i := OverfullAccount(id), OverfullItem(id);
    OnlyStream(a, AccountKey(id));
    OnlyStream(i, ItemKey(id));
    assert a == [] + [a[0]] + [a[1]] && i == [] + [i[0]] + [i[1]];
    forall arith: Arith
      ensures FoldAccount(arith, a) == AccountThen(arith, AccountThen(arith, FoldAccount(arith, []), a[0]), a[1])
      ensures FoldInventory(arith, i) ==
              InventoryThen(arith, InventoryThen(arith, FoldInventory(arith, []), i[0]), i[1])
    {
      FoldAccountSnoc(arith, [], a[0]);
      FoldAccountSnoc(arith, [] + [a[0]], a[1]);
      FoldInventorySnoc(arith, [], i[0]);
      FoldInventorySnoc(arith, [] + [i[0]], i[1]);
    }
  }

  /**
   * Beyond the bound the Go machine and the exact ledger part: on an overfull account the exact ledger lets one cent
   * be withdrawn or transferred, and the Go machine, which sees a negative balance, refuses both.
   */
  lemma OverfullAccountIsRefused(account: string, other: string)
    requires account != other
    ensures var log := OverfullAccount(account);
            var withdraw := Withdraw(account, 1, "", NO_VERSION_CHECK);
            && Intent(AUTO, withdraw, log).Success?
            && Intent(GO, withdraw, log) == Failure(Rejected(InsufficientFunds))
            && Intent(GO, Transfer(account, other, 1, ""), log) == Failure(Rejected(InsufficientFunds))
            && Intent(AUTO, Transfer(account, other, 1, ""), log) == Failure(Rejected(AccountNotOpen))
  {
    OverfullFolds(account);
    OtherAccountIsEmpty(account, other);
  }

  lemma OtherAccountIsEmpty(account: string, other: string)
    requires account != other
    ensures StreamOf(OverfullAccount(account), AccountKey(other)) == []
  {
    var a := OverfullAccount(account);
    assert a == [] + [a[0]] + [a[1]];
    StreamOfSnoc([], a[0], AccountKey(other));
    StreamOfSnoc([] + [a[0]], a[1], AccountKey(other));
  }

  /**
   * On an overfull item the Go machine refuses to reserve one piece, and its guarded sum wraps once more, so that it
   * does let one piece be adjusted away from stock it takes to be negative.
   */
  lemma OverfullItemIsMisjudged(item: string)
    ensures var log := OverfullItem(item);
            var reserve := ReserveStock(item, 1, "", NO_VERSION_CHECK);
            && Intent(AUTO, reserve, log).Success?
            && Intent(GO, reserve, log) == Failure(Rejected(InsufficientStock))
            && Intent(GO, AdjustInventory(item, -1, "", NO_VERSION_CHECK), log).Success?
            && DecideAdjustInventory(Exact, InventoryState(2, MIN_INT64, 0), -1) == Failure(InsufficientStock)
  {
    OverfullFolds(item);
  }
}
