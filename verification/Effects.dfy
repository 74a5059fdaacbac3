/** What each command leaves behind, said by the command's own fields. */
module Effects {
  import opened Events
  import opened Aggregates
  import opened EventLog
  import opened Commands
  import opened Protocol
  import opened ClientInvariant
  import opened History
  import opened Contention
  import opened Conservation
  import opened Idempotence

  /** Event number at + 1 of the log is exactly this one. */
  predicate HoldsAt(log: seq<Event>, at: nat, k: StreamKey, version: int, p: Payload, key: string) {
    at < |log| && log[at] == Event(at + 1, k, version, p, key)
  }

  /** From index `at` on, the log holds what cmd writes, its first event at version v of its stream. */
  predicate Wrote(log: seq<Event>, cmd: Command, at: nat, v: int) {
    match cmd
    case OpenAccount(a, b, key) => HoldsAt(log, at, StreamKey(Account, a), v, AccountOpened(b), key)
    case Deposit(a, n, key, _) => HoldsAt(log, at, StreamKey(Account, a), v, FundsDeposited(n), key)
    case Withdraw(a, n, key, _) => HoldsAt(log, at, StreamKey(Account, a), v, FundsWithdrawn(n), key)
    case Transfer(from, to, n, key) =>
      && HoldsAt(log, at, StreamKey(Account, from), v, FundsWithdrawn(n), key)
      && HoldsAt(log, at + 1, StreamKey(Account, to), Version(log[..at], StreamKey(Account, to)) + 1,
                 FundsDeposited(n), key)
    case AdjustInventory(i, d, key, _) => HoldsAt(log, at, StreamKey(InventoryItem, i), v, InventoryAdjusted(d), key)
    case ReserveStock(i, q, key, _) => HoldsAt(log, at, StreamKey(InventoryItem, i), v, StockReserved(q), key)
    case ReleaseStock(i, q, key, _) => HoldsAt(log, at, StreamKey(InventoryItem, i), v, StockReleased(q), key)
  }

  lemma SecondLegVersion(log: seq<Event>, at: nat, k: StreamKey)
    requires ValidLog(log) && at + 1 < |log| && log[at + 1].stream == k && log[at].stream != k
    ensures log[at + 1].version == Version(log[..at], k) + 1
  {
    assert Placed(log, at + 1);
    assert log[..at + 1] == log[..at] + [log[at]];
    StreamOfSnoc(log[..at], log[at], k);
  }

  lemma CommitWrote(s: Sys, c: Commit)
    requires ValidLog(s.store.log) && CommitOk(s, c)
    ensures Wrote(s.store.log, c.cmd, c.at, s.store.log[c.at].version)
  {
    var log := s.store.log;
    assert Placed(log, c.at);
    if c.cmd.Transfer? {
      assert Placed(log, c.at + 1);
      SecondLegVersion(log, c.at, c.cmd.Last());
    }
  }

  /**
   * Every command is all or nothing. One that answers Applied with version v has written exactly its own events,
   * next to each other, the first at version v; one that does not, or has not yet, has written nothing: every event
   * since the start was written by another command.
   */
  lemma EveryCommandIsAllOrNothing(
    cfg: Config, st0: StoreState, cmds: seq<Command>, schedule: seq<nat>, i: nat)
    requires ValidStore(st0) && i < |cmds|
    ensures var s := Run(cfg, Init(st0, cmds), schedule);
            && i < |s.clients|
            && (IsApplied(s.clients[i]) ==>
                  Wrote(s.store.log, cmds[i], s.clients[i].pc.readAt, s.clients[i].pc.outcome.newVersion))
            && (!IsApplied(s.clients[i]) ==>
                  forall e :: |st0.log| <= e < |s.store.log| ==> WrittenByOther(s.hist, e, i))
  {
    var s := Run(cfg, Init(st0, cmds), schedule);
    RunKeepsInv(cfg, st0, cmds, schedule);
    RunExtends(cfg, Init(st0, cmds), schedule, 0);
    if IsApplied(s.clients[i]) {
      var m := CommitOf(st0, s, i);
      CommitWrote(s, s.hist[m]);
    } else {
      forall e | |st0.log| <= e < |s.store.log| ensures WrittenByOther(s.hist, e, i) {
        NothingWritten(st0, s, i, e);
      }
    }
  }

  predicate WaitsOrIsRefused(cl: Client) {
    cl.pc.Start? || (cl.pc.Done? && cl.pc.outcome == Rejected(SameAccountTransfer))
  }

  /** A transfer between an account and itself is refused as such at its first step, even if its key is taken. */
  lemma {:induction false} SameAccountIsRefused(
    cfg: Config, st0: StoreState, cmds: seq<Command>, schedule: seq<nat>, i: nat)
    requires i < |cmds| && cmds[i].Transfer? && cmds[i].fromAccount == cmds[i].toAccount
    ensures var s := Run(cfg, Init(st0, cmds), schedule);
            i < |s.clients| && s.clients[i].cmd == cmds[i] && WaitsOrIsRefused(s.clients[i])
    decreases |schedule|
  {
    if schedule != [] {
      var n := |schedule| - 1;
      SameAccountIsRefused(cfg, st0, cmds, schedule[..n], i);
      var s := Run(cfg, Init(st0, cmds), schedule[..n]);
      if schedule[n] < |s.clients| {
        StepMoves(cfg, s, schedule[n]);
      }
    }
  }

  /** The error of replaying the stream a command loads first, if it does not replay. */
  function ReplayError(cfg: Config, cmd: Command, log: seq<Event>): Option<FoldError> {
    if cmd.OnAccount() then
      var r := FoldAccount(cfg.arith, StreamOf(log, cmd.Primary()));
      if r.Failure? then Some(r.error) else None
    else
      var r := FoldInventory(cfg.arith, StreamOf(log, cmd.Primary()));
      if r.Failure? then Some(r.error) else None
  }

  /** A command whose stream does not replay answers that replay's error and writes nothing. */
  lemma BadStreamIsReported(cfg: Config, s: Sys, i: nat, err: FoldError)
    requires i < |s.clients| && s.clients[i].pc.Loading?
    requires ReplayError(cfg, s.clients[i].cmd, s.store.log) == Some(err)
    ensures Step(cfg, s, i).clients[i].pc == Done(LoadFailed(err), |s.store.log|)
    ensures Step(cfg, s, i).store == s.store
  {
  }

  /** A transfer whose receiver's stream does not replay answers that error. */
  lemma BadReceiverIsReported(cfg: Config, s: Sys, i: nat, err: FoldError)
    requires i < |s.clients| && s.clients[i].pc.LoadingLast? && s.clients[i].cmd.Transfer?
    requires FoldAccount(cfg.arith, StreamOf(s.store.log, AccountKey(s.clients[i].cmd.toAccount))) == Failure(err)
    ensures Step(cfg, s, i).clients[i].pc == Done(LoadFailed(err), s.clients[i].pc.readAt)
    ensures Step(cfg, s, i).store == s.store
  {
  }

  /** Event j is the last one of stream k in es. */
  predicate IsLastOf(es: seq<Event>, k: StreamKey, j: int) {
    0 <= j < |es| && es[j].stream == k && forall m :: j < m < |es| ==> es[m].stream != k
  }

  /** A replayed result reports the version of the last cached event of the stream. */
  lemma {:induction false} ReplayedVersionIsLast(es: seq<Event>, k: StreamKey, j: nat)
    requires IsLastOf(es, k, j)
    ensures ReplayedVersion(es, k) == es[j].version
    decreases |es|
  {
    if j < |es| - 1 {
      ReplayedVersionIsLast(es[..|es| - 1], k, j);
    }
  }
}
