/** A command that nobody disturbs is one step of the atomic ledger: the retry machinery adds nothing. */
module Alone {
  import opened Events
  import opened Aggregates
  import opened EventLog
  import opened Commands
  import opened Protocol
  import opened ClientInvariant
  import opened Interference

  /** One undisturbed store call. */
  lemma QuietStep(cfg: Config, cmd: Command, st0: StoreState, n: nat, pc: Pc, st: StoreState)
    requires At(cfg, cmd, st0, [], n, pc, st)
    ensures At(cfg, cmd, st0, [], n + 1, NextPc(cfg, Client(cmd, pc, 0), st), NextStore(Client(cmd, pc, 0), st))
  {
    NextAt(cfg, cmd, st0, [], n, pc, st);
  }

  lemma {:induction false} QuietWhenDone(
    cfg: Config, cmd: Command, st0: StoreState, m: nat, n: nat, pc: Pc, st: StoreState)
    requires At(cfg, cmd, st0, [], m, pc, st) && pc.Done? && m <= n
    ensures At(cfg, cmd, st0, [], n, pc, st)
    decreases n
  {
    if m < n {
      QuietWhenDone(cfg, cmd, st0, m, n - 1, pc, st);
      QuietStep(cfg, cmd, st0, n - 1, pc, st);
    }
  }

  /** Two moments at which the command is finished show the same answer and the same store. */
  lemma OneAnswer(
    cfg: Config, cmd: Command, st0: StoreState, m: nat, n: nat,
    o1: Outcome, st1: StoreState, o2: Outcome, st2: StoreState)
    requires Answers(cfg, cmd, st0, [], m, o1, st1) && Answers(cfg, cmd, st0, [], n, o2, st2)
    ensures o1 == o2 && st1 == st2
  {
    var cl := Client(cmd, Start, 0);
    var pc1, pc2 := Drive(cfg, cl, st0, [], m).0.pc, Drive(cfg, cl, st0, [], n).0.pc;
    DriveKeepsCmd(cfg, cmd, st0, m);
    DriveKeepsCmd(cfg, cmd, st0, n);
    if m <= n {
      QuietWhenDone(cfg, cmd, st0, m, n, pc1, st1);
    } else {
      QuietWhenDone(cfg, cmd, st0, n, m, pc2, st2);
    }
  }

  lemma {:induction false} DriveKeepsCmd(cfg: Config, cmd: Command, st0: StoreState, n: nat)
    ensures Drive(cfg, Client(cmd, Start, 0), st0, [], n).0.cmd == cmd
    decreases n
  {
    if n > 0 {
      DriveKeepsCmd(cfg, cmd, st0, n - 1);
    }
  }

  /** A plan made on the current log conflicts only if it is pinned. */
  lemma OnlyPinsConflict(cfg: Config, cmd: Command, log: seq<Event>)
    requires ValidLog(log) && !cmd.SameAccount() && Planned(cfg, cmd, log, log).Success?
    requires !Admissible(log, Planned(cfg, cmd, log, log).value.batch)
    ensures PlanOf(cfg, cmd).maxAttempts == 1
  {
    PlannedAdmissible(cfg, cmd, log, log, log);
  }

  /** From a decided first attempt, the append settles the command as the atomic ledger does. */
  lemma AppendSettles(cfg: Config, cmd: Command, st0: StoreState, n: nat, a: Attempt, r: nat)
    requires ValidStore(st0) && !cmd.SameAccount() && !KeyUsed(st0, cmd.dedupeKey)
    requires Planned(cfg, cmd, st0.log, st0.log) == Success(a)
    requires At(cfg, cmd, st0, [], n, Appending(0, a, r, r), st0)
    ensures Answers(cfg, cmd, st0, [], n + 1, Atomic(cfg, cmd, st0).0, Atomic(cfg, cmd, st0).1)
  {
    QuietStep(cfg, cmd, st0, n, Appending(0, a, r, r), st0);
    if !Admissible(st0.log, a.batch) {
      OnlyPinsConflict(cfg, cmd, st0.log);
    }
  }

  lemma SingleSettles(cfg: Config, cmd: Command, st0: StoreState)
    requires ValidStore(st0) && !cmd.Transfer? && !KeyUsed(st0, cmd.dedupeKey)
    requires At(cfg, cmd, st0, [], 1, Loading(0), st0)
    ensures || Answers(cfg, cmd, st0, [], 2, Atomic(cfg, cmd, st0).0, Atomic(cfg, cmd, st0).1)
            || Answers(cfg, cmd, st0, [], 3, Atomic(cfg, cmd, st0).0, Atomic(cfg, cmd, st0).1)
  {
    QuietStep(cfg, cmd, st0, 1, Loading(0), st0);
    if DecideSingle(cfg, cmd, st0.log).Success? {
      AppendSettles(cfg, cmd, st0, 2, DecideSingle(cfg, cmd, st0.log).value, |st0.log|);
    }
  }

  lemma AtomicRefuses(cfg: Config, cmd: Command, st0: StoreState)
    requires !cmd.SameAccount() && !KeyUsed(st0, cmd.dedupeKey) && Planned(cfg, cmd, st0.log, st0.log).Failure?
    ensures Atomic(cfg, cmd, st0) == (Planned(cfg, cmd, st0.log, st0.log).error, st0)
  {
  }

  /** A transfer that has loaded its sender is settled by its next one or two store calls. */
  lemma SecondLoadSettles(cfg: Config, cmd: Command, st0: StoreState, from: AccountState) returns (n: nat)
    requires ValidStore(st0) && cmd.Transfer? && !cmd.SameAccount() && !KeyUsed(st0, cmd.dedupeKey)
    requires FoldAccount(cfg.arith, StreamOf(st0.log, cmd.Primary())) == Success(from)
    requires At(cfg, cmd, st0, [], 2, LoadingLast(0, from, |st0.log|), st0)
    ensures Answers(cfg, cmd, st0, [], n, Atomic(cfg, cmd, st0).0, Atomic(cfg, cmd, st0).1)
  {
    QuietStep(cfg, cmd, st0, 2, LoadingLast(0, from, |st0.log|), st0);
    var plan := Planned(cfg, cmd, st0.log, st0.log);
    if plan.Failure? {
      AtomicRefuses(cfg, cmd, st0);
      return 3;
    }
    AppendSettles(cfg, cmd, st0, 3, plan.value, |st0.log|);
    return 4;
  }

  lemma TransferSettles(cfg: Config, cmd: Command, st0: StoreState) returns (n: nat)
    requires ValidStore(st0) && cmd.Transfer? && !cmd.SameAccount() && !KeyUsed(st0, cmd.dedupeKey)
    requires At(cfg, cmd, st0, [], 1, Loading(0), st0)
    ensures Answers(cfg, cmd, st0, [], n, Atomic(cfg, cmd, st0).0, Atomic(cfg, cmd, st0).1)
  {
    QuietStep(cfg, cmd, st0, 1, Loading(0), st0);
    var from := FoldAccount(cfg.arith, StreamOf(st0.log, cmd.Primary()));
    if from.Failure? {
      AtomicRefuses(cfg, cmd, st0);
      return 2;
    }
    n := SecondLoadSettles(cfg, cmd, st0, from.value);
  }

  /**
   * Without rivals every command, pinned or not, answers exactly what the atomic ledger answers and leaves
   * exactly the store it leaves.
   */
  lemma UndisturbedIsAtomic(cfg: Config, cmd: Command, st0: StoreState, n: nat, outcome: Outcome, st: StoreState)
    requires ValidStore(st0) && Answers(cfg, cmd, st0, [], n, outcome, st)
    ensures (outcome, st) == Atomic(cfg, cmd, st0)
  {
    var (o, s) := Atomic(cfg, cmd, st0);
    assert At(cfg, cmd, st0, [], 0, Start, st0);
    QuietStep(cfg, cmd, st0, 0, Start, st0);
    var m: nat := 1;
    if !cmd.SameAccount() && !KeyUsed(st0, cmd.dedupeKey) {
      if cmd.Transfer? {
        m := TransferSettles(cfg, cmd, st0);
      } else {
        SingleSettles(cfg, cmd, st0);
        m := if Answers(cfg, cmd, st0, [], 2, o, s) then 2 else 3;
      }
    }
    OneAnswer(cfg, cmd, st0, m, n, o, s, outcome, st);
  }
}
