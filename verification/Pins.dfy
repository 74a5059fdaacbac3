/**
 * What the caller's version means, said by the command's own fields: a pinned command is one compare-and-swap,
 * -1 is auto mode, and auto mode retries up to the configured limit.
 */
module Pins {
  import opened Events
  import opened Aggregates
  import opened EventLog
  import opened Commands
  import opened Protocol
  import opened ClientInvariant
  import opened History

  /** The command asks for its stream to be at version v; OpenAccount always asks for a new stream. */
  predicate AsksFor(cmd: Command, v: int) {
    match cmd
    case OpenAccount(_, _, _) => v == 0
    case Transfer(_, _, _, _) => false
    case Deposit(_, _, _, w) => v == w != -1
    case Withdraw(_, _, _, w) => v == w != -1
    case AdjustInventory(_, _, _, w) => v == w != -1
    case ReserveStock(_, _, _, w) => v == w != -1
    case ReleaseStock(_, _, _, w) => v == w != -1
  }

  /** The command leaves the version to the service. */
  predicate AutoMode(cmd: Command) {
    match cmd
    case OpenAccount(_, _, _) => false
    case Transfer(_, _, _, _) => true
    case Deposit(_, _, _, w) => w == -1
    case Withdraw(_, _, _, w) => w == -1
    case AdjustInventory(_, _, _, w) => w == -1
    case ReserveStock(_, _, _, w) => w == -1
    case ReleaseStock(_, _, _, w) => w == -1
  }

  /** How often an auto-mode command tries again: the configured limit, or 8 when none is configured. */
  function RetryLimit(configuredRetries: int): nat {
    if configuredRetries > 0 then configuredRetries else 8
  }

  lemma PlanSaysSo(cfg: Config, cmd: Command, v: int)
    ensures AsksFor(cmd, v) ==> PlanOf(cfg, cmd) == VersionPlan(true, v, 1)
    ensures AutoMode(cmd) ==> !PlanOf(cfg, cmd).pinned
    ensures AutoMode(cmd) ==> PlanOf(cfg, cmd).maxAttempts == RetryLimit(cfg.configuredRetries) + 1
  {
  }

  /** The version a decided batch's first event gets when it lands. */
  lemma LandsOneAbove(log: seq<Event>, key: string, batch: seq<AppendEvent>)
    requires batch != []
    ensures FirstVersion(Stamp(log, key, batch)) == Version(log, batch[0].stream) + 1
  {
    assert batch[..0] == [];
  }

  /** The stream the command is about is where the decided batch expects it. */
  predicate StillThere(cfg: Config, log: seq<Event>, cl: Client)
    requires cl.pc.Appending?
  {
    && ExpectedVersionFor(PlanOf(cfg, cl.cmd), cl.pc.decided.loadedVersion) == Version(log, cl.cmd.Primary())
    && (cl.cmd.Transfer? && cl.pc.readLastAt <= |log| ==>
          Version(log[..cl.pc.readLastAt], cl.cmd.Last()) == Version(log, cl.cmd.Last()))
  }

  /** An append with an unused key lands iff the streams are where it expects them; it then answers the next version. */
  lemma AppendIsCompareAndSwap(cfg: Config, s: Sys, i: nat)
    requires i < |s.clients| && ValidStore(s.store) && ClientsOk(cfg, s)
    requires s.clients[i].pc.Appending? && !KeyUsed(s.store, s.clients[i].cmd.dedupeKey)
    ensures var cl, log := s.clients[i], s.store.log;
            Step(cfg, s, i).clients[i].pc ==
            if StillThere(cfg, log, cl) then Done(Applied(Version(log, cl.cmd.Primary()) + 1), |log|)
            else if cl.pc.attempt < PlanOf(cfg, cl.cmd).maxAttempts - 1 then Loading(cl.pc.attempt + 1)
            else Done(Conflicted, |log|)
  {
    var cl, log := s.clients[i], s.store.log;
    assert ClientOk(cfg, log, cl);
    var logA, logB := log[..cl.pc.readAt], log[..cl.pc.readLastAt];
    PrefixIsValid(log, cl.pc.readAt);
    PrefixIsValid(log, cl.pc.readLastAt);
    PlannedBatchShape(cfg, cl.cmd, logA, logB);
    PlannedAdmissible(cfg, cl.cmd, logA, logB, log);
    LandsOneAbove(log, cl.cmd.dedupeKey, cl.pc.decided.batch);
  }

  /**
   * A pinned command, and OpenAccount at version 0, is one compare-and-swap: once decided, and with an unused key,
   * it lands iff its stream is at exactly the version it asked for, answering the next version, and otherwise it
   * reports a conflict at once.
   */
  lemma PinnedIsCompareAndSwap(cfg: Config, s: Sys, i: nat, v: int)
    requires i < |s.clients| && ValidStore(s.store) && ClientsOk(cfg, s) && AsksFor(s.clients[i].cmd, v)
    requires s.clients[i].pc.Appending? && !KeyUsed(s.store, s.clients[i].cmd.dedupeKey)
    ensures Step(cfg, s, i).clients[i].pc ==
            Done(if Version(s.store.log, s.clients[i].cmd.Primary()) == v then Applied(v + 1) else Conflicted,
                 |s.store.log|)
  {
    AppendIsCompareAndSwap(cfg, s, i);
    PlanSaysSo(cfg, s.clients[i].cmd, v);
    assert ClientOk(cfg, s.store.log, s.clients[i]);
  }

  /**
   * An auto-mode command lands iff the streams still have the versions it loaded; if not it loads again, until it
   * has tried once more than the limit.
   */
  lemma AutoModeRetriesUpToTheLimit(cfg: Config, s: Sys, i: nat)
    requires i < |s.clients| && ValidStore(s.store) && ClientsOk(cfg, s) && AutoMode(s.clients[i].cmd)
    requires s.clients[i].pc.Appending? && !KeyUsed(s.store, s.clients[i].cmd.dedupeKey)
    ensures var cl, log := s.clients[i], s.store.log;
            && cl.pc.readAt <= |log| && cl.pc.readLastAt <= |log|
            && var unchanged' := Version(log[..cl.pc.readAt], cl.cmd.Primary()) == Version(log, cl.cmd.Primary()) &&
                                 (cl.cmd.Transfer? ==> Version(log[..cl.pc.readLastAt], cl.cmd.Last()) ==
                                                       Version(log, cl.cmd.Last()));
               Step(cfg, s, i).clients[i].pc ==
               if unchanged' then Done(Applied(Version(log, cl.cmd.Primary()) + 1), |log|)
               else if cl.pc.attempt < RetryLimit(cfg.configuredRetries) then Loading(cl.pc.attempt + 1)
               else Done(Conflicted, |log|)
  {
    var cl, log := s.clients[i], s.store.log;
    AppendIsCompareAndSwap(cfg, s, i);
    PlanSaysSo(cfg, cl.cmd, 0);
    assert ClientOk(cfg, log, cl);
    PrefixIsValid(log, cl.pc.readAt);
    PrefixIsValid(log, cl.pc.readLastAt);
    PlannedBatchShape(cfg, cl.cmd, log[..cl.pc.readAt], log[..cl.pc.readLastAt]);
  }

  /** An applied command that asked for version v answers v + 1, and its stream was at v when it landed. */
  predicate AnsweredPin(log: seq<Event>, cl: Client, v: int) {
    IsApplied(cl) && AsksFor(cl.cmd, v) ==>
      && cl.pc.outcome.newVersion == v + 1
      && cl.pc.readAt <= |log| && Version(log[..cl.pc.readAt], cl.cmd.Primary()) == v
  }

  lemma CommitAnswersPin(cfg: Config, s: Sys, i: nat, v: int)
    requires i < |s.clients| && ValidStore(s.store) && ClientsOk(cfg, s) && Commits(s, i)
    ensures AnsweredPin(Step(cfg, s, i).store.log, Step(cfg, s, i).clients[i], v)
  {
    StepMoves(cfg, s, i);
    if AsksFor(s.clients[i].cmd, v) {
      PinnedIsCompareAndSwap(cfg, s, i, v);
      assert Step(cfg, s, i).store.log[..|s.store.log|] == s.store.log;
    }
  }

  lemma StepKeepsAnsweredPin(cfg: Config, s: Sys, k: nat, i: nat, v: int)
    requires i < |s.clients| && ValidStore(s.store) && ClientsOk(cfg, s)
    requires AnsweredPin(s.store.log, s.clients[i], v)
    ensures i < |Step(cfg, s, k).clients|
    ensures AnsweredPin(Step(cfg, s, k).store.log, Step(cfg, s, k).clients[i], v)
  {
    if k < |s.clients| {
      StepMoves(cfg, s, k);
      if Commits(s, k) && k == i {
        CommitAnswersPin(cfg, s, i, v);
      } else {
        PinStays(s, Step(cfg, s, k), i, v);
      }
    }
  }

  lemma PinStays(s: Sys, s': Sys, i: nat, v: int)
    requires i < |s.clients| == |s'.clients| && AnsweredPin(s.store.log, s.clients[i], v)
    requires s.store.log <= s'.store.log
    requires s'.clients[i] == s.clients[i] || (IsApplied(s'.clients[i]) ==> s'.clients[i] == s.clients[i])
    ensures AnsweredPin(s'.store.log, s'.clients[i], v)
  {
    if IsApplied(s'.clients[i]) && AsksFor(s'.clients[i].cmd, v) {
      assert s'.store.log[..s.clients[i].pc.readAt] == s.store.log[..s.clients[i].pc.readAt];
    }
  }

  /** In every run: whoever pinned version v and was applied landed on version v and was told v + 1. */
  lemma {:induction false} AppliedMeansPinHeld(
    cfg: Config, st0: StoreState, cmds: seq<Command>, schedule: seq<nat>, i: nat, v: int)
    requires ValidStore(st0) && i < |cmds|
    ensures var s := Run(cfg, Init(st0, cmds), schedule);
            i < |s.clients| && AnsweredPin(s.store.log, s.clients[i], v)
    decreases |schedule|
  {
    if schedule != [] {
      var n := |schedule| - 1;
      AppliedMeansPinHeld(cfg, st0, cmds, schedule[..n], i, v);
      RunKeepsInv(cfg, st0, cmds, schedule[..n]);
      StepKeepsAnsweredPin(cfg, Run(cfg, Init(st0, cmds), schedule[..n]), schedule[n], i, v);
    }
  }
}
