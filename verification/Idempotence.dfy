/** One dedupe key, at most one effect: what any number of concurrent retries can and cannot return. */
module Idempotence {
  import opened Events
  import opened Aggregates
  import opened EventLog
  import opened Commands
  import opened Protocol
  import opened ClientInvariant
  import opened History

  lemma CommitOf(st0: StoreState, s: Sys, i: nat) returns (m: nat)
    requires HistOk(st0, s) && i < |s.clients| && IsApplied(s.clients[i])
    ensures m < |s.hist| && s.hist[m].client == i && CommitOk(s, s.hist[m])
  {
    assert InHist(s.hist, i);
    m :| 0 <= m < |s.hist| && s.hist[m].client == i;
  }

  /**
   * Whatever the interleaving and whatever the arguments, clients that share a non-empty key append at
   * most one batch, and at most one of them is told Applied.
   */
  lemma AtMostOneApplied(
    cfg: Config, st0: StoreState, cmds: seq<Command>, schedule: seq<nat>, key: string, i: nat, j: nat)
    requires ValidStore(st0) && key != "" && i < j < |cmds|
    requires cmds[i].dedupeKey == key && cmds[j].dedupeKey == key
    ensures var s := Run(cfg, Init(st0, cmds), schedule);
            && |s.clients| == |cmds|
            && !(IsApplied(s.clients[i]) && IsApplied(s.clients[j]))
            && (forall m, n :: 0 <= m < n < |s.hist| ==>
                  !(s.hist[m].cmd.dedupeKey == key && s.hist[n].cmd.dedupeKey == key))
            && (key in st0.dedupe ==> !IsApplied(s.clients[i]) && !IsApplied(s.clients[j]))
  {
    var s := Run(cfg, Init(st0, cmds), schedule);
    RunKeepsInv(cfg, st0, cmds, schedule);
    RunExtends(cfg, Init(st0, cmds), schedule, 0);
    OnlyOneApplied(st0, s, i, j);
    NotAppliedBefore(st0, s, i);
    NotAppliedBefore(st0, s, j);
  }

  lemma OnlyOneApplied(st0: StoreState, s: Sys, i: nat, j: nat)
    requires HistOk(st0, s) && CommittedKeysDiffer(s.hist) && i < j < |s.clients|
    requires s.clients[i].cmd.dedupeKey == s.clients[j].cmd.dedupeKey != ""
    ensures !(IsApplied(s.clients[i]) && IsApplied(s.clients[j]))
  {
    if IsApplied(s.clients[i]) && IsApplied(s.clients[j]) {
      var m := CommitOf(st0, s, i);
      var n := CommitOf(st0, s, j);
      assert false;
    }
  }

  lemma NotAppliedBefore(st0: StoreState, s: Sys, i: nat)
    requires HistOk(st0, s) && CommittedKeysAreNew(st0, s.hist) && i < |s.clients|
    ensures s.clients[i].cmd.dedupeKey != "" && s.clients[i].cmd.dedupeKey in st0.dedupe ==> !IsApplied(s.clients[i])
  {
    if IsApplied(s.clients[i]) {
      var m := CommitOf(st0, s, i);
    }
  }

  /** The version the cached block reports for its command's primary stream is the one first answered. */
  lemma BlockReplaysFirstVersion(log: seq<Event>, cmd: Command, at: nat)
    requires BlockIs(log, cmd, at) && !cmd.SameAccount()
    ensures ReplayedVersion(log[at..at + cmd.Size()], cmd.Primary()) == log[at].version
  {
    var es := log[at..at + cmd.Size()];
    if cmd.Transfer? {
      assert es[..1] == [log[at]];
      assert es[1].stream == cmd.Last();
      assert ReplayedVersion(es, cmd.Primary()) == ReplayedVersion([log[at]], cmd.Primary());
    } else {
      assert es == [log[at]];
    }
  }

  // --- Retries that looked their key up too early ---

  lemma {:induction false} EntryStays(cfg: Config, s: Sys, schedule: seq<nat>, key: string)
    requires KeyUsed(s.store, key)
    ensures KeyUsed(Run(cfg, s, schedule).store, key)
    ensures Run(cfg, s, schedule).store.dedupe[key] == s.store.dedupe[key]
    decreases |schedule|
  {
    if schedule != [] {
      var n := |schedule| - 1;
      EntryStays(cfg, s, schedule[..n], key);
      var before := Run(cfg, s, schedule[..n]);
      if schedule[n] < |before.clients| {
        StepMoves(cfg, before, schedule[n]);
      }
    }
  }

  /** How a client whose key is already taken can end: a replay of the cached result, or a business error. */
  predicate LateEnd(o: Outcome, replayed: int) {
    o == Replayed(replayed) || o.Rejected? || o.LoadFailed?
  }

  lemma LateStep(cfg: Config, cl: Client, st: StoreState)
    requires KeyUsed(st, cl.cmd.dedupeKey) && !cl.pc.Done? && !cl.cmd.SameAccount()
    ensures var cl' := ClientStep(cfg, cl, st);
            var v := ReplayedVersion(st.dedupe[cl.cmd.dedupeKey], cl.cmd.Primary());
            && NextStore(cl, st) == st
            && (cl'.pc.Done? ==> LateEnd(cl'.pc.outcome, v))
            && (cl.pc.Start? || cl.pc.Appending? ==> cl'.pc.Done? && cl'.pc.outcome == Replayed(v))
            && (!cl'.pc.Start?)
  {
  }

  /**
   * A retry that looks its key up, or appends, after the original append gets Duplicate with the
   * original version, however far the stream has moved since.
   */
  lemma RetryGetsOriginalVersion(cfg: Config, s: Sys, j: nat, i: nat)
    requires j < |s.hist| && i < |s.clients| && CommitOk(s, s.hist[j])
    requires s.hist[j].cmd.dedupeKey != ""
    requires s.clients[i].cmd == s.hist[j].cmd
    requires s.clients[i].pc.Start? || s.clients[i].pc.Appending?
    ensures var original := s.clients[s.hist[j].client].pc.outcome;
            && original.Applied?
            && Step(cfg, s, i).clients[i].pc.Done?
            && Step(cfg, s, i).clients[i].pc.outcome == Replayed(original.newVersion)
            && Step(cfg, s, i).store == s.store
  {
    LateStep(cfg, s.clients[i], s.store);
    BlockReplaysFirstVersion(s.store.log, s.hist[j].cmd, s.hist[j].at);
  }

  /**
   * Once a key is taken, no unfinished client with that key ever applies anything or sees a version
   * conflict. It is told Duplicate for certain if it has not looked its key up yet or is about to append;
   * a client between lookup and append may instead be told a business error by the moved-on state.
   */
  lemma {:induction false} LateRetryOutcome(cfg: Config, s: Sys, schedule: seq<nat>, i: nat)
    requires i < |s.clients| && KeyUsed(s.store, s.clients[i].cmd.dedupeKey)
    requires !s.clients[i].pc.Done? && !s.clients[i].cmd.SameAccount()
    ensures |Run(cfg, s, schedule).clients| == |s.clients|
    ensures var cl := Run(cfg, s, schedule).clients[i];
            var v := ReplayedVersion(s.store.dedupe[s.clients[i].cmd.dedupeKey], s.clients[i].cmd.Primary());
            && cl.cmd == s.clients[i].cmd
            && (cl.pc.Done? ==> LateEnd(cl.pc.outcome, v))
            && (cl.pc.Done? && (s.clients[i].pc.Start? || s.clients[i].pc.Appending?) ==>
                  cl.pc.outcome == Replayed(v))
            && (!cl.pc.Done? && (s.clients[i].pc.Start? || s.clients[i].pc.Appending?) ==> cl == s.clients[i])
    decreases |schedule|
  {
    if schedule != [] {
      var n := |schedule| - 1;
      LateRetryOutcome(cfg, s, schedule[..n], i);
      EntryStays(cfg, s, schedule[..n], s.clients[i].cmd.dedupeKey);
      var before := Run(cfg, s, schedule[..n]);
      if schedule[n] == i && !before.clients[i].pc.Done? {
        LateStep(cfg, before.clients[i], before.store);
      } else if schedule[n] < |before.clients| {
        StepMoves(cfg, before, schedule[n]);
      }
    }
  }

  /**
   * A client retrying a command whose original has already landed, and that has not started yet, is told
   * Duplicate with the original's NewVersion whenever it finishes, whatever runs in between.
   */
  lemma RetryAfterOriginalReplays(
    cfg: Config, st0: StoreState, cmds: seq<Command>, before: seq<nat>, after: seq<nat>, j: nat, i: nat)
    requires ValidStore(st0) && i < |cmds|
    requires var s := Run(cfg, Init(st0, cmds), before);
             && j < |s.hist| && i < |s.clients|
             && s.clients[i].pc.Start? && cmds[i] == s.hist[j].cmd && cmds[i].dedupeKey != ""
    ensures var s := Run(cfg, Init(st0, cmds), before);
            var s' := Run(cfg, s, after);
            && s.hist[j].client < |s.clients| && IsApplied(s.clients[s.hist[j].client])
            && i < |s'.clients|
            && (s'.clients[i].pc.Done? ==>
                  s'.clients[i].pc.outcome == Replayed(s.clients[s.hist[j].client].pc.outcome.newVersion))
  {
    var s := Run(cfg, Init(st0, cmds), before);
    RunKeepsInv(cfg, st0, cmds, before);
    RunExtends(cfg, Init(st0, cmds), before, 0);
    assert CommitOk(s, s.hist[j]);
    RetryGetsOriginalVersion(cfg, s, j, i);
    LateStep(cfg, s.clients[i], s.store);
    LateRetryOutcome(cfg, s, after, i);
  }

  // --- Exactly when an early retry is told Duplicate ---

  predicate Idle(schedule: seq<nat>, i: nat) {
    forall j :: 0 <= j < |schedule| ==> schedule[j] != i
  }

  lemma {:induction false} IdleKeepsClient(cfg: Config, s: Sys, schedule: seq<nat>, i: nat)
    requires i < |s.clients| && (Idle(schedule, i) || s.clients[i].pc.Done?)
    ensures |Run(cfg, s, schedule).clients| == |s.clients|
    ensures Run(cfg, s, schedule).clients[i] == s.clients[i]
    decreases |schedule|
  {
    if schedule != [] {
      var n := |schedule| - 1;
      IdleKeepsClient(cfg, s, schedule[..n], i);
      if schedule[n] < |s.clients| {
        StepMoves(cfg, Run(cfg, s, schedule[..n]), schedule[n]);
      }
    }
  }

  /** What the plan says about the end of a client whose key is taken: Duplicate, or the plan's own refusal. */
  predicate EndsAsPlanned(cl: Client, plan: Result<Attempt, Outcome>, replayed: int) {
    cl.pc.Done? ==>
      && (cl.pc.outcome == Replayed(replayed) <==> plan.Success?)
      && (plan.Failure? ==> cl.pc.outcome == plan.error)
  }

  /** From the decision on, the rest of the run cannot change how the client ends. */
  lemma DecidedRetry(cfg: Config, s: Sys, rest: seq<nat>, i: nat, plan: Result<Attempt, Outcome>)
    requires i < |s.clients| && KeyUsed(s.store, s.clients[i].cmd.dedupeKey) && !s.clients[i].cmd.SameAccount()
    requires plan.Success? ==> s.clients[i].pc.Appending?
    requires plan.Failure? ==> s.clients[i].pc.Done? && s.clients[i].pc.outcome == plan.error
    requires plan.Failure? ==> !plan.error.Replayed?
    ensures i < |Run(cfg, s, rest).clients|
    ensures EndsAsPlanned(Run(cfg, s, rest).clients[i], plan,
                          ReplayedVersion(s.store.dedupe[s.clients[i].cmd.dedupeKey], s.clients[i].cmd.Primary()))
  {
    if plan.Success? {
      LateRetryOutcome(cfg, s, rest, i);
    } else {
      IdleKeepsClient(cfg, s, rest, i);
    }
  }

  lemma RefusalsAreNoReplays(cfg: Config, cmd: Command, logA: seq<Event>, logB: seq<Event>)
    ensures Planned(cfg, cmd, logA, logB).Failure? ==> !Planned(cfg, cmd, logA, logB).error.Replayed?
  {
  }

  lemma LoadDecides(cfg: Config, s: Sys, i: nat)
    requires i < |s.clients| && s.clients[i].pc.Loading? && !s.clients[i].cmd.Transfer?
    ensures var pc, plan := Step(cfg, s, i).clients[i].pc, Intent(cfg, s.clients[i].cmd, s.store.log);
            && (plan.Success? ==> pc.Appending?)
            && (plan.Failure? ==> pc.Done? && pc.outcome == plan.error)
  {
  }

  /**
   * A command on one stream whose key is taken after it looked the key up, and before it loads: it is told
   * Duplicate iff the moved-on log it is about to load would still let it through; otherwise it is told the
   * refusal that log gives. `idle` is what the others do before it loads, `rest` whatever happens after.
   */
  lemma EarlyRetryExactly(cfg: Config, s: Sys, idle: seq<nat>, rest: seq<nat>, i: nat)
    requires i < |s.clients| && s.clients[i].pc.Loading? && !s.clients[i].cmd.Transfer?
    requires KeyUsed(s.store, s.clients[i].cmd.dedupeKey) && Idle(idle, i)
    ensures var cmd, at := s.clients[i].cmd, Run(cfg, s, idle);
            var end := Run(cfg, Step(cfg, at, i), rest);
            && i < |end.clients|
            && EndsAsPlanned(end.clients[i], Intent(cfg, cmd, at.store.log),
                             ReplayedVersion(s.store.dedupe[cmd.dedupeKey], cmd.Primary()))
  {
    var cmd, at := s.clients[i].cmd, Run(cfg, s, idle);
    IdleKeepsClient(cfg, s, idle, i);
    EntryStays(cfg, s, idle, cmd.dedupeKey);
    StepMoves(cfg, at, i);
    LoadDecides(cfg, at, i);
    RefusalsAreNoReplays(cfg, cmd, at.store.log, at.store.log);
    DecidedRetry(cfg, Step(cfg, at, i), rest, i, Intent(cfg, cmd, at.store.log));
  }

  lemma SecondLoadDecides(cfg: Config, s: Sys, i: nat, logA: seq<Event>)
    requires i < |s.clients| && s.clients[i].pc.LoadingLast? && s.clients[i].cmd.Transfer?
    requires FoldAccount(cfg.arith, StreamOf(logA, s.clients[i].cmd.Primary())) == Success(s.clients[i].pc.from)
    ensures var pc, plan := Step(cfg, s, i).clients[i].pc, Planned(cfg, s.clients[i].cmd, logA, s.store.log);
            && (plan.Success? ==> pc.Appending?)
            && (plan.Failure? ==> pc.Done? && pc.outcome == plan.error)
  {
  }

  /** A transfer that has loaded its sender from logA and whose key is taken: its second load decides. */
  lemma EarlyRetryAfterFirstLoad(
    cfg: Config, s: Sys, idle: seq<nat>, rest: seq<nat>, i: nat, logA: seq<Event>)
    requires i < |s.clients| && s.clients[i].pc.LoadingLast?
    requires s.clients[i].cmd.Transfer? && !s.clients[i].cmd.SameAccount()
    requires FoldAccount(cfg.arith, StreamOf(logA, s.clients[i].cmd.Primary())) == Success(s.clients[i].pc.from)
    requires KeyUsed(s.store, s.clients[i].cmd.dedupeKey) && Idle(idle, i)
    ensures var cmd, at := s.clients[i].cmd, Run(cfg, s, idle);
            var end := Run(cfg, Step(cfg, at, i), rest);
            && i < |end.clients|
            && EndsAsPlanned(end.clients[i], Planned(cfg, cmd, logA, at.store.log),
                             ReplayedVersion(s.store.dedupe[cmd.dedupeKey], cmd.Primary()))
  {
    var cmd, at := s.clients[i].cmd, Run(cfg, s, idle);
    IdleKeepsClient(cfg, s, idle, i);
    EntryStays(cfg, s, idle, cmd.dedupeKey);
    StepMoves(cfg, at, i);
    SecondLoadDecides(cfg, at, i, logA);
    RefusalsAreNoReplays(cfg, cmd, logA, at.store.log);
    DecidedRetry(cfg, Step(cfg, at, i), rest, i, Planned(cfg, cmd, logA, at.store.log));
  }

  lemma FirstLoadMoves(cfg: Config, s: Sys, i: nat)
    requires i < |s.clients| && s.clients[i].pc.Loading? && s.clients[i].cmd.Transfer?
    ensures var pc, from := Step(cfg, s, i).clients[i].pc,
                            FoldAccount(cfg.arith, StreamOf(s.store.log, s.clients[i].cmd.Primary()));
            && (from.Success? ==> pc.LoadingLast? && pc.from == from.value)
            && (from.Failure? ==> pc.Done? && pc.outcome == LoadFailed(from.error))
  {
  }

  /**
   * A transfer whose key is taken before its first load is told Duplicate iff the plan made from its two
   * loads, the sender at one moment and the receiver at a later one, goes through.
   */
  lemma EarlyTransferRetryExactly(
    cfg: Config, s: Sys, idle: seq<nat>, between: seq<nat>, rest: seq<nat>, i: nat)
    requires i < |s.clients| && s.clients[i].pc.Loading?
    requires s.clients[i].cmd.Transfer? && !s.clients[i].cmd.SameAccount()
    requires KeyUsed(s.store, s.clients[i].cmd.dedupeKey) && Idle(idle, i) && Idle(between, i)
    ensures var cmd, first := s.clients[i].cmd, Run(cfg, s, idle);
            var second := Run(cfg, Step(cfg, first, i), between);
            var end := Run(cfg, Step(cfg, second, i), rest);
            && i < |end.clients|
            && EndsAsPlanned(end.clients[i], Planned(cfg, cmd, first.store.log, second.store.log),
                             ReplayedVersion(s.store.dedupe[cmd.dedupeKey], cmd.Primary()))
  {
    var cmd, first := s.clients[i].cmd, Run(cfg, s, idle);
    var mid := Step(cfg, first, i);
    IdleKeepsClient(cfg, s, idle, i);
    EntryStays(cfg, s, idle, cmd.dedupeKey);
    StepMoves(cfg, first, i);
    FirstLoadMoves(cfg, first, i);
    if mid.clients[i].pc.Done? {
      LoadFailureStays(cfg, mid, between, rest, i);
    } else {
      EarlyRetryAfterFirstLoad(cfg, mid, between, rest, i, first.store.log);
    }
  }

  lemma LoadFailureStays(cfg: Config, s: Sys, between: seq<nat>, rest: seq<nat>, i: nat)
    requires i < |s.clients| && s.clients[i].pc.Done?
    ensures var end := Run(cfg, Step(cfg, Run(cfg, s, between), i), rest);
            i < |end.clients| && end.clients[i] == s.clients[i]
  {
    IdleKeepsClient(cfg, s, between, i);
    StepMoves(cfg, Run(cfg, s, between), i);
    IdleKeepsClient(cfg, Step(cfg, Run(cfg, s, between), i), rest, i);
  }
}
