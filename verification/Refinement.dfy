/** Interleaved runs refine the atomic ledger. */
module Refinement {
  import opened Events
  import opened Aggregates
  import opened EventLog
  import opened Commands
  import opened Protocol
  import opened ClientInvariant
  import opened History

  /**
   * A pin-safe client whose append succeeds does exactly what the atomic ledger does in that one step:
   * same events, same dedupe entry, same answer.
   */
  lemma CommitIsAtomic(cfg: Config, s: Sys, i: nat)
    requires i < |s.clients| && ValidStore(s.store) && ClientsOk(cfg, s)
    requires Commits(s, i) && PinSafe(cfg, s.clients[i])
    ensures Intent(cfg, s.clients[i].cmd, s.store.log) == Success(s.clients[i].pc.decided)
    ensures Atomic(cfg, s.clients[i].cmd, s.store) ==
            (Applied(FirstVersion(Produced(s, i))), Step(cfg, s, i).store)
  {
    var cl, log := s.clients[i], s.store.log;
    assert ClientOk(cfg, log, cl);
    FreshIffPinNotAhead(cfg, s, i);
    SameStreamsSamePlan(cfg, cl.cmd, log[..cl.pc.readAt], log[..cl.pc.readLastAt], log);
    assert Intent(cfg, cl.cmd, log) == Success(cl.pc.decided);
    StepMoves(cfg, s, i);
  }

  function CommandsOf(hist: seq<Commit>): (cmds: seq<Command>)
    ensures |cmds| == |hist|
  {
    seq(|hist|, j requires 0 <= j < |hist| => hist[j].cmd)
  }

  /** The atomic ledger run on a list of commands, one after the other. */
  function Replay(cfg: Config, st: StoreState, cmds: seq<Command>): StoreState {
    if cmds == [] then st
    else Atomic(cfg, cmds[|cmds| - 1], Replay(cfg, st, cmds[..|cmds| - 1])).1
  }

  /**
   * Serializability: the store an interleaved run leaves is the one the atomic ledger leaves when it
   * executes the committed commands in commit order; everything else the clients did was a stutter.
   */
  lemma {:induction false} RunIsSerial(cfg: Config, st0: StoreState, cmds: seq<Command>, schedule: seq<nat>)
    requires ValidStore(st0) && PinSafeRun(cfg, Init(st0, cmds), schedule)
    ensures var s := Run(cfg, Init(st0, cmds), schedule);
            s.store == Replay(cfg, st0, CommandsOf(s.hist))
    decreases |schedule|
  {
    if schedule != [] {
      var n := |schedule| - 1;
      var s := Run(cfg, Init(st0, cmds), schedule[..n]);
      var i := schedule[n];
      RunIsSerial(cfg, st0, cmds, schedule[..n]);
      RunKeepsInv(cfg, st0, cmds, schedule[..n]);
      SerialStep(cfg, st0, s, i);
    }
  }

  lemma ReplayOneMore(cfg: Config, st0: StoreState, hist: seq<Commit>, c: Commit)
    ensures Replay(cfg, st0, CommandsOf(hist + [c])) == Atomic(cfg, c.cmd, Replay(cfg, st0, CommandsOf(hist))).1
  {
    var cmds := CommandsOf(hist + [c]);
    assert cmds[..|cmds| - 1] == CommandsOf(hist);
  }

  lemma CommitReplays(cfg: Config, st0: StoreState, s: Sys, i: nat)
    requires i < |s.clients| && ValidStore(s.store) && ClientsOk(cfg, s)
    requires Commits(s, i) && PinSafe(cfg, s.clients[i])
    requires s.store == Replay(cfg, st0, CommandsOf(s.hist))
    ensures Step(cfg, s, i).store == Replay(cfg, st0, CommandsOf(Step(cfg, s, i).hist))
  {
    StepMoves(cfg, s, i);
    CommitIsAtomic(cfg, s, i);
    ReplayOneMore(cfg, st0, s.hist, Commit(i, s.clients[i].cmd, |s.store.log|));
  }

  lemma SerialStep(cfg: Config, st0: StoreState, s: Sys, i: nat)
    requires ValidStore(s.store) && ClientsOk(cfg, s) && AllPinSafe(cfg, s)
    requires s.store == Replay(cfg, st0, CommandsOf(s.hist))
    ensures Step(cfg, s, i).store == Replay(cfg, st0, CommandsOf(Step(cfg, s, i).hist))
  {
    if i < |s.clients| {
      if Commits(s, i) {
        CommitReplays(cfg, st0, s, i);
      } else {
        StepMoves(cfg, s, i);
      }
    }
  }

  /** Client c's answer is the one the atomic ledger gives its command on the store st. */
  predicate AnswersAs(cfg: Config, s: Sys, c: Commit, st: StoreState) {
    && c.client < |s.clients|
    && s.clients[c.client].cmd == c.cmd
    && s.clients[c.client].pc == Done(Atomic(cfg, c.cmd, st).0, c.at)
  }

  lemma AnswerStays(cfg: Config, s: Sys, i: nat, c: Commit, st: StoreState)
    requires AnswersAs(cfg, s, c, st)
    ensures AnswersAs(cfg, Step(cfg, s, i), c, st)
  {
    if i < |s.clients| {
      StepMoves(cfg, s, i);
    }
  }

  lemma CommitAnswers(cfg: Config, s: Sys, i: nat)
    requires i < |s.clients| && ValidStore(s.store) && ClientsOk(cfg, s)
    requires Commits(s, i) && PinSafe(cfg, s.clients[i])
    ensures AnswersAs(cfg, Step(cfg, s, i), Commit(i, s.clients[i].cmd, |s.store.log|), s.store)
  {
    StepMoves(cfg, s, i);
    CommitIsAtomic(cfg, s, i);
  }

  lemma OldCommitStays(cfg: Config, s: Sys, i: nat, j: nat)
    requires j < |s.hist|
    ensures j < |Step(cfg, s, i).hist|
    ensures Step(cfg, s, i).hist[j] == s.hist[j] && Step(cfg, s, i).hist[..j] == s.hist[..j]
  {
  }

  lemma NewCommitIsLast(cfg: Config, s: Sys, i: nat, j: nat)
    requires |s.hist| <= j < |Step(cfg, s, i).hist|
    ensures i < |s.clients| && Commits(s, i) && j == |s.hist|
    ensures Step(cfg, s, i).hist[j] == Commit(i, s.clients[i].cmd, |s.store.log|)
    ensures Step(cfg, s, i).hist[..j] == s.hist
  {
  }

  /** The answers are serial too: each applied command answers what the atomic ledger answers at its turn. */
  lemma {:induction false} AnswersAreSerial(
    cfg: Config, st0: StoreState, cmds: seq<Command>, schedule: seq<nat>, j: nat)
    requires ValidStore(st0) && PinSafeRun(cfg, Init(st0, cmds), schedule)
    requires j < |Run(cfg, Init(st0, cmds), schedule).hist|
    ensures var s := Run(cfg, Init(st0, cmds), schedule);
            AnswersAs(cfg, s, s.hist[j], Replay(cfg, st0, CommandsOf(s.hist[..j])))
    decreases |schedule|
  {
    var n := |schedule| - 1;
    var s, i := Run(cfg, Init(st0, cmds), schedule[..n]), schedule[n];
    if j < |s.hist| {
      OldCommitStays(cfg, s, i, j);
      AnswersAreSerial(cfg, st0, cmds, schedule[..n], j);
      AnswerStays(cfg, s, i, s.hist[j], Replay(cfg, st0, CommandsOf(s.hist[..j])));
    } else {
      RunKeepsInv(cfg, st0, cmds, schedule[..n]);
      NewCommitIsLast(cfg, s, i, j);
      assert PinSafe(cfg, s.clients[i]);
      CommitAnswers(cfg, s, i);
      RunIsSerial(cfg, st0, cmds, schedule[..n]);
    }
  }

  /** Nobody else uses this client's dedupe key, or it has none. */
  predicate PrivateKey(st0: StoreState, cmds: seq<Command>, i: nat)
    requires i < |cmds|
  {
    || cmds[i].dedupeKey == ""
    || (cmds[i].dedupeKey !in st0.dedupe &&
        forall j :: 0 <= j < |cmds| && j != i ==> cmds[j].dedupeKey != cmds[i].dedupeKey)
  }

  lemma PrivateKeyUnused(st0: StoreState, cmds: seq<Command>, s: Sys, i: nat)
    requires i < |cmds| == |s.clients| && PrivateKey(st0, cmds, i)
    requires CommitsOk(s) && KeysAreCommitted(st0, s.store, s.hist)
    requires forall j :: 0 <= j < |cmds| ==> s.clients[j].cmd == cmds[j]
    requires !IsApplied(s.clients[i])
    ensures !KeyUsed(s.store, cmds[i].dedupeKey)
  {
    forall j | 0 <= j < |s.hist| && cmds[i].dedupeKey != ""
      ensures s.hist[j].cmd.dedupeKey != cmds[i].dedupeKey
    {
      assert CommitOk(s, s.hist[j]);
      CommitHasOtherKey(st0, cmds, s, i, s.hist[j]);
    }
  }

  lemma CommitHasOtherKey(st0: StoreState, cmds: seq<Command>, s: Sys, i: nat, c: Commit)
    requires i < |cmds| == |s.clients| && PrivateKey(st0, cmds, i) && cmds[i].dedupeKey != ""
    requires forall j :: 0 <= j < |cmds| ==> s.clients[j].cmd == cmds[j]
    requires !IsApplied(s.clients[i]) && CommitOk(s, c)
    ensures c.cmd.dedupeKey != cmds[i].dedupeKey
  {
  }

  predicate HasRead(pc: Pc) {
    pc.LoadingLast? || pc.Appending? || pc.Done?
  }

  /** A step either leaves a client's read point alone or sets it to the present length of the log. */
  lemma ReadPointIsNow(cfg: Config, s: Sys, k: nat, i: nat)
    requires i < |s.clients| && HasRead(Step(cfg, s, k).clients[i].pc)
    ensures || Step(cfg, s, k).clients[i].pc.readAt == |s.store.log|
            || (HasRead(s.clients[i].pc) && s.clients[i].pc.readAt == Step(cfg, s, k).clients[i].pc.readAt)
  {
  }

  /** Whatever a client says it read at, the log really had that length at some point of the run. */
  lemma {:induction false} ReadPoint(cfg: Config, s: Sys, schedule: seq<nat>, i: nat) returns (n: nat)
    requires i < |s.clients| && s.clients[i].pc.Start?
    requires i < |Run(cfg, s, schedule).clients| && HasRead(Run(cfg, s, schedule).clients[i].pc)
    ensures n <= |schedule|
    ensures |Run(cfg, s, schedule[..n]).store.log| == Run(cfg, s, schedule).clients[i].pc.readAt
    decreases |schedule|
  {
    var m := |schedule| - 1;
    RunExtends(cfg, s, schedule[..m], 0);
    var before := Run(cfg, s, schedule[..m]);
    ReadPointIsNow(cfg, before, schedule[m], i);
    if |before.store.log| == Run(cfg, s, schedule).clients[i].pc.readAt {
      n := m;
    } else {
      n := ReadPoint(cfg, s, schedule[..m], i);
      assert schedule[..m][..n] == schedule[..n];
    }
  }

  /**
   * A business rejection is the atomic ledger's answer at one moment inside the client's own run: the
   * moment its deciding attempt first loaded.
   */
  lemma RejectionIsAtomic(cfg: Config, st0: StoreState, cmds: seq<Command>, schedule: seq<nat>, i: nat)
    returns (n: nat)
    requires ValidStore(st0) && i < |cmds| && PrivateKey(st0, cmds, i)
    requires var cl := Run(cfg, Init(st0, cmds), schedule).clients; RejectedAt(cl, i)
    ensures n <= |schedule|
    ensures var s, at := Run(cfg, Init(st0, cmds), schedule), Run(cfg, Init(st0, cmds), schedule[..n]).store;
            && i < |s.clients|
            && s.clients[i].since <= |at.log| == s.clients[i].pc.readAt
            && Atomic(cfg, cmds[i], at) == (s.clients[i].pc.outcome, at)
  {
    var s0 := Init(st0, cmds);
    var s := Run(cfg, s0, schedule);
    RunKeepsInv(cfg, st0, cmds, schedule);
    RunExtends(cfg, s0, schedule, 0);
    n := ReadPoint(cfg, s0, schedule, i);
    RunExtends(cfg, s0, schedule, n);
    assert ClientOk(cfg, s.store.log, s.clients[i]);
    PrivateKeyUnused(st0, cmds, s, i);
    var at := Run(cfg, s0, schedule[..n]).store;
    assert at.log == s.store.log[..s.clients[i].pc.readAt];
    assert !KeyUsed(at, cmds[i].dedupeKey);
  }

  predicate RejectedAt(clients: seq<Client>, i: nat) {
    i < |clients| && clients[i].pc.Done? && clients[i].pc.outcome.Rejected?
  }
}
