/** Every command finishes within a bounded number of its own steps, whatever the others do. */
module Progress {
  import opened Events
  import opened Aggregates
  import opened EventLog
  import opened Commands
  import opened Protocol
  import opened ClientInvariant
  import opened History
  import opened Pins

  /** Store calls of one attempt: a load and an append, or two loads and an append. */
  function CallsPerAttempt(cmd: Command): nat {
    if cmd.Transfer? then 3 else 2
  }

  /** Auto mode has one attempt more than the limit, a pinned command has one. */
  function Attempts(cfg: Config, cmd: Command): nat {
    if AutoMode(cmd) then RetryLimit(cfg.configuredRetries) + 1 else 1
  }

  /** The most steps a command can take: its lookup and all its attempts. */
  function MostSteps(cfg: Config, cmd: Command): nat {
    1 + CallsPerAttempt(cmd) * Attempts(cfg, cmd)
  }

  /** The most steps a client can still take. */
  function StepsLeft(cfg: Config, cl: Client): int {
    match cl.pc
    case Start => MostSteps(cfg, cl.cmd)
    case Loading(t) => CallsPerAttempt(cl.cmd) * (Attempts(cfg, cl.cmd) - t)
    case LoadingLast(t, _, _) => CallsPerAttempt(cl.cmd) * (Attempts(cfg, cl.cmd) - t) - 1
    case Appending(t, _, _, _) => CallsPerAttempt(cl.cmd) * (Attempts(cfg, cl.cmd) - t - 1) + 1
    case Done(_, _) => 0
  }

  lemma AttemptsArePlanned(cfg: Config, cmd: Command)
    ensures PlanOf(cfg, cmd).maxAttempts == Attempts(cfg, cmd)
  {
    PlanSaysSo(cfg, cmd, if cmd.OpenAccount? then 0 else cmd.RequestedVersion());
  }

  /** Each own step uses up at least one of the steps that are left. */
  lemma OwnStepUsesOne(cfg: Config, cl: Client, st: StoreState)
    requires ClientOk(cfg, st.log, cl) && !cl.pc.Done?
    ensures StepsLeft(cfg, cl) >= 1
    ensures ClientStep(cfg, cl, st).pc.Done? || StepsLeft(cfg, ClientStep(cfg, cl, st)) <= StepsLeft(cfg, cl) - 1
  {
    AttemptsArePlanned(cfg, cl.cmd);
    if cl.pc.Appending? {
      if !AppendTo(st, cl.cmd.dedupeKey, cl.pc.decided.batch).0.Appended? {
        AppendMisses(cfg, cl, st);
      }
    } else {
      LoadUsesOne(cfg, cl, st);
    }
  }

  lemma LoadUsesOne(cfg: Config, cl: Client, st: StoreState)
    requires ClientOk(cfg, st.log, cl) && !cl.pc.Done? && !cl.pc.Appending?
    ensures StepsLeft(cfg, cl) >= 1
    ensures ClientStep(cfg, cl, st).pc.Done? || StepsLeft(cfg, ClientStep(cfg, cl, st)) <= StepsLeft(cfg, cl) - 1
  {
    AttemptsArePlanned(cfg, cl.cmd);
  }

  /** How many of the schedule's steps are client i's. */
  function OwnSteps(schedule: seq<nat>, i: nat): nat {
    if schedule == [] then 0
    else OwnSteps(schedule[..|schedule| - 1], i) + if schedule[|schedule| - 1] == i then 1 else 0
  }

  /** A client is done, or has spent its steps one by one. */
  predicate InBudget(cfg: Config, cl: Client, spent: nat) {
    cl.pc.Done? || StepsLeft(cfg, cl) + spent <= MostSteps(cfg, cl.cmd)
  }

  lemma {:induction false} RunIsInBudget(
    cfg: Config, st0: StoreState, cmds: seq<Command>, schedule: seq<nat>, i: nat)
    requires ValidStore(st0) && i < |cmds|
    ensures var s := Run(cfg, Init(st0, cmds), schedule);
            i < |s.clients| && s.clients[i].cmd == cmds[i] && InBudget(cfg, s.clients[i], OwnSteps(schedule, i))
    decreases |schedule|
  {
    if schedule != [] {
      var n := |schedule| - 1;
      var s := Run(cfg, Init(st0, cmds), schedule[..n]);
      RunIsInBudget(cfg, st0, cmds, schedule[..n], i);
      RunKeepsInv(cfg, st0, cmds, schedule[..n]);
      StepIsInBudget(cfg, s, schedule[n], i, OwnSteps(schedule[..n], i));
    }
  }

  lemma StepIsInBudget(cfg: Config, s: Sys, k: nat, i: nat, spent: nat)
    requires i < |s.clients| && ClientsOk(cfg, s) && InBudget(cfg, s.clients[i], spent)
    ensures var s' := Step(cfg, s, k);
            && i < |s'.clients| && s'.clients[i].cmd == s.clients[i].cmd
            && InBudget(cfg, s'.clients[i], if k == i then spent + 1 else spent)
  {
    if k < |s.clients| {
      StepMoves(cfg, s, k);
      if k == i && !s.clients[i].pc.Done? {
        assert ClientOk(cfg, s.store.log, s.clients[i]);
        OwnStepUsesOne(cfg, s.clients[i], s.store);
      }
    }
  }

  /**
   * Nobody is starved by the retry loop: a client that has taken its lookup's and all its attempts' store calls is
   * finished, in every interleaving.
   */
  lemma EveryCommandFinishes(cfg: Config, st0: StoreState, cmds: seq<Command>, schedule: seq<nat>, i: nat)
    requires ValidStore(st0) && i < |cmds| && OwnSteps(schedule, i) >= MostSteps(cfg, cmds[i])
    ensures var s := Run(cfg, Init(st0, cmds), schedule);
            i < |s.clients| && s.clients[i].pc.Done?
  {
    var s := Run(cfg, Init(st0, cmds), schedule);
    RunIsInBudget(cfg, st0, cmds, schedule, i);
    RunKeepsInv(cfg, st0, cmds, schedule);
    assert ClientOk(cfg, s.store.log, s.clients[i]);
    if !s.clients[i].pc.Done? {
      OwnStepUsesOne(cfg, s.clients[i], s.store);
    }
  }

  /** A started client's `since` is the length the log had when it took its first step. */
  lemma {:induction false} SinceIsTheFirstStep(
    cfg: Config, st0: StoreState, cmds: seq<Command>, schedule: seq<nat>, i: nat) returns (n: nat)
    requires i < |cmds|
    requires var s := Run(cfg, Init(st0, cmds), schedule); i < |s.clients| && !s.clients[i].pc.Start?
    ensures n < |schedule| && schedule[n] == i
    ensures var before := Run(cfg, Init(st0, cmds), schedule[..n]);
            && i < |before.clients| && before.clients[i].pc.Start?
            && |before.store.log| == Run(cfg, Init(st0, cmds), schedule).clients[i].since
    decreases |schedule|
  {
    var m := |schedule| - 1;
    RunExtends(cfg, Init(st0, cmds), schedule[..m], 0);
    var before := Run(cfg, Init(st0, cmds), schedule[..m]);
    SinceMoves(cfg, before, schedule[m], i);
    if before.clients[i].pc.Start? {
      n := m;
    } else {
      n := SinceIsTheFirstStep(cfg, st0, cmds, schedule[..m], i);
      assert schedule[..m][..n] == schedule[..n];
    }
  }

  lemma SinceMoves(cfg: Config, s: Sys, k: nat, i: nat)
    requires i < |s.clients|
    ensures i < |Step(cfg, s, k).clients|
    ensures !s.clients[i].pc.Start? ==> Step(cfg, s, k).clients[i].since == s.clients[i].since
    ensures s.clients[i].pc.Start? && !Step(cfg, s, k).clients[i].pc.Start? ==>
              k == i && Step(cfg, s, k).clients[i].since == |s.store.log|
  {
  }
}
