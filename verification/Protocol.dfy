/**
 * Any number of commands running concurrently over one event store. Each client has a program
 * counter; every step is one store call together with the local computation that follows it. A
 * schedule is any sequence of client indices, so a statement about all schedules is a statement
 * about all interleavings.
 */
module Protocol {
  import opened Events
  import opened Aggregates
  import opened EventLog
  import opened Commands

  /**
   * `readAt` is the length of the log when the deciding attempt first loaded, `readLastAt` when it
   * loaded the last time. They record history and never influence a step.
   */
  datatype Pc =
    | Start
    | Loading(attempt: nat)
    | LoadingLast(attempt: nat, from: AccountState, readAt: nat)
    | Appending(attempt: nat, decided: Attempt, readAt: nat, readLastAt: nat)
    | Done(outcome: Outcome, readAt: nat)

  /** `since` is the length of the log when the client took its first step. */
  datatype Client = Client(cmd: Command, pc: Pc, since: nat)

  function AfterDecision(cl: Client, t: nat, r: Result<Attempt, Outcome>, readAt: nat, readLastAt: nat): Pc {
    match r
    case Success(a) => Appending(t, a, readAt, readLastAt)
    case Failure(o) => Done(o, readAt)
  }

  function AfterAppend(cfg: Config, cl: Client, t: nat, o: AppendOutcome, now: nat): Pc {
    match o
    case Appended(es) => Done(Applied(FirstVersion(es)), now)
    case Duplicate(es) => Done(Replayed(ReplayedVersion(es, cl.cmd.Primary())), now)
    case Conflict =>
      if t < PlanOf(cfg, cl.cmd).maxAttempts - 1 then Loading(t + 1) else Done(Conflicted, now)
  }

  /** The client's next program counter after its next store call on st. */
  function NextPc(cfg: Config, cl: Client, st: StoreState): Pc {
    var now := |st.log|;
    match cl.pc
    case Start =>
      if cl.cmd.SameAccount() then Done(Rejected(SameAccountTransfer), now)
      else if KeyUsed(st, cl.cmd.dedupeKey) then
        Done(Replayed(ReplayedVersion(st.dedupe[cl.cmd.dedupeKey], cl.cmd.Primary())), now)
      else Loading(0)
    case Loading(t) =>
      if cl.cmd.Transfer? then
        match FoldAccount(cfg.arith, StreamOf(st.log, cl.cmd.Primary()))
        case Success(from) => LoadingLast(t, from, now)
        case Failure(err) => Done(LoadFailed(err), now)
      else AfterDecision(cl, t, DecideSingle(cfg, cl.cmd, st.log), now, now)
    case LoadingLast(t, from, readAt) =>
      if cl.cmd.Transfer? then
        match FoldAccount(cfg.arith, StreamOf(st.log, cl.cmd.Last()))
        case Success(to) => AfterDecision(cl, t, DecideTransfer(cl.cmd, from, to), readAt, now)
        case Failure(err) => Done(LoadFailed(err), readAt)
      else cl.pc
    case Appending(t, a, _, _) =>
      AfterAppend(cfg, cl, t, AppendTo(st, cl.cmd.dedupeKey, a.batch).0, now)
    case Done(_, _) => cl.pc
  }

  function NextStore(cl: Client, st: StoreState): StoreState {
    if cl.pc.Appending? then AppendTo(st, cl.cmd.dedupeKey, cl.pc.decided.batch).1 else st
  }

  function ClientStep(cfg: Config, cl: Client, st: StoreState): Client {
    Client(cl.cmd, NextPc(cfg, cl, st), if cl.pc.Start? then |st.log| else cl.since)
  }

  /** History: client `client` appended its batch when the log had length `at`. */
  datatype Commit = Commit(client: nat, cmd: Command, at: nat)

  datatype Sys = Sys(store: StoreState, clients: seq<Client>, hist: seq<Commit>)

  function Init(st: StoreState, cmds: seq<Command>): Sys {
    Sys(st, seq(|cmds|, i requires 0 <= i < |cmds| => Client(cmds[i], Start, 0)), [])
  }

  /** Client i's next step appends its batch. */
  predicate Commits(s: Sys, i: nat)
    requires i < |s.clients|
  {
    && s.clients[i].pc.Appending?
    && AppendTo(s.store, s.clients[i].cmd.dedupeKey, s.clients[i].pc.decided.batch).0.Appended?
  }

  /** One step of client i; an index that is no client's changes nothing. */
  function Step(cfg: Config, s: Sys, i: nat): Sys {
    if i >= |s.clients| then s
    else
      Sys(NextStore(s.clients[i], s.store),
          s.clients[i := ClientStep(cfg, s.clients[i], s.store)],
          if Commits(s, i) then s.hist + [Commit(i, s.clients[i].cmd, |s.store.log|)] else s.hist)
  }

  function Run(cfg: Config, s: Sys, schedule: seq<nat>): Sys {
    if schedule == [] then s
    else Step(cfg, Run(cfg, s, schedule[..|schedule| - 1]), schedule[|schedule| - 1])
  }

  /** A pinned client that is about to append has loaded at least the version it pins. */
  predicate PinSafe(cfg: Config, cl: Client) {
    cl.pc.Appending? && PlanOf(cfg, cl.cmd).pinned ==> PlanOf(cfg, cl.cmd).pinnedValue <= cl.pc.decided.loadedVersion
  }

  predicate AllPinSafe(cfg: Config, s: Sys) {
    forall i :: 0 <= i < |s.clients| ==> PinSafe(cfg, s.clients[i])
  }

  /** Every state the run goes through is pin-safe. */
  predicate PinSafeRun(cfg: Config, s: Sys, schedule: seq<nat>) {
    && AllPinSafe(cfg, Run(cfg, s, schedule))
    && (schedule != [] ==> PinSafeRun(cfg, s, schedule[..|schedule| - 1]))
  }
}
