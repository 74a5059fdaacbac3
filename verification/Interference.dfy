/**
 * One client seen from inside: its own store calls, and before each of them whatever the others have
 * appended meanwhile. Every client of every interleaved run is such a client.
 */
module Interference {
  import opened Events
  import opened Aggregates
  import opened EventLog
  import opened Commands
  import opened Protocol

  function Interfered(st: StoreState, calls: seq<Call>): StoreState {
    if calls == [] then st
    else
      var last := calls[|calls| - 1];
      AppendTo(Interfered(st, calls[..|calls| - 1]), last.dedupeKey, last.batch).1
  }

  /** What the others append just before the client's own store call number n. */
  function RoundAt(rounds: seq<seq<Call>>, n: nat): seq<Call> {
    if n < |rounds| then rounds[n] else []
  }

  /** The client and the store after n steps of the client. */
  function Drive(cfg: Config, cl: Client, st: StoreState, rounds: seq<seq<Call>>, n: nat): (Client, StoreState) {
    if n == 0 then (cl, st)
    else
      var (cl', st') := Drive(cfg, cl, st, rounds, n - 1);
      var now := Interfered(st', RoundAt(rounds, n - 1));
      (ClientStep(cfg, cl', now), NextStore(cl', now))
  }

  /** What client i has seen of the others: a round before each of its own steps, and what came since. */
  datatype Seen = Seen(rounds: seq<seq<Call>>, pending: seq<Call>)

  function SeenAfter(seen: Seen, s: Sys, i: nat, k: nat): Seen {
    if k == i then Seen(seen.rounds + [seen.pending], [])
    else if k < |s.clients| && s.clients[k].pc.Appending? then
      seen.(pending := seen.pending + [Call(s.clients[k].cmd.dedupeKey, s.clients[k].pc.decided.batch)])
    else seen
  }

  function SeenBy(cfg: Config, s: Sys, schedule: seq<nat>, i: nat): Seen {
    if schedule == [] then Seen([], [])
    else
      var n := |schedule| - 1;
      SeenAfter(SeenBy(cfg, s, schedule[..n], i), Run(cfg, s, schedule[..n]), i, schedule[n])
  }

  /** Rounds that come later do not matter. */
  lemma {:induction false} LaterRounds(
    cfg: Config, cl: Client, st: StoreState, rounds: seq<seq<Call>>, more: seq<seq<Call>>, n: nat)
    requires n <= |rounds|
    ensures Drive(cfg, cl, st, rounds + more, n) == Drive(cfg, cl, st, rounds, n)
    decreases n
  {
    if n > 0 {
      LaterRounds(cfg, cl, st, rounds, more, n - 1);
    }
  }

  lemma OneMoreRound(cfg: Config, cl: Client, st: StoreState, seen: Seen)
    ensures var (cl', st') := Drive(cfg, cl, st, seen.rounds, |seen.rounds|);
            var now := Interfered(st', seen.pending);
            Drive(cfg, cl, st, seen.rounds + [seen.pending], |seen.rounds| + 1) ==
            (ClientStep(cfg, cl', now), NextStore(cl', now))
  {
    LaterRounds(cfg, cl, st, seen.rounds, [seen.pending], |seen.rounds|);
  }

  lemma OneMoreCall(st: StoreState, calls: seq<Call>, call: Call)
    ensures Interfered(st, calls + [call]) == AppendTo(Interfered(st, calls), call.dedupeKey, call.batch).1
  {
    assert (calls + [call])[..|calls|] == calls;
  }

  /** The driven client that has seen `seen` stands where client i of s stands, and so does the store. */
  predicate SeesAll(cfg: Config, cl0: Client, st0: StoreState, seen: Seen, s: Sys, i: nat) {
    var (cl, st) := Drive(cfg, cl0, st0, seen.rounds, |seen.rounds|);
    i < |s.clients| && s.clients[i] == cl && s.store == Interfered(st, seen.pending)
  }

  lemma SeesOwnStep(cfg: Config, cl0: Client, st0: StoreState, seen: Seen, s: Sys, i: nat)
    requires SeesAll(cfg, cl0, st0, seen, s, i)
    ensures SeesAll(cfg, cl0, st0, SeenAfter(seen, s, i, i), Step(cfg, s, i), i)
  {
    OneMoreRound(cfg, cl0, st0, seen);
  }

  lemma SeesOthersStep(cfg: Config, cl0: Client, st0: StoreState, seen: Seen, s: Sys, i: nat, k: nat)
    requires SeesAll(cfg, cl0, st0, seen, s, i) && k != i
    ensures SeesAll(cfg, cl0, st0, SeenAfter(seen, s, i, k), Step(cfg, s, k), i)
  {
    if k < |s.clients| && s.clients[k].pc.Appending? {
      OneMoreCall(Drive(cfg, cl0, st0, seen.rounds, |seen.rounds|).1, seen.pending,
                  Call(s.clients[k].cmd.dedupeKey, s.clients[k].pc.decided.batch));
    }
  }

  /** In every interleaved run, client i behaves as the driven client that sees what the others append. */
  lemma {:induction false} RunIsDrive(cfg: Config, s: Sys, schedule: seq<nat>, i: nat)
    requires i < |s.clients|
    ensures SeesAll(cfg, s.clients[i], s.store, SeenBy(cfg, s, schedule, i), Run(cfg, s, schedule), i)
    decreases |schedule|
  {
    if schedule != [] {
      var n := |schedule| - 1;
      RunIsDrive(cfg, s, schedule[..n], i);
      var before, seen := Run(cfg, s, schedule[..n]), SeenBy(cfg, s, schedule[..n], i);
      if schedule[n] == i {
        SeesOwnStep(cfg, s.clients[i], s.store, seen, before, i);
      } else {
        SeesOthersStep(cfg, s.clients[i], s.store, seen, before, i, schedule[n]);
      }
    }
  }

  /** The client's program counter after n of its own steps. */
  predicate StandsAt(cfg: Config, cl: Client, st: StoreState, rounds: seq<seq<Call>>, n: nat, pc: Pc) {
    Drive(cfg, cl, st, rounds, n).0.pc == pc
  }

  lemma DoneOneMore(cfg: Config, cl: Client, st: StoreState, rounds: seq<seq<Call>>, n: nat, pc: Pc)
    requires pc.Done? && StandsAt(cfg, cl, st, rounds, n, pc)
    ensures StandsAt(cfg, cl, st, rounds, n + 1, pc)
  {
  }

  /** A finished client stays as it is. */
  lemma {:induction false} DoneIsFinal(
    cfg: Config, cl: Client, st: StoreState, rounds: seq<seq<Call>>, m: nat, n: nat, pc: Pc)
    requires m <= n && pc.Done? && StandsAt(cfg, cl, st, rounds, m, pc)
    ensures StandsAt(cfg, cl, st, rounds, n, pc)
    decreases n - m
  {
    if m < n {
      DoneOneMore(cfg, cl, st, rounds, m, pc);
      DoneIsFinal(cfg, cl, st, rounds, m + 1, n, pc);
    }
  }

  // --- What a method that executes a command has to show ---

  /** After n store calls the command is at pc, and the store is st. */
  predicate At(cfg: Config, cmd: Command, st0: StoreState, rounds: seq<seq<Call>>, n: nat, pc: Pc, st: StoreState) {
    var (cl, st') := Drive(cfg, Client(cmd, Start, 0), st0, rounds, n);
    cl.cmd == cmd && cl.pc == pc && st' == st
  }

  lemma NextAt(cfg: Config, cmd: Command, st0: StoreState, rounds: seq<seq<Call>>, n: nat, pc: Pc, st: StoreState)
    requires At(cfg, cmd, st0, rounds, n, pc, st)
    ensures var now := Interfered(st, RoundAt(rounds, n));
            At(cfg, cmd, st0, rounds, n + 1, NextPc(cfg, Client(cmd, pc, 0), now), NextStore(Client(cmd, pc, 0), now))
  {
  }

  /** The command answers `outcome` after n store calls and leaves the store st. */
  predicate Answers(
    cfg: Config, cmd: Command, st0: StoreState, rounds: seq<seq<Call>>, n: nat, outcome: Outcome, st: StoreState)
  {
    var (cl, st') := Drive(cfg, Client(cmd, Start, 0), st0, rounds, n);
    cl.pc.Done? && cl.pc.outcome == outcome && st' == st
  }

  /** A method that answers on what client i of a run has seen gives the answer client i gives in the run. */
  lemma AnswersAsInTheRun(
    cfg: Config, st0: StoreState, cmds: seq<Command>, schedule: seq<nat>, i: nat,
    n: nat, outcome: Outcome, st: StoreState)
    requires i < |cmds|
    requires Answers(cfg, cmds[i], st0, SeenBy(cfg, Init(st0, cmds), schedule, i).rounds, n, outcome, st)
    ensures var s := Run(cfg, Init(st0, cmds), schedule);
            && i < |s.clients|
            && (s.clients[i].pc.Done? ==> s.clients[i].pc.outcome == outcome)
  {
    var s0 := Init(st0, cmds);
    RunIsDrive(cfg, s0, schedule, i);
    var rounds := SeenBy(cfg, s0, schedule, i).rounds;
    var m := |rounds|;
    var last := if m <= n then n else m;
    if Run(cfg, s0, schedule).clients[i].pc.Done? {
      DoneIsFinal(cfg, s0.clients[i], st0, rounds, m, last, Run(cfg, s0, schedule).clients[i].pc);
      DoneIsFinal(cfg, s0.clients[i], st0, rounds, n, last, Drive(cfg, s0.clients[i], st0, rounds, n).0.pc);
    }
  }
}
