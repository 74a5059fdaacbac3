/** The log is the starting log followed by one block per committed command, in commit order. */
module History {
  import opened Events
  import opened Aggregates
  import opened EventLog
  import opened Commands
  import opened Protocol
  import opened ClientInvariant

  /** Arguments no decision rule lets through unless they are these. */
  predicate Sane(cmd: Command) {
    match cmd
    case OpenAccount(_, b, _) => b >= 0
    case Deposit(_, a, _, _) => a > 0
    case Withdraw(_, a, _, _) => a > 0
    case Transfer(from, to, a, _) => a > 0 && from != to
    case AdjustInventory(_, d, _, _) => d != 0
    case ReserveStock(_, q, _, _) => q > 0
    case ReleaseStock(_, q, _, _) => q > 0
  }

  predicate EventIs(e: Event, k: StreamKey, p: Payload, key: string) {
    e.stream == k && e.payload == p && e.dedupeKey == key
  }

  /** The block a command writes: one event, or a transfer's two adjacent legs. */
  predicate BlockIs(log: seq<Event>, cmd: Command, at: nat) {
    && at + cmd.Size() <= |log|
    && EventIs(log[at], cmd.Primary(), cmd.FirstPayload(), cmd.dedupeKey)
    && (cmd.Transfer? ==> EventIs(log[at + 1], cmd.Last(), cmd.LastPayload(), cmd.dedupeKey))
  }

  predicate CommitOk(s: Sys, c: Commit) {
    && Sane(c.cmd)
    && c.client < |s.clients|
    && s.clients[c.client].cmd == c.cmd
    && s.clients[c.client].since <= c.at
    && BlockIs(s.store.log, c.cmd, c.at)
    && s.clients[c.client].pc == Done(Applied(s.store.log[c.at].version), c.at)
    && (c.cmd.dedupeKey != "" ==>
          c.cmd.dedupeKey in s.store.dedupe &&
          s.store.dedupe[c.cmd.dedupeKey] == s.store.log[c.at..c.at + c.cmd.Size()])
  }

  /** Where commit j starts, or the end of the log. */
  function StartOf(s: Sys, j: nat): nat {
    if j < |s.hist| then s.hist[j].at else |s.store.log|
  }

  predicate InHist(hist: seq<Commit>, client: nat) {
    exists j :: 0 <= j < |hist| && hist[j].client == client
  }

  predicate KeyInHist(hist: seq<Commit>, key: string) {
    exists j :: 0 <= j < |hist| && hist[j].cmd.dedupeKey == key
  }

  predicate CommitsOk(s: Sys) {
    forall j :: 0 <= j < |s.hist| ==> CommitOk(s, s.hist[j])
  }

  /** The blocks follow the starting log without gaps and fill the log to its end. */
  predicate Tiled(st0: StoreState, s: Sys) {
    && StartOf(s, 0) == |st0.log|
    && forall j :: 0 <= j < |s.hist| ==> Followed(s, j)
  }

  /** Block j ends where the next one starts, the last one at the end of the log. */
  predicate Followed(s: Sys, j: nat)
    requires j < |s.hist|
  {
    StartOf(s, j + 1) == s.hist[j].at + s.hist[j].cmd.Size()
  }

  predicate DistinctClients(hist: seq<Commit>) {
    forall i, j :: 0 <= i < j < |hist| ==> hist[i].client != hist[j].client
  }

  ghost predicate HistOk(st0: StoreState, s: Sys) {
    && st0.log <= s.store.log
    && CommitsOk(s)
    && Tiled(st0, s)
    && DistinctClients(s.hist)
    && (forall c :: 0 <= c < |s.clients| && IsApplied(s.clients[c]) ==> InHist(s.hist, c))
  }

  /** The dedupe index holds what was there at the start and one entry per committed non-empty key. */
  ghost predicate KeysOk(st0: StoreState, s: Sys) {
    && StartKeysKept(st0, s.store)
    && KeysAreCommitted(st0, s.store, s.hist)
    && CommittedKeysAreNew(st0, s.hist)
    && CommittedKeysDiffer(s.hist)
  }

  ghost predicate StartKeysKept(st0: StoreState, st: StoreState) {
    forall key :: key in st0.dedupe ==> key in st.dedupe && st.dedupe[key] == st0.dedupe[key]
  }

  ghost predicate KeysAreCommitted(st0: StoreState, st: StoreState, hist: seq<Commit>) {
    forall key :: key in st.dedupe ==> key in st0.dedupe || KeyInHist(hist, key)
  }

  ghost predicate CommittedKeysAreNew(st0: StoreState, hist: seq<Commit>) {
    forall j :: 0 <= j < |hist| ==> hist[j].cmd.dedupeKey == "" || hist[j].cmd.dedupeKey !in st0.dedupe
  }

  predicate CommittedKeysDiffer(hist: seq<Commit>) {
    forall i, j :: 0 <= i < j < |hist| && hist[i].cmd.dedupeKey != "" ==>
      hist[i].cmd.dedupeKey != hist[j].cmd.dedupeKey
  }

  ghost predicate Inv(cfg: Config, st0: StoreState, s: Sys) {
    ValidStore(s.store) && ClientsOk(cfg, s) && HistOk(st0, s) && KeysOk(st0, s)
  }

  lemma PlannedIsSane(cfg: Config, cmd: Command, logA: seq<Event>, logB: seq<Event>)
    requires Planned(cfg, cmd, logA, logB).Success? && !cmd.SameAccount()
    ensures Sane(cmd)
  {
  }

  /** The events a commit stamps are the command's block. */
  lemma CommitWritesBlock(cfg: Config, s: Sys, i: nat)
    requires i < |s.clients| && ValidStore(s.store) && ClientsOk(cfg, s) && s.clients[i].pc.Appending?
    ensures Sane(s.clients[i].cmd)
    ensures |Produced(s, i)| == s.clients[i].cmd.Size()
    ensures BlockIs(s.store.log + Produced(s, i), s.clients[i].cmd, |s.store.log|)
    ensures s.clients[i].since <= |s.store.log|
  {
    var cl, log := s.clients[i], s.store.log;
    assert ClientOk(cfg, log, cl);
    PrefixIsValid(log, cl.pc.readAt);
    PrefixIsValid(log, cl.pc.readLastAt);
    PlannedBatchShape(cfg, cl.cmd, log[..cl.pc.readAt], log[..cl.pc.readLastAt]);
    PlannedIsSane(cfg, cl.cmd, log[..cl.pc.readAt], log[..cl.pc.readLastAt]);
  }

  /** A landing writes a block that some sane command asked for. */
  predicate LandsBlock(s: Sys, s': Sys, i: nat, es: seq<Event>) {
    && Lands(s, s', i, es)
    && s.clients[i].since <= |s.store.log|
    && Sane(s.clients[i].cmd)
    && |es| == s.clients[i].cmd.Size()
    && BlockIs(s.store.log + es, s.clients[i].cmd, |s.store.log|)
  }

  lemma CommitOkGrows(s: Sys, s': Sys, c: Commit)
    requires CommitOk(s, c)
    requires s.store.log <= s'.store.log && |s'.clients| == |s.clients|
    requires s'.clients[c.client] == s.clients[c.client]
    requires c.cmd.dedupeKey in s.store.dedupe ==>
               c.cmd.dedupeKey in s'.store.dedupe &&
               s'.store.dedupe[c.cmd.dedupeKey] == s.store.dedupe[c.cmd.dedupeKey]
    ensures CommitOk(s', c)
  {
    assert s'.store.log[c.at..c.at + c.cmd.Size()] == s.store.log[c.at..c.at + c.cmd.Size()];
  }

  /** A finished client takes no further step, so its commit stays as it is. */
  lemma OldCommitOk(s: Sys, s': Sys, i: nat, es: seq<Event>, c: Commit)
    requires Stutters(s, s', i) || Lands(s, s', i, es)
    requires CommitOk(s, c)
    ensures CommitOk(s', c)
    ensures Lands(s, s', i, es) ==> c.client != i
  {
    CommitOkGrows(s, s', c);
  }

  lemma NewCommitOk(s: Sys, s': Sys, i: nat, es: seq<Event>)
    requires LandsBlock(s, s', i, es)
    ensures CommitOk(s', Commit(i, s.clients[i].cmd, |s.store.log|))
  {
    var log := s.store.log;
    assert (log + es)[|log|..|log| + |es|] == es;
  }

  lemma LandingKeepsCommitsOk(s: Sys, s': Sys, i: nat, es: seq<Event>)
    requires CommitsOk(s) && LandsBlock(s, s', i, es)
    ensures CommitsOk(s')
    ensures DistinctClients(s.hist) ==> DistinctClients(s'.hist)
  {
    forall j | 0 <= j < |s'.hist| ensures CommitOk(s', s'.hist[j]) && (j < |s.hist| ==> s'.hist[j].client != i) {
      if j < |s.hist| {
        OldCommitOk(s, s', i, es, s.hist[j]);
      } else {
        NewCommitOk(s, s', i, es);
      }
    }
  }

  lemma LandingKeepsTiled(st0: StoreState, s: Sys, s': Sys, i: nat, es: seq<Event>)
    requires Tiled(st0, s) && LandsBlock(s, s', i, es)
    ensures Tiled(st0, s')
  {
    forall j | 0 <= j < |s'.hist| ensures Followed(s', j) {
      if j < |s.hist| {
        assert Followed(s, j);
      }
    }
  }

  lemma LandingKeepsHistOk(st0: StoreState, s: Sys, s': Sys, i: nat, es: seq<Event>)
    requires HistOk(st0, s) && LandsBlock(s, s', i, es)
    ensures HistOk(st0, s')
  {
    LandingKeepsCommitsOk(s, s', i, es);
    LandingKeepsTiled(st0, s, s', i, es);
    forall c | 0 <= c < |s'.clients| && IsApplied(s'.clients[c]) ensures InHist(s'.hist, c) {
      if c == i {
        assert s'.hist[|s.hist|].client == c;
      } else {
        var j :| 0 <= j < |s.hist| && s.hist[j].client == c;
        assert s'.hist[j].client == c;
      }
    }
  }

  lemma StutterKeepsHistOk(st0: StoreState, s: Sys, s': Sys, i: nat)
    requires HistOk(st0, s) && Stutters(s, s', i)
    ensures HistOk(st0, s')
  {
    forall j | 0 <= j < |s'.hist| ensures CommitOk(s', s'.hist[j]) {
      OldCommitOk(s, s', i, [], s.hist[j]);
    }
    assert Tiled(st0, s') by {
      forall j | 0 <= j < |s'.hist| ensures Followed(s', j) {
        assert Followed(s, j);
      }
    }
    forall c | 0 <= c < |s'.clients| && IsApplied(s'.clients[c]) ensures InHist(s'.hist, c) {
      assert IsApplied(s.clients[c]);
    }
  }

  lemma LandingKeepsKeysAreCommitted(st0: StoreState, s: Sys, s': Sys, i: nat, es: seq<Event>)
    requires KeysAreCommitted(st0, s.store, s.hist) && Lands(s, s', i, es)
    ensures KeysAreCommitted(st0, s'.store, s'.hist)
  {
    var key := s.clients[i].cmd.dedupeKey;
    forall k | k in s'.store.dedupe ensures k in st0.dedupe || KeyInHist(s'.hist, k) {
      if k in s.store.dedupe {
        if k !in st0.dedupe {
          assert KeyInHist(s.hist, k);
          var j :| 0 <= j < |s.hist| && s.hist[j].cmd.dedupeKey == k;
          assert s'.hist[j].cmd.dedupeKey == k;
        }
      } else {
        assert s'.hist[|s.hist|].cmd.dedupeKey == k;
      }
    }
  }

  lemma LandingKeepsKeysDiffer(s: Sys, s': Sys, i: nat, es: seq<Event>)
    requires CommittedKeysDiffer(s.hist) && Lands(s, s', i, es)
    requires forall j :: 0 <= j < |s.hist| ==> CommitOk(s, s.hist[j])
    ensures CommittedKeysDiffer(s'.hist)
  {
    var key := s.clients[i].cmd.dedupeKey;
    forall j | 0 <= j < |s.hist| && s.hist[j].cmd.dedupeKey != "" ensures s.hist[j].cmd.dedupeKey != key {
      assert CommitOk(s, s.hist[j]);
    }
  }

  lemma LandingKeepsKeysOk(st0: StoreState, s: Sys, s': Sys, i: nat, es: seq<Event>)
    requires KeysOk(st0, s) && Lands(s, s', i, es)
    requires forall j :: 0 <= j < |s.hist| ==> CommitOk(s, s.hist[j])
    ensures KeysOk(st0, s')
  {
    LandingKeepsKeysAreCommitted(st0, s, s', i, es);
    LandingKeepsKeysDiffer(s, s', i, es);
  }

  lemma StepLandsBlock(cfg: Config, s: Sys, i: nat)
    requires i < |s.clients| && ValidStore(s.store) && ClientsOk(cfg, s) && Commits(s, i)
    ensures LandsBlock(s, Step(cfg, s, i), i, Produced(s, i))
  {
    StepMoves(cfg, s, i);
    CommitWritesBlock(cfg, s, i);
  }

  lemma StepKeepsInv(cfg: Config, st0: StoreState, s: Sys, i: nat)
    requires Inv(cfg, st0, s)
    ensures Inv(cfg, st0, Step(cfg, s, i))
  {
    if i < |s.clients| {
      StepKeepsClientsOk(cfg, s, i);
      StepMoves(cfg, s, i);
      var s' := Step(cfg, s, i);
      if Commits(s, i) {
        StepLandsBlock(cfg, s, i);
        LandingKeepsHistOk(st0, s, s', i, Produced(s, i));
        LandingKeepsKeysOk(st0, s, s', i, Produced(s, i));
        AppendKeepsValidStore(s.store, s.clients[i].cmd.dedupeKey, s.clients[i].pc.decided.batch);
      } else {
        StutterKeepsHistOk(st0, s, s', i);
      }
    }
  }

  /** Every state of every interleaved run satisfies the invariant, with any pins and in either arithmetic. */
  lemma {:induction false} RunKeepsInv(cfg: Config, st0: StoreState, cmds: seq<Command>, schedule: seq<nat>)
    requires ValidStore(st0)
    ensures Inv(cfg, st0, Run(cfg, Init(st0, cmds), schedule))
    decreases |schedule|
  {
    if schedule != [] {
      var n := |schedule| - 1;
      RunKeepsInv(cfg, st0, cmds, schedule[..n]);
      StepKeepsInv(cfg, st0, Run(cfg, Init(st0, cmds), schedule[..n]), schedule[n]);
    }
  }

  /** Running more steps keeps the commands, and only appends to the log and to the history. */
  lemma {:induction false} RunExtends(cfg: Config, s: Sys, schedule: seq<nat>, n: nat)
    requires n <= |schedule|
    ensures Run(cfg, s, schedule[..n]).store.log <= Run(cfg, s, schedule).store.log
    ensures Run(cfg, s, schedule[..n]).hist <= Run(cfg, s, schedule).hist
    ensures |Run(cfg, s, schedule).clients| == |s.clients|
    ensures forall i :: 0 <= i < |s.clients| ==> Run(cfg, s, schedule).clients[i].cmd == s.clients[i].cmd
    ensures forall key :: key in Run(cfg, s, schedule[..n]).store.dedupe ==> key in Run(cfg, s, schedule).store.dedupe
    decreases |schedule|
  {
    if n == |schedule| {
      assert schedule[..n] == schedule;
      if n > 0 {
        RunExtends(cfg, s, schedule[..n - 1], n - 1);
      }
    } else {
      var init := schedule[..|schedule| - 1];
      assert init[..n] == schedule[..n];
      RunExtends(cfg, s, init, n);
    }
  }
}
