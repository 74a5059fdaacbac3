/** What every client knows about the log, at every point of every interleaving. */
module ClientInvariant {
  import opened Events
  import opened Int64
  import opened Aggregates
  import opened EventLog
  import opened Commands
  import opened Protocol

  ghost predicate ClientOk(cfg: Config, log: seq<Event>, cl: Client) {
    match cl.pc
    case Start => true
    case Loading(t) =>
      cl.since <= |log| && t < PlanOf(cfg, cl.cmd).maxAttempts && !cl.cmd.SameAccount()
    case LoadingLast(t, from, r) =>
      && t < PlanOf(cfg, cl.cmd).maxAttempts && cl.cmd.Transfer? && !cl.cmd.SameAccount()
      && cl.since <= r <= |log|
      && FoldAccount(cfg.arith, StreamOf(log[..r], cl.cmd.Primary())) == Success(from)
    case Appending(t, a, r, rl) =>
      && t < PlanOf(cfg, cl.cmd).maxAttempts && !cl.cmd.SameAccount()
      && cl.since <= r <= rl <= |log|
      && (!cl.cmd.Transfer? ==> r == rl)
      && Planned(cfg, cl.cmd, log[..r], log[..rl]) == Success(a)
    case Done(o, r) =>
      && cl.since <= r <= |log|
      && (o.Rejected? || (o.LoadFailed? && !cl.cmd.Transfer?) ==> Intent(cfg, cl.cmd, log[..r]) == Failure(o))
  }

  lemma ClientOkGrows(cfg: Config, log: seq<Event>, more: seq<Event>, cl: Client)
    requires ClientOk(cfg, log, cl)
    ensures ClientOk(cfg, log + more, cl)
  {
    match cl.pc {
      case Start =>
      case Loading(t) =>
      case LoadingLast(t, from, r) => assert (log + more)[..r] == log[..r];
      case Appending(t, a, r, rl) => assert (log + more)[..r] == log[..r] && (log + more)[..rl] == log[..rl];
      case Done(o, r) => assert (log + more)[..r] == log[..r];
    }
  }

  /** An account that was open stays open, and a stream that replays has prefixes that replay. */
  lemma {:induction false} OpenIsForever(arith: Arith, events: seq<Event>, n: nat)
    requires n <= |events| && FoldAccount(arith, events).Success?
    ensures FoldAccount(arith, events[..n]).Success?
    ensures FoldAccount(arith, events[..n]).value.isOpen ==> FoldAccount(arith, events).value.isOpen
    decreases |events|
  {
    if n == |events| {
      assert events[..n] == events;
    } else {
      var init := events[..|events| - 1];
      assert init[..n] == events[..n];
      OpenIsForever(arith, init, n);
    }
  }

  /**
   * A transfer that is refused after its two loads would have been refused, for the same reason, had
   * both loads happened at the time of the first one.
   */
  lemma TransferRejectionIsAtFirstLoad(cfg: Config, cmd: Command, log: seq<Event>, r: nat)
    requires r <= |log| && cmd.Transfer? && !cmd.SameAccount()
    requires Planned(cfg, cmd, log[..r], log).Failure? && Planned(cfg, cmd, log[..r], log).error.Rejected?
    ensures Intent(cfg, cmd, log[..r]) == Planned(cfg, cmd, log[..r], log)
  {
    var now, then' := StreamOf(log, cmd.Last()), StreamOf(log[..r], cmd.Last());
    StreamGrows(log, r, cmd.Last());
    assert now[..|then'|] == then';
    OpenIsForever(cfg.arith, now, |then'|);
  }

  lemma LoadKeepsOk(cfg: Config, cl: Client, st: StoreState)
    requires ClientOk(cfg, st.log, cl) && cl.pc.Loading?
    ensures ClientOk(cfg, st.log, ClientStep(cfg, cl, st))
  {
    assert st.log[..|st.log|] == st.log;
  }

  lemma LoadLastKeepsOk(cfg: Config, cl: Client, st: StoreState)
    requires ClientOk(cfg, st.log, cl) && cl.pc.LoadingLast?
    ensures ClientOk(cfg, st.log, ClientStep(cfg, cl, st))
  {
    assert st.log[..|st.log|] == st.log;
    var r := cl.pc.readAt;
    var p := Planned(cfg, cl.cmd, st.log[..r], st.log);
    if p.Failure? && p.error.Rejected? {
      TransferRejectionIsAtFirstLoad(cfg, cl.cmd, st.log, r);
    }
  }

  lemma ClientStepKeepsOk(cfg: Config, cl: Client, st: StoreState)
    requires ClientOk(cfg, st.log, cl)
    ensures ClientOk(cfg, NextStore(cl, st).log, ClientStep(cfg, cl, st))
  {
    match cl.pc {
      case Start => assert st.log[..|st.log|] == st.log;
      case Loading(t) => LoadKeepsOk(cfg, cl, st);
      case LoadingLast(t, from, r) => LoadLastKeepsOk(cfg, cl, st);
      case Appending(t, a, r, rl) =>
      case Done(o, r) =>
    }
  }

  /** Where a step that is not an append can lead. */
  predicate ReadMove(pc: Pc, pc': Pc, now: nat) {
    match pc
    case Start => pc' == Loading(0) || (pc'.Done? && pc'.readAt == now && !pc'.outcome.Conflicted?)
    case Loading(t) =>
      || (pc'.LoadingLast? && pc'.attempt == t && pc'.readAt == now)
      || (pc'.Appending? && pc'.attempt == t && pc'.readAt == pc'.readLastAt == now)
      || (pc'.Done? && pc'.readAt == now && !pc'.outcome.Conflicted?)
    case LoadingLast(t, _, r) =>
      || pc' == pc
      || (pc'.Appending? && pc'.attempt == t && pc'.readAt == r && pc'.readLastAt == now)
      || (pc'.Done? && pc'.readAt == r && !pc'.outcome.Conflicted?)
    case Appending(_, _, _, _) => false
    case Done(_, _) => pc' == pc
  }

  lemma ReadMoves(cfg: Config, cl: Client, st: StoreState)
    requires !cl.pc.Appending?
    ensures ReadMove(cl.pc, NextPc(cfg, cl, st), |st.log|)
  {
  }

  /** Where an append that does not land leads: a replay, the next attempt, or the final conflict. */
  predicate MissedAppend(cfg: Config, cl: Client, st: StoreState, pc': Pc)
    requires cl.pc.Appending?
  {
    if KeyUsed(st, cl.cmd.dedupeKey) then pc'.Done? && pc'.outcome.Replayed? && pc'.readAt == |st.log|
    else if cl.pc.attempt < PlanOf(cfg, cl.cmd).maxAttempts - 1 then pc' == Loading(cl.pc.attempt + 1)
    else pc' == Done(Conflicted, |st.log|)
  }

  lemma AppendMisses(cfg: Config, cl: Client, st: StoreState)
    requires cl.pc.Appending? && !AppendTo(st, cl.cmd.dedupeKey, cl.pc.decided.batch).0.Appended?
    ensures MissedAppend(cfg, cl, st, NextPc(cfg, cl, st))
    ensures !KeyUsed(st, cl.cmd.dedupeKey) ==> !Admissible(st.log, cl.pc.decided.batch)
  {
  }

  ghost predicate ClientsOk(cfg: Config, s: Sys) {
    forall i :: 0 <= i < |s.clients| ==> ClientOk(cfg, s.store.log, s.clients[i])
  }

  /** From s to s', only client i moved, and no finished client did. */
  predicate OnlyClient(s: Sys, s': Sys, i: nat) {
    && i < |s.clients| == |s'.clients|
    && s'.clients == s.clients[i := s'.clients[i]]
    && s'.clients[i].cmd == s.clients[i].cmd
    && (!s.clients[i].pc.Start? ==> s'.clients[i].since == s.clients[i].since)
    && (s.clients[i].pc.Done? ==> s'.clients[i] == s.clients[i])
  }

  predicate IsApplied(cl: Client) {
    cl.pc.Done? && cl.pc.outcome.Applied?
  }

  /** A step that leaves the store alone and applies no command. */
  predicate Stutters(s: Sys, s': Sys, i: nat) {
    && OnlyClient(s, s', i)
    && s'.store == s.store && s'.hist == s.hist
    && (IsApplied(s'.clients[i]) ==> IsApplied(s.clients[i]))
  }

  /** A step in which client i's batch lands in the store as the events es. */
  predicate Lands(s: Sys, s': Sys, i: nat, es: seq<Event>) {
    && OnlyClient(s, s', i)
    && s.clients[i].pc.Appending?
    && !KeyUsed(s.store, s.clients[i].cmd.dedupeKey)
    && s'.store == Record(s.store, s.clients[i].cmd.dedupeKey, es)
    && s'.hist == s.hist + [Commit(i, s.clients[i].cmd, |s.store.log|)]
    && s'.clients[i].pc == Done(Applied(FirstVersion(es)), |s.store.log|)
  }

  function Produced(s: Sys, i: nat): seq<Event>
    requires i < |s.clients| && s.clients[i].pc.Appending?
  {
    Stamp(s.store.log, s.clients[i].cmd.dedupeKey, s.clients[i].pc.decided.batch)
  }

  /** Every step either stutters or lands the stepping client's stamped batch. */
  lemma StepMoves(cfg: Config, s: Sys, i: nat)
    requires i < |s.clients|
    ensures !Commits(s, i) ==> Stutters(s, Step(cfg, s, i), i)
    ensures Commits(s, i) ==>
              Lands(s, Step(cfg, s, i), i, Produced(s, i)) && Admissible(s.store.log, s.clients[i].pc.decided.batch)
  {
  }

  lemma StepKeepsClientsOk(cfg: Config, s: Sys, i: nat)
    requires ClientsOk(cfg, s)
    ensures ClientsOk(cfg, Step(cfg, s, i))
  {
    if i < |s.clients| {
      StepMoves(cfg, s, i);
      var s' := Step(cfg, s, i);
      forall j | 0 <= j < |s'.clients| ensures ClientOk(cfg, s'.store.log, s'.clients[j]) {
        if j == i {
          ClientStepKeepsOk(cfg, s.clients[i], s.store);
        } else {
          assert s'.clients[j] == s.clients[j];
          ClientOkGrows(cfg, s.store.log, s'.store.log[|s.store.log|..], s.clients[j]);
          assert s.store.log + s'.store.log[|s.store.log|..] == s'.store.log;
        }
      }
    }
  }

  // --- Freshness: what a successful append says about what was loaded ---

  /** A loaded state carries the length of the stream it was folded from. */
  lemma LoadedVersionIsStreamLength(arith: Arith, log: seq<Event>, k: StreamKey)
    requires ValidLog(log)
    ensures FoldAccount(arith, StreamOf(log, k)).Success? ==>
              FoldAccount(arith, StreamOf(log, k)).value.version == Version(log, k)
    ensures FoldInventory(arith, StreamOf(log, k)).Success? ==>
              FoldInventory(arith, StreamOf(log, k)).value.version == Version(log, k)
  {
    var events := StreamOf(log, k);
    if events != [] {
      FoldReportsLastVersion(arith, events);
      StreamVersionsAreDense(log, k, |events| - 1);
    }
  }

  lemma PrefixIsValid(log: seq<Event>, n: nat)
    requires ValidLog(log) && n <= |log|
    ensures ValidLog(log[..n])
  {
    forall i | 0 <= i < n ensures Placed(log[..n], i) {
      assert Placed(log, i) && log[..n][..i] == log[..i];
    }
  }

  /** The batch a successful plan holds: its streams, its payloads and its expected versions. */
  lemma PlannedBatchShape(cfg: Config, cmd: Command, logA: seq<Event>, logB: seq<Event>)
    requires ValidLog(logA) && ValidLog(logB) && Planned(cfg, cmd, logA, logB).Success?
    ensures var a := Planned(cfg, cmd, logA, logB).value;
            && a.loadedVersion == Version(logA, cmd.Primary())
            && |a.batch| == cmd.Size()
            && a.batch[0] == AppendEvent(cmd.Primary(), cmd.FirstPayload(),
                                         ExpectedVersionFor(PlanOf(cfg, cmd), Version(logA, cmd.Primary())))
            && (cmd.Transfer? ==> a.batch[1] == AppendEvent(cmd.Last(), cmd.LastPayload(), Version(logB, cmd.Last())))
  {
    LoadedVersionIsStreamLength(cfg.arith, logA, cmd.Primary());
    LoadedVersionIsStreamLength(cfg.arith, logB, cmd.Last());
  }

  /** Which batches of a planned shape the store admits. */
  lemma PlannedAdmissible(cfg: Config, cmd: Command, logA: seq<Event>, logB: seq<Event>, log: seq<Event>)
    requires ValidLog(logA) && ValidLog(logB) && Planned(cfg, cmd, logA, logB).Success? && !cmd.SameAccount()
    ensures Admissible(log, Planned(cfg, cmd, logA, logB).value.batch) <==>
            && ExpectedVersionFor(PlanOf(cfg, cmd), Version(logA, cmd.Primary())) == Version(log, cmd.Primary())
            && (cmd.Transfer? ==> Version(logB, cmd.Last()) == Version(log, cmd.Last()))
  {
    PlannedBatchShape(cfg, cmd, logA, logB);
    var batch := Planned(cfg, cmd, logA, logB).value.batch;
    assert batch[..0] == [];
    assert RunningVersion(log, batch, 0) == Version(log, cmd.Primary());
    assert ItemAdmissible(log, batch, 0) <==>
           ExpectedVersionFor(PlanOf(cfg, cmd), Version(logA, cmd.Primary())) == Version(log, cmd.Primary());
    if cmd.Transfer? {
      assert cmd.Primary() != cmd.Last();
      assert batch[..1][..0] == [];
      assert Pending(batch[..1], cmd.Last()) == 0;
      assert RunningVersion(log, batch, 1) == Version(log, cmd.Last());
      assert ItemAdmissible(log, batch, 1) <==> Version(logB, cmd.Last()) == Version(log, cmd.Last());
    }
    assert Admissible(log, batch) <==>
           ItemAdmissible(log, batch, 0) && (|batch| == 2 ==> ItemAdmissible(log, batch, 1));
  }

  /** A plan made on unchanged streams is the plan the current log would give. */
  lemma SameStreamsSamePlan(cfg: Config, cmd: Command, logA: seq<Event>, logB: seq<Event>, log: seq<Event>)
    requires StreamOf(logA, cmd.Primary()) == StreamOf(log, cmd.Primary())
    requires cmd.Transfer? ==> StreamOf(logB, cmd.Last()) == StreamOf(log, cmd.Last())
    ensures Planned(cfg, cmd, logA, logB) == Planned(cfg, cmd, log, log)
  {
  }

  /**
   * When a client's append succeeds, the state it decided on is the current one exactly if the version
   * it pinned, if any, is not above the version it loaded. A transfer's second stream is always current.
   */
  lemma FreshIffPinNotAhead(cfg: Config, s: Sys, i: nat)
    requires i < |s.clients| && ValidStore(s.store) && ClientsOk(cfg, s) && Commits(s, i)
    ensures PinSafe(cfg, s.clients[i]) <==>
            StreamOf(s.store.log[..s.clients[i].pc.readAt], s.clients[i].cmd.Primary()) ==
            StreamOf(s.store.log, s.clients[i].cmd.Primary())
    ensures s.clients[i].cmd.Transfer? ==>
              StreamOf(s.store.log[..s.clients[i].pc.readLastAt], s.clients[i].cmd.Last()) ==
              StreamOf(s.store.log, s.clients[i].cmd.Last())
  {
    var cl, log := s.clients[i], s.store.log;
    var logA, logB := log[..cl.pc.readAt], log[..cl.pc.readLastAt];
    assert ClientOk(cfg, log, cl);
    PrefixIsValid(log, cl.pc.readAt);
    PrefixIsValid(log, cl.pc.readLastAt);
    PlannedBatchShape(cfg, cl.cmd, logA, logB);
    PlannedAdmissible(cfg, cl.cmd, logA, logB, log);
    StreamGrows(log, cl.pc.readAt, cl.cmd.Primary());
    StreamGrows(log, cl.pc.readLastAt, cl.cmd.Last());
    if Version(logA, cl.cmd.Primary()) == Version(log, cl.cmd.Primary()) {
      SameVersionSameStream(log, cl.pc.readAt, cl.cmd.Primary());
    }
    if cl.cmd.Transfer? {
      SameVersionSameStream(log, cl.pc.readLastAt, cl.cmd.Last());
    }
  }
}
