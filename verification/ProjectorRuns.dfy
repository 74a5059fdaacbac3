/**
 * The read side at work: a log that keeps growing, several CatchUp calls running concurrently, and live
 * deliveries and redeliveries, all interleaved in any order over one read-model store.
 */
module ProjectorRuns {
  import opened Events
  import opened Int64
  import opened Aggregates
  import opened EventLog
  import opened MemoryStore
  import opened ReadModels
  import opened Deliveries
  import opened Separation

  /** Where a CatchUp loop stands; `Ready` is about to read the checkpoint, in this call or the next. */
  datatype WorkerPc = Ready | HasCheckpoint(checkpoint: int) | Paging(page: seq<Event>, next: nat)

  datatype Worker = Worker(proj: Projection, batchSize: int, pc: WorkerPc)

  /** History: the deliveries that changed a view. */
  datatype PSys = PSys(log: seq<Event>, rm: ReadModel, workers: seq<Worker>, applied: seq<Delivery>)

  datatype Action =
    | Grow(key: string, batch: seq<AppendEvent>)
    | Work(worker: nat)
    | Deliver(to: Projection, index: nat)

  /** One delivery, with its entry in the history. */
  function Handle(arith: Arith, s: PSys, p: Projection, e: Event): PSys {
    var (answer, rm') := ApplyEvent(arith, p, s.rm, e);
    s.(rm := rm', applied := if answer == Ok(true) then s.applied + [Delivery(p, e)] else s.applied)
  }

  function AfterDelivery(w: Worker, failed: bool): WorkerPc
    requires w.pc.Paging?
  {
    if failed || w.pc.next + 1 >= |w.pc.page| then Ready else Paging(w.pc.page, w.pc.next + 1)
  }

  function SetPc(s: PSys, i: nat, pc: WorkerPc): PSys
    requires i < |s.workers|
  {
    s.(workers := s.workers[i := s.workers[i].(pc := pc)])
  }

  /** One store call of worker i's CatchUp. */
  function WorkStep(arith: Arith, s: PSys, i: nat): PSys
    requires i < |s.workers|
  {
    var w := s.workers[i];
    match w.pc
    case Ready => SetPc(s, i, HasCheckpoint(CheckpointOf(s.rm, w.proj.name)))
    case HasCheckpoint(c) =>
      var page := PageOf(s.log, c, w.batchSize);
      SetPc(s, i, if page == [] then Ready else Paging(page, 0))
    case Paging(page, next) =>
      if next >= |page| then SetPc(s, i, Ready)
      else
        SetPc(Handle(arith, s, w.proj, page[next]), i,
              AfterDelivery(w, ApplyEvent(arith, w.proj, s.rm, page[next]).0.Failed?))
  }

  function Step(arith: Arith, s: PSys, a: Action): PSys {
    match a
    case Grow(key, batch) => s.(log := s.log + Stamp(s.log, key, batch))
    case Work(i) => if i < |s.workers| then WorkStep(arith, s, i) else s
    case Deliver(p, n) => if n < |s.log| then Handle(arith, s, p, s.log[n]) else s
  }

  function Run(arith: Arith, s: PSys, actions: seq<Action>): PSys {
    if actions == [] then s
    else Step(arith, Run(arith, s, actions[..|actions| - 1]), actions[|actions| - 1])
  }

  /** A live delivery to p is at most one beyond p's checkpoint. */
  predicate InOrder(p: Projection, s: PSys, a: Action) {
    a.Deliver? && a.to == p ==> a.index <= CheckpointOf(s.rm, p.name)
  }

  /** Every live delivery to p in the run arrives in order; deliveries to others and CatchUps are free. */
  predicate InOrderRun(arith: Arith, p: Projection, s: PSys, actions: seq<Action>) {
    actions != [] ==>
      && InOrderRun(arith, p, s, actions[..|actions| - 1])
      && InOrder(p, Run(arith, s, actions[..|actions| - 1]), actions[|actions| - 1])
  }

  /** Everybody else in the run is apart from p. */
  predicate OthersApart(p: Projection, workers: seq<Worker>, actions: seq<Action>) {
    && (forall i :: 0 <= i < |workers| ==> workers[i].proj == p || Apart(p, workers[i].proj))
    && (forall i :: 0 <= i < |actions| && actions[i].Deliver? ==> actions[i].to == p || Apart(p, actions[i].to))
  }

  // --- The invariant ---

  /** The page is a stretch of the log, and what is left of it starts no further than the checkpoint. */
  predicate PageOk(log: seq<Event>, cp: int, page: seq<Event>, next: nat) {
    var a := BlockStart(page);
    && next < |page|
    && 0 <= a <= |log| - |page|
    && log[a..a + |page|] == page
    && a + next <= cp
  }

  predicate WorkerOk(log: seq<Event>, cp: int, w: Worker) {
    match w.pc
    case Ready => true
    case HasCheckpoint(c) => 0 <= c <= cp
    case Paging(page, next) => PageOk(log, cp, page, next)
  }

  predicate WorkersOk(p: Projection, log: seq<Event>, cp: int, workers: seq<Worker>) {
    forall i :: 0 <= i < |workers| && workers[i].proj == p ==> WorkerOk(log, cp, workers[i])
  }

  /** p has applied every relevant event between c0 and its checkpoint exactly once, in log order. */
  predicate AppliedOnce(p: Projection, c0: int, cp: int, log: seq<Event>, applied: seq<Delivery>) {
    && 0 <= c0 <= cp <= |log|
    && DeliveredTo(p, applied) == RelevantPart(p.kind, log[c0..cp])
  }

  ghost predicate PInv(arith: Arith, p: Projection, c0: int, s: PSys) {
    && ValidLog(s.log)
    && InStep(arith, p, s.rm, s.log)
    && WorkersOk(p, s.log, CheckpointOf(s.rm, p.name), s.workers)
    && AppliedOnce(p, c0, CheckpointOf(s.rm, p.name), s.log, s.applied)
  }

  // --- One step ---

  /** A growing log and a rising checkpoint disturb no worker. */
  lemma WorkersStayOk(
    p: Projection, log: seq<Event>, cp: int, log': seq<Event>, cp': int, workers: seq<Worker>)
    requires WorkersOk(p, log, cp, workers) && log <= log' && cp <= cp'
    ensures WorkersOk(p, log', cp', workers)
  {
    forall i | 0 <= i < |workers| && workers[i].proj == p ensures WorkerOk(log', cp', workers[i]) {
      assert WorkerOk(log, cp, workers[i]);
      if workers[i].pc.Paging? {
        var page := workers[i].pc.page;
        var a := BlockStart(page);
        assert log'[a..a + |page|] == log[a..a + |page|];
      }
    }
  }

  lemma RelevantOneMore(kind: Kind, log: seq<Event>, c0: nat, n: nat)
    requires c0 <= n < |log|
    ensures RelevantPart(kind, log[c0..n + 1]) ==
            RelevantPart(kind, log[c0..n]) + if Relevant(kind, log[n]) then [log[n]] else []
  {
    assert log[c0..n + 1][..n - c0] == log[c0..n];
    assert log[c0..n + 1][n - c0] == log[n];
  }

  /** When a delivery answers that it applied the event, and where the checkpoint then is. */
  lemma AppliedMeans(arith: Arith, p: Projection, rm: ReadModel, e: Event)
    ensures var (answer, rm') := ApplyEvent(arith, p, rm, e);
            && (answer == Ok(true) ==> Relevant(p.kind, e) && CheckpointOf(rm', p.name) == e.globalSeq)
            && (answer == Ok(true) ==> e.globalSeq > CheckpointOf(rm, p.name))
            && (answer != Ok(true) && CheckpointOf(rm', p.name) != CheckpointOf(rm, p.name) ==>
                  !Relevant(p.kind, e) && CheckpointOf(rm', p.name) == e.globalSeq > CheckpointOf(rm, p.name))
  {
  }

  /** The next event is applied if it is relevant, and an event at or below the checkpoint never is. */
  lemma AppliedOnceMore(arith: Arith, p: Projection, c0: int, rm: ReadModel, log: seq<Event>, n: nat)
    requires ValidLog(log) && n < |log|
    requires 0 <= c0 <= CheckpointOf(rm, p.name) <= |log| && n <= CheckpointOf(rm, p.name)
    ensures var (answer, rm') := ApplyEvent(arith, p, rm, log[n]);
            && c0 <= CheckpointOf(rm', p.name) <= |log|
            && RelevantPart(p.kind, log[c0..CheckpointOf(rm', p.name)]) ==
               RelevantPart(p.kind, log[c0..CheckpointOf(rm, p.name)]) + if answer == Ok(true) then [log[n]] else []
  {
    assert Placed(log, n);
    AppliedMeans(arith, p, rm, log[n]);
    var so := RelevantPart(p.kind, log[c0..CheckpointOf(rm, p.name)]);
    assert so + [] == so;
    if n == CheckpointOf(rm, p.name) {
      RelevantOneMore(p.kind, log, c0, n);
    }
  }

  lemma DeliveredOneMore(p: Projection, applied: seq<Delivery>, d: Delivery)
    ensures DeliveredTo(p, applied + [d]) == DeliveredTo(p, applied) + if d.to == p then [d.event] else []
  {
    assert (applied + [d])[..|applied|] == applied;
  }

  lemma HandleAppliesOnce(arith: Arith, p: Projection, c0: int, s: PSys, n: nat)
    requires ValidLog(s.log) && n < |s.log| && n <= CheckpointOf(s.rm, p.name)
    requires AppliedOnce(p, c0, CheckpointOf(s.rm, p.name), s.log, s.applied)
    ensures var s' := Handle(arith, s, p, s.log[n]);
            AppliedOnce(p, c0, CheckpointOf(s'.rm, p.name), s'.log, s'.applied)
  {
    AppliedOnceMore(arith, p, c0, s.rm, s.log, n);
    DeliveredOneMore(p, s.applied, Delivery(p, s.log[n]));
    var so := DeliveredTo(p, s.applied);
    assert so + [] == so;
  }

  lemma HandleKeepsInv(arith: Arith, p: Projection, c0: int, s: PSys, n: nat)
    requires PInv(arith, p, c0, s) && n < |s.log| && n <= CheckpointOf(s.rm, p.name)
    ensures PInv(arith, p, c0, Handle(arith, s, p, s.log[n]))
    ensures !ApplyEvent(arith, p, s.rm, s.log[n]).0.Failed? ==>
              CheckpointOf(Handle(arith, s, p, s.log[n]).rm, p.name) >= n + 1
  {
    var s' := Handle(arith, s, p, s.log[n]);
    assert Placed(s.log, n);
    NextDeliveryStaysInStep(arith, p, s.rm, s.log, n);
    HandleAppliesOnce(arith, p, c0, s, n);
    WorkersStayOk(p, s.log, CheckpointOf(s.rm, p.name), s.log, CheckpointOf(s'.rm, p.name), s.workers);
  }

  lemma ForeignHandleKeepsInv(arith: Arith, p: Projection, c0: int, s: PSys, q: Projection, e: Event)
    requires PInv(arith, p, c0, s) && Apart(p, q)
    ensures PInv(arith, p, c0, Handle(arith, s, q, e))
  {
    var s' := Handle(arith, s, q, e);
    ForeignDeliveryKeepsSlice(arith, p, q, s.rm, e);
    InStepIsOfSlice(arith, p, s.rm, s'.rm, s.log);
    DeliveredOneMore(p, s.applied, Delivery(q, e));
    var so := DeliveredTo(p, s.applied);
    assert so + [] == so;
  }

  /** A page read from a checkpoint the projection has reached is a good page. */
  lemma PageIsOk(log: seq<Event>, c: int, cp: int, limit: int)
    requires ValidLog(log) && 0 <= c <= cp <= |log| && PageOf(log, c, limit) != []
    ensures PageOk(log, cp, PageOf(log, c, limit), 0)
  {
    var page := PageOf(log, c, limit);
    assert page == log[c..c + |page|];
    assert Placed(log, c) && page[0] == log[c];
  }

  lemma SetPcKeepsInv(arith: Arith, p: Projection, c0: int, s: PSys, i: nat, pc: WorkerPc)
    requires PInv(arith, p, c0, s) && i < |s.workers|
    requires s.workers[i].proj == p ==> WorkerOk(s.log, CheckpointOf(s.rm, p.name), s.workers[i].(pc := pc))
    ensures PInv(arith, p, c0, SetPc(s, i, pc))
  {
  }

  lemma OwnWorkKeepsInv(arith: Arith, p: Projection, c0: int, s: PSys, i: nat)
    requires PInv(arith, p, c0, s) && i < |s.workers| && s.workers[i].proj == p
    ensures PInv(arith, p, c0, WorkStep(arith, s, i))
  {
    var w, cp := s.workers[i], CheckpointOf(s.rm, p.name);
    assert WorkerOk(s.log, cp, w);
    match w.pc {
      case Ready => SetPcKeepsInv(arith, p, c0, s, i, HasCheckpoint(cp));
      case HasCheckpoint(c) =>
        var page := PageOf(s.log, c, w.batchSize);
        if page != [] {
          PageIsOk(s.log, c, cp, w.batchSize);
        }
        SetPcKeepsInv(arith, p, c0, s, i, if page == [] then Ready else Paging(page, 0));
      case Paging(page, next) =>
        var n := BlockStart(page) + next;
        assert page[next] == s.log[n];
        HandleKeepsInv(arith, p, c0, s, n);
        SetPcKeepsInv(arith, p, c0, Handle(arith, s, p, page[next]), i,
                      AfterDelivery(w, ApplyEvent(arith, p, s.rm, page[next]).0.Failed?));
    }
  }

  lemma ForeignWorkKeepsInv(arith: Arith, p: Projection, c0: int, s: PSys, i: nat)
    requires PInv(arith, p, c0, s) && i < |s.workers| && Apart(p, s.workers[i].proj)
    ensures PInv(arith, p, c0, WorkStep(arith, s, i))
  {
    var w := s.workers[i];
    if w.pc.Paging? && w.pc.next < |w.pc.page| {
      ForeignHandleKeepsInv(arith, p, c0, s, w.proj, w.pc.page[w.pc.next]);
    }
  }

  lemma GrowKeepsInv(arith: Arith, p: Projection, c0: int, s: PSys, key: string, batch: seq<AppendEvent>)
    requires PInv(arith, p, c0, s)
    ensures PInv(arith, p, c0, Step(arith, s, Grow(key, batch)))
  {
    var log', cp := s.log + Stamp(s.log, key, batch), CheckpointOf(s.rm, p.name);
    StampKeepsValidLog(s.log, key, batch);
    WorkersStayOk(p, s.log, cp, log', cp, s.workers);
    assert log'[..cp] == s.log[..cp] && log'[c0..cp] == s.log[c0..cp];
  }

  lemma StepKeepsInv(arith: Arith, p: Projection, c0: int, s: PSys, a: Action)
    requires PInv(arith, p, c0, s) && InOrder(p, s, a) && OthersApart(p, s.workers, [a])
    ensures PInv(arith, p, c0, Step(arith, s, a))
  {
    assert [a][0] == a;
    match a {
      case Grow(key, batch) => GrowKeepsInv(arith, p, c0, s, key, batch);
      case Work(i) =>
        if i < |s.workers| {
          if s.workers[i].proj == p {
            OwnWorkKeepsInv(arith, p, c0, s, i);
          } else {
            ForeignWorkKeepsInv(arith, p, c0, s, i);
          }
        }
      case Deliver(q, n) =>
        if n < |s.log| {
          if q == p {
            HandleKeepsInv(arith, p, c0, s, n);
          } else {
            ForeignHandleKeepsInv(arith, p, c0, s, q, s.log[n]);
          }
        }
    }
  }

  lemma StepKeepsProjections(arith: Arith, s: PSys, a: Action, i: nat)
    ensures |Step(arith, s, a).workers| == |s.workers|
    ensures i < |s.workers| ==> Step(arith, s, a).workers[i].proj == s.workers[i].proj
  {
  }

  lemma {:induction false} RunKeepsProjections(arith: Arith, s: PSys, actions: seq<Action>, i: nat)
    ensures |Run(arith, s, actions).workers| == |s.workers|
    ensures i < |s.workers| ==> Run(arith, s, actions).workers[i].proj == s.workers[i].proj
    decreases |actions|
  {
    if actions != [] {
      var n := |actions| - 1;
      RunKeepsProjections(arith, s, actions[..n], i);
      StepKeepsProjections(arith, Run(arith, s, actions[..n]), actions[n], i);
    }
  }

  /** A starting point: the views are those of the log up to the checkpoint, no CatchUp is under way. */
  ghost predicate Starts(arith: Arith, p: Projection, s: PSys) {
    && ValidLog(s.log)
    && InStep(arith, p, s.rm, s.log)
    && s.applied == []
    && forall i :: 0 <= i < |s.workers| ==> s.workers[i].pc.Ready?
  }

  /** A new projection over any log may start with no views and no checkpoint. */
  lemma NewProjectionStarts(arith: Arith, p: Projection, log: seq<Event>, workers: seq<Worker>)
    requires ValidLog(log) && forall i :: 0 <= i < |workers| ==> workers[i].pc.Ready?
    ensures Starts(arith, p, PSys(log, EMPTY_READ_MODEL, workers, []))
  {
    EmptyViewsFold(arith, p.kind);
    assert log[..0] == [];
  }

  lemma {:induction false} RunKeepsPInv(arith: Arith, p: Projection, s: PSys, actions: seq<Action>)
    requires Starts(arith, p, s) && InOrderRun(arith, p, s, actions) && OthersApart(p, s.workers, actions)
    ensures PInv(arith, p, CheckpointOf(s.rm, p.name), Run(arith, s, actions))
    decreases |actions|
  {
    var c0 := CheckpointOf(s.rm, p.name);
    if actions == [] {
      assert s.log[c0..c0] == [];
    } else {
      var n := |actions| - 1;
      var before := Run(arith, s, actions[..n]);
      RunKeepsPInv(arith, p, s, actions[..n]);
      RunKeepsProjections(arith, s, actions[..n], 0);
      forall i | 0 <= i < |before.workers|
        ensures before.workers[i].proj == p || Apart(p, before.workers[i].proj)
      {
        RunKeepsProjections(arith, s, actions[..n], i);
      }
      assert OthersApart(p, before.workers, [actions[n]]);
      StepKeepsInv(arith, p, c0, before, actions[n]);
    }
  }

  /**
   * Whatever appends, concurrent CatchUps, redeliveries and in-order live deliveries are interleaved, the
   * views of p are the direct folds of the log up to p's checkpoint, and each relevant event below the
   * checkpoint has been applied exactly once.
   */
  lemma ViewsFollowTheLog(arith: Arith, p: Projection, s: PSys, actions: seq<Action>)
    requires Starts(arith, p, s) && InOrderRun(arith, p, s, actions) && OthersApart(p, s.workers, actions)
    ensures var s' := Run(arith, s, actions);
            && InStep(arith, p, s'.rm, s'.log)
            && AppliedOnce(p, CheckpointOf(s.rm, p.name), CheckpointOf(s'.rm, p.name), s'.log, s'.applied)
  {
    RunKeepsPInv(arith, p, s, actions);
  }

  /** The same, spelled out for one account and one item. */
  lemma ViewIsTheFold(arith: Arith, p: Projection, s: PSys, actions: seq<Action>, id: string)
    requires Starts(arith, p, s) && InOrderRun(arith, p, s, actions) && OthersApart(p, s.workers, actions)
    ensures var s' := Run(arith, s, actions);
            && 0 <= CheckpointOf(s'.rm, p.name) <= |s'.log|
            && var done := s'.log[..CheckpointOf(s'.rm, p.name)];
            && (p.kind.Balances? ==> AccountViewFits(arith, s'.rm, StreamOf(done, AccountKey(id)), id))
            && (p.kind.Stock? ==> ItemViewFits(arith, s'.rm, StreamOf(done, ItemKey(id)), id))
  {
    RunKeepsPInv(arith, p, s, actions);
  }
}
