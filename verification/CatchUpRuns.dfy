/**
 * Progress on the read side: what a CatchUp worker delivers, and that a worker left alone does exactly what the
 * CatchUp method does.
 */
module CatchUpRuns {
  import opened Events
  import opened Int64
  import opened Aggregates
  import opened EventLog
  import opened MemoryStore
  import opened ReadModels
  import opened Deliveries
  import opened Separation
  import opened Projector
  import opened ProjectorRuns

  // --- One event ---

  /** An in-order live delivery of the next event moves the checkpoint to it, whoever else is at work. */
  lemma NextDeliveryAdvances(arith: Arith, p: Projection, s: PSys, n: nat)
    requires ValidLog(s.log) && n == CheckpointOf(s.rm, p.name) < |s.log| && Accepts(p.kind, s.log[n])
    ensures CheckpointOf(ProjectorRuns.Step(arith, s, Deliver(p, n)).rm, p.name) == n + 1
  {
    assert Placed(s.log, n);
    FailsIffNotAccepted(arith, p, s.rm, s.log[n]);
  }

  /** Worker i of p is about to read the checkpoint, which is c. */
  predicate ReadyAt(p: Projection, s: PSys, i: nat, c: nat) {
    i < |s.workers| && s.workers[i].proj == p && s.workers[i].pc.Ready? && CheckpointOf(s.rm, p.name) == c
  }

  /** Worker i of p has loaded a page from checkpoint c on and is about to deliver its event number `next`. */
  predicate PagingAt(p: Projection, s: PSys, i: nat, c: nat, page: seq<Event>, next: nat) {
    && i < |s.workers| && s.workers[i].proj == p && s.workers[i].pc == Paging(page, next)
    && next < |page| && c + |page| <= |s.log| && page == s.log[c..c + |page|]
    && CheckpointOf(s.rm, p.name) == c + next
  }

  /** Two undisturbed steps read the checkpoint and load a page; an empty page ends the call. */
  lemma TwoStepsLoad(arith: Arith, p: Projection, s: PSys, i: nat, c: nat)
    requires ReadyAt(p, s, i, c) && c <= |s.log|
    ensures var s' := ProjectorRuns.Step(arith, ProjectorRuns.Step(arith, s, Work(i)), Work(i));
            && s'.log == s.log && s'.rm == s.rm && s'.applied == s.applied && |s'.workers| == |s.workers|
            && (c == |s.log| ==> ReadyAt(p, s', i, c))
            && (c < |s.log| ==> PagingAt(p, s', i, c, PageOf(s.log, c, s.workers[i].batchSize), 0))
  {
    PageIsNextStretch(s.log, c, s.workers[i].batchSize);
  }

  /** What one undisturbed delivery of a page does. */
  lemma PageDelivery(arith: Arith, p: Projection, s: PSys, i: nat, c: nat, page: seq<Event>, next: nat)
    requires ValidLog(s.log) && PagingAt(p, s, i, c, page, next)
    ensures var s', e := ProjectorRuns.Step(arith, s, Work(i)), s.log[c + next];
            && s'.log == s.log && |s'.workers| == |s.workers|
            && (s'.rm, s'.applied) ==
               (ApplyEvent(arith, p, s.rm, e).1,
                if ApplyEvent(arith, p, s.rm, e).0 == Ok(true) then s.applied + [Delivery(p, e)] else s.applied)
            && (!Accepts(p.kind, e) ==> ReadyAt(p, s', i, c + next))
            && (Accepts(p.kind, e) && next + 1 == |page| ==> ReadyAt(p, s', i, c + next + 1))
            && (Accepts(p.kind, e) && next + 1 < |page| ==> PagingAt(p, s', i, c, page, next + 1))
  {
    assert page[next] == s.log[c + next];
    assert Placed(s.log, c + next);
    FailsIffNotAccepted(arith, p, s.rm, s.log[c + next]);
  }

  /** A ready worker moves the checkpoint over the next event in three undisturbed steps, whatever its batch size. */
  lemma ThreeStepsAdvance(arith: Arith, p: Projection, s: PSys, i: nat, c: nat)
    requires ValidLog(s.log) && ReadyAt(p, s, i, c) && c < |s.log| && Accepts(p.kind, s.log[c])
    ensures var s' := ProjectorRuns.Step(arith, ProjectorRuns.Step(arith,
                      ProjectorRuns.Step(arith, s, Work(i)), Work(i)), Work(i));
            && CheckpointOf(s'.rm, p.name) == c + 1
            && s'.rm == ApplyEvent(arith, p, s.rm, s.log[c]).1
  {
    TwoStepsLoad(arith, p, s, i, c);
    var loaded := ProjectorRuns.Step(arith, ProjectorRuns.Step(arith, s, Work(i)), Work(i));
    PageDelivery(arith, p, loaded, i, c, PageOf(s.log, c, s.workers[i].batchSize), 0);
  }

  // --- A worker alone ---

  /** The state after n steps of worker i, with nobody else moving. */
  function Alone(arith: Arith, s: PSys, i: nat, n: nat): PSys
    decreases n
  {
    if n == 0 then s else Alone(arith, ProjectorRuns.Step(arith, s, Work(i)), i, n - 1)
  }

  lemma {:induction false} AloneThenAlone(arith: Arith, s: PSys, i: nat, m: nat, n: nat)
    ensures Alone(arith, s, i, m + n) == Alone(arith, Alone(arith, s, i, m), i, n)
    decreases m
  {
    if m > 0 {
      AloneThenAlone(arith, ProjectorRuns.Step(arith, s, Work(i)), i, m - 1, n);
    }
  }

  lemma OneTurn(arith: Arith, s: PSys, i: nat)
    ensures Alone(arith, s, i, 1) == ProjectorRuns.Step(arith, s, Work(i))
  {
  }

  /** s' is what s becomes when worker i alone takes some number of steps. */
  ghost predicate Reaches(arith: Arith, s: PSys, i: nat, s': PSys) {
    exists n: nat :: Alone(arith, s, i, n) == s'
  }

  lemma ReachesOnwards(arith: Arith, s: PSys, i: nat, mid: PSys, s': PSys)
    requires Reaches(arith, s, i, mid) && Reaches(arith, mid, i, s')
    ensures Reaches(arith, s, i, s')
  {
    var m: nat :| Alone(arith, s, i, m) == mid;
    var n: nat :| Alone(arith, mid, i, n) == s';
    AloneThenAlone(arith, s, i, m, n);
  }

  /** n actions of worker i. */
  function Turns(i: nat, n: nat): seq<Action> {
    if n == 0 then [] else Turns(i, n - 1) + [Work(i)]
  }

  lemma RunOneMoreTurn(arith: Arith, s: PSys, i: nat, n: nat)
    ensures ProjectorRuns.Run(arith, s, Turns(i, n + 1)) ==
            ProjectorRuns.Step(arith, ProjectorRuns.Run(arith, s, Turns(i, n)), Work(i))
  {
    var turns := Turns(i, n + 1);
    assert turns[..|turns| - 1] == Turns(i, n);
  }

  lemma AloneOneMore(arith: Arith, s: PSys, i: nat, n: nat)
    ensures Alone(arith, s, i, n + 1) == ProjectorRuns.Step(arith, Alone(arith, s, i, n), Work(i))
  {
    AloneThenAlone(arith, s, i, n, 1);
    OneTurn(arith, Alone(arith, s, i, n), i);
  }

  /** Working alone is one of the runs. */
  lemma {:induction false} AloneIsARun(arith: Arith, s: PSys, i: nat, n: nat)
    ensures Alone(arith, s, i, n) == ProjectorRuns.Run(arith, s, Turns(i, n))
    decreases n
  {
    if n > 0 {
      AloneIsARun(arith, s, i, n - 1);
      AloneOneMore(arith, s, i, n - 1);
      RunOneMoreTurn(arith, s, i, n - 1);
    }
  }

  /** Since s0, on the same log, everything below c has been digested, and the history counts what was applied. */
  predicate HasDrained(arith: Arith, p: Projection, s0: PSys, s: PSys, c: int) {
    && s.log == s0.log && |s.workers| == |s0.workers| && |s0.applied| <= |s.applied|
    && Drained(arith, p, s.log, s0.rm, c, s.rm, |s.applied| - |s0.applied|)
  }

  /** The worker is ready again at checkpoint c, having drained up to there. */
  predicate BackAt(arith: Arith, p: Projection, s0: PSys, s: PSys, i: nat, c: nat) {
    ReadyAt(p, s, i, c) && HasDrained(arith, p, s0, s, c)
  }

  /** Delivering the event at the checkpoint drains one more, unless it cannot be digested. */
  lemma HandleDrains(arith: Arith, p: Projection, s0: PSys, s: PSys, c: nat)
    requires ValidLog(s.log) && HasDrained(arith, p, s0, s, c) && c < |s.log|
    ensures HasDrained(arith, p, s0, Handle(arith, s, p, s.log[c]), if Accepts(p.kind, s.log[c]) then c + 1 else c)
  {
    DrainOneMore(arith, p, s.log, s0.rm, c, s.rm, |s.applied| - |s0.applied|);
  }

  lemma PageStepIsHandle(arith: Arith, p: Projection, s: PSys, i: nat, c: nat, page: seq<Event>, next: nat)
    requires PagingAt(p, s, i, c, page, next)
    ensures var s', h := ProjectorRuns.Step(arith, s, Work(i)), Handle(arith, s, p, s.log[c + next]);
            s'.log == h.log && s'.rm == h.rm && s'.applied == h.applied && |s'.workers| == |h.workers|
  {
    assert page[next] == s.log[c + next];
  }

  /** One turn of a worker that is paging: on to the next event of the page, or back to the top of the loop. */
  lemma PageTurn(arith: Arith, p: Projection, s0: PSys, s: PSys, i: nat, c: nat, page: seq<Event>, next: nat)
    requires ValidLog(s.log) && PagingAt(p, s, i, c, page, next) && HasDrained(arith, p, s0, s, c + next)
    ensures var s', good := ProjectorRuns.Step(arith, s, Work(i)), Accepts(p.kind, s.log[c + next]);
            && (!good ==> BackAt(arith, p, s0, s', i, c + next))
            && (good && next + 1 == |page| ==> BackAt(arith, p, s0, s', i, c + next + 1))
            && (good && next + 1 < |page| ==>
                  PagingAt(p, s', i, c, page, next + 1) && HasDrained(arith, p, s0, s', c + next + 1))
  {
    PageDelivery(arith, p, s, i, c, page, next);
    PageStepIsHandle(arith, p, s, i, c, page, next);
    HandleDrains(arith, p, s0, s, c + next);
  }

  /** The worker has left the page at `stop`, or is at the next event of it. */
  predicate TurnsTo(
    arith: Arith, p: Projection, s0: PSys, s': PSys, i: nat, c: nat, page: seq<Event>, next: nat, stop: nat)
  {
    if stop == c + next + 1 && next + 1 < |page|
    then PagingAt(p, s', i, c, page, next + 1) && HasDrained(arith, p, s0, s', stop)
    else BackAt(arith, p, s0, s', i, stop)
  }

  lemma OnePageTurn(arith: Arith, p: Projection, s0: PSys, s: PSys, i: nat, c: nat, page: seq<Event>, next: nat)
    returns (s': PSys, stop: nat)
    requires ValidLog(s.log) && PagingAt(p, s, i, c, page, next) && HasDrained(arith, p, s0, s, c + next)
    ensures Reaches(arith, s, i, s') && s'.log == s.log
    ensures stop == if Accepts(p.kind, s.log[c + next]) then c + next + 1 else c + next
    ensures TurnsTo(arith, p, s0, s', i, c, page, next, stop)
  {
    PageTurn(arith, p, s0, s, i, c, page, next);
    OneTurn(arith, s, i);
    s' := ProjectorRuns.Step(arith, s, Work(i));
    stop := if Accepts(p.kind, s.log[c + next]) then c + next + 1 else c + next;
  }

  /** Left alone, a worker finishes its page, or stops at the first event it cannot digest. */
  lemma {:induction false} FinishesPage(
    arith: Arith, p: Projection, s0: PSys, s: PSys, i: nat, c: nat, page: seq<Event>, next: nat)
    returns (s': PSys, stop: nat)
    requires ValidLog(s.log) && PagingAt(p, s, i, c, page, next) && HasDrained(arith, p, s0, s, c + next)
    ensures Reaches(arith, s, i, s') && BackAt(arith, p, s0, s', i, stop)
    ensures c + next <= stop <= |s.log|
    ensures stop > c + next || (stop < |s.log| && !Accepts(p.kind, s.log[stop]))
    decreases |page| - next
  {
    s', stop := OnePageTurn(arith, p, s0, s, i, c, page, next);
    if stop == c + next + 1 && next + 1 < |page| {
      var mid := s';
      s', stop := FinishesPage(arith, p, s0, mid, i, c, page, next + 1);
      ReachesOnwards(arith, s, i, mid, s');
    }
  }

  /** Two turns of a worker at the top of the loop load a page, which is empty only at the end of the log. */
  lemma LoadTurns(arith: Arith, p: Projection, s0: PSys, s: PSys, i: nat, c: nat)
    requires BackAt(arith, p, s0, s, i, c)
    ensures var s' := ProjectorRuns.Step(arith, ProjectorRuns.Step(arith, s, Work(i)), Work(i));
            && c <= |s.log| && HasDrained(arith, p, s0, s', c)
            && (c == |s.log| ==> BackAt(arith, p, s0, s', i, c))
            && (c < |s.log| ==> PagingAt(p, s', i, c, PageOf(s.log, c, s.workers[i].batchSize), 0))
  {
    TwoStepsLoad(arith, p, s, i, c);
  }

  lemma TwoTurns(arith: Arith, s: PSys, i: nat)
    ensures Alone(arith, s, i, 2) == ProjectorRuns.Step(arith, ProjectorRuns.Step(arith, s, Work(i)), Work(i))
  {
    OneTurn(arith, ProjectorRuns.Step(arith, s, Work(i)), i);
  }

  /** One page: load it, and deliver it as far as it can be digested. */
  lemma LoadsAndFinishes(arith: Arith, p: Projection, s0: PSys, s: PSys, i: nat, c: nat)
    returns (s': PSys, stop: nat)
    requires ValidLog(s.log) && BackAt(arith, p, s0, s, i, c)
    ensures Reaches(arith, s, i, s') && BackAt(arith, p, s0, s', i, stop)
    ensures c <= stop <= |s.log|
    ensures stop > c || stop == |s.log| || !Accepts(p.kind, s.log[stop])
  {
    LoadTurns(arith, p, s0, s, i, c);
    TwoTurns(arith, s, i);
    var loaded := Alone(arith, s, i, 2);
    if c == |s.log| {
      return loaded, c;
    }
    s', stop := FinishesPage(arith, p, s0, loaded, i, c, PageOf(s.log, c, s.workers[i].batchSize), 0);
    ReachesOnwards(arith, s, i, loaded, s');
  }

  /** Left alone, a worker comes to the end of the log or to the first event it cannot digest. */
  lemma {:induction false} FinishesLog(arith: Arith, p: Projection, s0: PSys, s: PSys, i: nat, c: nat)
    returns (s': PSys, stop: nat)
    requires ValidLog(s.log) && BackAt(arith, p, s0, s, i, c)
    ensures Reaches(arith, s, i, s') && BackAt(arith, p, s0, s', i, stop) && stop <= |s.log|
    ensures stop < |s.log| ==> !Accepts(p.kind, s.log[stop])
    decreases |s.log| - c
  {
    s', stop := LoadsAndFinishes(arith, p, s0, s, i, c);
    if stop < |s.log| && Accepts(p.kind, s.log[stop]) {
      var mid := s';
      s', stop := FinishesLog(arith, p, s0, mid, i, stop);
      ReachesOnwards(arith, s, i, mid, s');
    }
  }

  /**
   * The worker of the interleaved runs is the CatchUp method: on a log that stands still, with nobody else moving, a
   * ready worker of any batch size comes, after finitely many steps, to be ready again with exactly the result the
   * method has: checkpoint, views, count of applied events, and failure iff there is an event it cannot digest.
   */
  lemma AloneIsCatchUp(arith: Arith, p: Projection, s: PSys, i: nat) returns (n: nat)
    requires ValidLog(s.log) && i < |s.workers| && s.workers[i].proj == p && s.workers[i].pc.Ready?
    requires 0 <= CheckpointOf(s.rm, p.name) <= |s.log|
    ensures var s' := Alone(arith, s, i, n);
            && s'.log == s.log && i < |s'.workers| && s'.workers[i].pc.Ready?
            && |s.applied| <= |s'.applied|
            && CaughtUp(arith, p, s.log, s.rm, s'.rm, |s'.applied| - |s.applied|,
                        CheckpointOf(s'.rm, p.name) < |s.log|)
  {
    var s', stop := FinishesLog(arith, p, s, s, i, CheckpointOf(s.rm, p.name));
    n :| Alone(arith, s, i, n) == s';
    DrainedIsCaughtUp(arith, p, s.log, s.rm, stop, s'.rm, |s'.applied| - |s.applied|);
  }

  // --- From any point of a run ---

  /**
   * Eventual consistency: from any point of any run with in-order deliveries, one more undisturbed CatchUp of p brings
   * its views to the direct folds of the whole log, or of the log below the first event it cannot digest.
   */
  lemma OneCatchUpIsEnough(arith: Arith, p: Projection, s0: PSys, actions: seq<Action>, i: nat) returns (n: nat)
    requires Starts(arith, p, s0) && InOrderRun(arith, p, s0, actions) && OthersApart(p, s0.workers, actions)
    requires var s := ProjectorRuns.Run(arith, s0, actions);
             i < |s.workers| && s.workers[i].proj == p && s.workers[i].pc.Ready?
    ensures var s := ProjectorRuns.Run(arith, s0, actions);
            var s' := Alone(arith, s, i, n);
            && s'.log == s.log && InStep(arith, p, s'.rm, s'.log)
            && 0 <= CheckpointOf(s.rm, p.name) <= |s.log|
            && CheckpointOf(s'.rm, p.name) == FirstBad(p.kind, s.log, CheckpointOf(s.rm, p.name))
  {
    var s := ProjectorRuns.Run(arith, s0, actions);
    RunKeepsPInv(arith, p, s0, actions);
    n := AloneIsCatchUp(arith, p, s, i);
    var s' := Alone(arith, s, i, n);
    CatchUpKeepsInStep(arith, p, s.log, s.rm, s'.rm, |s'.applied| - |s.applied|,
                       CheckpointOf(s'.rm, p.name) < |s.log|);
  }

  /** The events the appends of a run are to add to the log. */
  function Grown(actions: seq<Action>): nat {
    if actions == [] then 0
    else
      var a := actions[|actions| - 1];
      Grown(actions[..|actions| - 1]) + if a.Grow? then |a.batch| else 0
  }

  /** Appends are never lost: the log only grows, by exactly what was appended. */
  lemma {:induction false} RunGrowsTheLog(arith: Arith, s: PSys, actions: seq<Action>)
    ensures s.log <= ProjectorRuns.Run(arith, s, actions).log
    ensures |ProjectorRuns.Run(arith, s, actions).log| == |s.log| + Grown(actions)
    decreases |actions|
  {
    if actions != [] {
      RunGrowsTheLog(arith, s, actions[..|actions| - 1]);
    }
  }
}
