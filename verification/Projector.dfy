/** The read-model store, the two appliers and the projector, updating their state in place. */
module Projector {
  import opened Events
  import opened Int64
  import opened Aggregates
  import opened EventLog
  import opened MemoryStore
  import opened ReadModels
  import opened Deliveries

  /** The in-process read-model store; each method is one critical section. */
  class ReadModelStore {
    var accounts: map<string, AccountView>
    var inventory: map<string, InventoryView>
    var checkpoints: map<string, int>

    function State(): ReadModel
      reads this
    {
      ReadModel(accounts, inventory, checkpoints)
    }

    /** No checkpoint was ever set below where it starts. */
    ghost predicate Valid()
      reads this
    {
      forall name :: CheckpointOf(State(), name) >= 0
    }

    constructor ()
      ensures Valid() && State() == EMPTY_READ_MODEL
    {
      accounts := map[];
      inventory := map[];
      checkpoints := map[];
    }

    method GetAccount(id: string) returns (view: AccountView, found: bool)
      ensures found <==> id in accounts
      ensures view == AccountViewOf(State(), id)
    {
      if id in accounts {
        return accounts[id], true;
      }
      return NO_ACCOUNT_VIEW, false;
    }

    method UpsertAccount(id: string, view: AccountView)
      modifies `accounts
      ensures accounts == old(accounts)[id := view]
    {
      accounts := accounts[id := view];
    }

    method GetInventory(id: string) returns (view: InventoryView, found: bool)
      ensures found <==> id in inventory
      ensures view == ItemViewOf(State(), id)
    {
      if id in inventory {
        return inventory[id], true;
      }
      return NO_ITEM_VIEW, false;
    }

    method UpsertInventory(id: string, view: InventoryView)
      modifies `inventory
      ensures inventory == old(inventory)[id := view]
    {
      inventory := inventory[id := view];
    }

    method GetCheckpoint(name: string) returns (checkpoint: int)
      ensures checkpoint == CheckpointOf(State(), name)
    {
      return if name in checkpoints then checkpoints[name] else 0;
    }

    /** Checkpoints are monotone: a lower or equal number is ignored, other projections' are left alone. */
    method SetCheckpoint(name: string, globalSeq: int)
      modifies `checkpoints
      ensures State() == Advance(old(State()), name, globalSeq)
      ensures forall other :: CheckpointOf(State(), other) ==
                              if other == name && globalSeq > CheckpointOf(old(State()), name) then globalSeq
                              else CheckpointOf(old(State()), other)
    {
      var current := GetCheckpoint(name);
      if globalSeq > current {
        checkpoints := checkpoints[name := globalSeq];
      }
    }
  }

  /** What an Apply call that answered err did to the read model, against its specification r. */
  predicate Did(r: Result<ReadModel, FoldError>, before: ReadModel, after: ReadModel, err: Option<FoldError>) {
    match r
    case Success(rm) => err.None? && after == rm
    case Failure(e) => err == Some(e) && after == before
  }

  class AccountApplier {
    const store: ReadModelStore
    const arith: Arith

    constructor (store: ReadModelStore, arith: Arith)
      ensures this.store == store && this.arith == arith
    {
      this.store := store;
      this.arith := arith;
    }

    method Apply(event: Event) returns (err: Option<FoldError>)
      modifies store`accounts
      ensures Did(ApplyToViews(arith, Balances, old(store.State()), event), old(store.State()), store.State(), err)
    {
      var view, _ := store.GetAccount(event.stream.id);
      match event.payload {
        case AccountOpened(b) =>
          view := view.(balanceCents := b);
        case FundsDeposited(a) =>
          view := view.(balanceCents := Norm(arith, view.balanceCents + a));
        case FundsWithdrawn(a) =>
          view := view.(balanceCents := Norm(arith, view.balanceCents - a));
        case Malformed(t) =>
          return Some(if IsAccountType(t) then DecodeError else UnknownEventType);
        case _ =>
          return Some(UnknownEventType);
      }
      view := view.(version := event.version);
      store.UpsertAccount(event.stream.id, view);
      return None;
    }
  }

  class InventoryApplier {
    const store: ReadModelStore
    const arith: Arith

    constructor (store: ReadModelStore, arith: Arith)
      ensures this.store == store && this.arith == arith
    {
      this.store := store;
      this.arith := arith;
    }

    method Apply(event: Event) returns (err: Option<FoldError>)
      modifies store`inventory
      ensures Did(ApplyToViews(arith, Stock, old(store.State()), event), old(store.State()), store.State(), err)
    {
      var view, _ := store.GetInventory(event.stream.id);
      match event.payload {
        case InventoryAdjusted(d) =>
          view := view.(available := Norm(arith, view.available + d));
        case StockReserved(q) =>
          view := view.(available := Norm(arith, view.available - q));
          view := view.(reserved := Norm(arith, view.reserved + q));
        case StockReleased(q) =>
          view := view.(reserved := Norm(arith, view.reserved - q));
          view := view.(available := Norm(arith, view.available + q));
        case Malformed(t) =>
          return Some(if IsInventoryType(t) then DecodeError else UnknownEventType);
        case _ =>
          return Some(UnknownEventType);
      }
      view := view.(version := event.version);
      store.UpsertInventory(event.stream.id, view);
      return None;
    }
  }

  // --- What CatchUp achieves on a fixed log ---

  /** The first event from index c on that the projection cannot digest, or the end of the log. */
  function FirstBad(kind: Kind, log: seq<Event>, c: nat): (stop: nat)
    requires c <= |log|
    ensures c <= stop <= |log|
    ensures forall j :: c <= j < stop ==> Accepts(kind, log[j])
    ensures stop < |log| ==> !Accepts(kind, log[stop])
    decreases |log| - c
  {
    if c < |log| && Accepts(kind, log[c]) then FirstBad(kind, log, c + 1) else c
  }

  /** How many relevant events there are from index c0 up to c. */
  function RelevantCount(kind: Kind, log: seq<Event>, c0: nat, c: nat): nat
    requires c <= |log|
    decreases c
  {
    if c <= c0 then 0 else RelevantCount(kind, log, c0, c - 1) + if Relevant(kind, log[c - 1]) then 1 else 0
  }

  /** From rm0 on the projection has digested the log up to index c, applying `applied` events. */
  predicate Drained(
    arith: Arith, p: Projection, log: seq<Event>, rm0: ReadModel, c: int, rm: ReadModel, applied: nat)
  {
    var c0 := CheckpointOf(rm0, p.name);
    && 0 <= c0 <= c <= |log|
    && (forall j :: c0 <= j < c ==> Accepts(p.kind, log[j]))
    && CheckpointOf(rm, p.name) == c
    && rm == DrainTo(arith, p, log, rm0, c0, c)
    && applied == RelevantCount(p.kind, log, c0, c)
  }

  lemma DrainOneMore(
    arith: Arith, p: Projection, log: seq<Event>, rm0: ReadModel, c: int, rm: ReadModel, applied: nat)
    requires ValidLog(log) && Drained(arith, p, log, rm0, c, rm, applied) && c < |log|
    ensures var (answer, rm') := ApplyEvent(arith, p, rm, log[c]);
            && (Accepts(p.kind, log[c]) ==>
                  answer.Ok? &&
                  Drained(arith, p, log, rm0, c + 1, rm', if answer.applied then applied + 1 else applied))
            && (!Accepts(p.kind, log[c]) ==> answer.Failed? && rm' == rm)
  {
    assert Placed(log, c);
    FailsIffNotAccepted(arith, p, rm, log[c]);
  }

  /** A non-empty stretch of the log that starts at index c. */
  predicate NextStretch(log: seq<Event>, c: int, es: seq<Event>) {
    0 <= c < |log| && 0 < |es| <= |log| - c && es == log[c..c + |es|]
  }

  /** How far a CatchUp that started at rm0 has come; a checkpoint beyond the log leaves nothing to do. */
  predicate Reached(
    arith: Arith, p: Projection, log: seq<Event>, rm0: ReadModel, rm: ReadModel, applied: nat)
  {
    if CheckpointOf(rm0, p.name) > |log| then rm == rm0 && applied == 0
    else Drained(arith, p, log, rm0, CheckpointOf(rm, p.name), rm, applied)
  }

  /**
   * The result of a CatchUp on a fixed log: everything from the starting checkpoint to the first event the
   * projection cannot digest has been delivered once, in order, and the checkpoint is just below that event;
   * `applied` counts the relevant ones; it fails iff there is such an event.
   */
  predicate CaughtUp(
    arith: Arith, p: Projection, log: seq<Event>, rm0: ReadModel, rm: ReadModel, applied: nat, failed: bool)
  {
    var c0 := CheckpointOf(rm0, p.name);
    if c0 < 0 || c0 > |log| then rm == rm0 && applied == 0 && !failed
    else
      var stop := FirstBad(p.kind, log, c0);
      && (failed <==> stop < |log|)
      && CheckpointOf(rm, p.name) == stop
      && rm == DrainTo(arith, p, log, rm0, c0, stop)
      && applied == RelevantCount(p.kind, log, c0, stop)
  }

  /** A drain that has come to the first bad event, or to the end, is a finished CatchUp. */
  lemma DrainedIsCaughtUp(
    arith: Arith, p: Projection, log: seq<Event>, rm0: ReadModel, c: int, rm: ReadModel, applied: nat)
    requires Drained(arith, p, log, rm0, c, rm, applied)
    requires c < |log| ==> !Accepts(p.kind, log[c])
    ensures CaughtUp(arith, p, log, rm0, rm, applied, c < |log|)
  {
    assert c == FirstBad(p.kind, log, CheckpointOf(rm0, p.name));
  }

  lemma AllDrained(arith: Arith, p: Projection, log: seq<Event>, rm0: ReadModel, rm: ReadModel, applied: nat)
    requires Reached(arith, p, log, rm0, rm, applied) && CheckpointOf(rm, p.name) >= |log|
    ensures CaughtUp(arith, p, log, rm0, rm, applied, false)
  {
    if CheckpointOf(rm0, p.name) <= |log| {
      DrainedIsCaughtUp(arith, p, log, rm0, CheckpointOf(rm, p.name), rm, applied);
    }
  }

  class Projector {
    const name: string
    const kind: Kind
    const arith: Arith
    const store: ReadModelStore
    const accountApplier: AccountApplier
    const inventoryApplier: InventoryApplier

    function Projection(): ReadModels.Projection {
      ReadModels.Projection(name, kind)
    }

    /** The appliers write to the projector's own store. */
    ghost predicate Wired() {
      && accountApplier.store == store && accountApplier.arith == arith
      && inventoryApplier.store == store && inventoryApplier.arith == arith
    }

    constructor (name: string, kind: Kind, store: ReadModelStore, arith: Arith)
      ensures Wired() && this.store == store && Projection() == ReadModels.Projection(name, kind)
      ensures this.arith == arith
    {
      this.name := name;
      this.kind := kind;
      this.arith := arith;
      this.store := store;
      accountApplier := new AccountApplier(store, arith);
      inventoryApplier := new InventoryApplier(store, arith);
    }

    method Apply(event: Event) returns (err: Option<FoldError>)
      requires Wired()
      modifies store`accounts, store`inventory
      ensures Did(ApplyToViews(arith, kind, old(store.State()), event), old(store.State()), store.State(), err)
    {
      match kind {
        case Balances => err := accountApplier.Apply(event);
        case Stock => err := inventoryApplier.Apply(event);
      }
    }

    /** One delivery, as one transaction on the read-model store. */
    method ApplyEvent(event: Event) returns (answer: Answer)
      requires Wired() && store.Valid()
      modifies store
      ensures (answer, store.State()) == ReadModels.ApplyEvent(arith, Projection(), old(store.State()), event)
      ensures store.Valid()
    {
      var checkpoint := store.GetCheckpoint(name);
      if event.globalSeq <= checkpoint {
        return Ok(false);
      }
      var applied := false;
      if Relevant(kind, event) {
        var err := Apply(event);
        if err.Some? {
          return Failed(err.value);
        }
        applied := true;
      }
      assert forall other :: CheckpointOf(store.State(), other) == CheckpointOf(old(store.State()), other);
      store.SetCheckpoint(name, event.globalSeq);
      return Ok(applied);
    }

    /** One turn of CatchUp's inner loop: deliver the event at index c and count it if it was applied. */
    method ApplyNext(event: Event, sofar: nat, ghost log: seq<Event>, ghost rm0: ReadModel, ghost c: int)
      returns (applied: nat, err: Option<FoldError>)
      requires Wired() && store.Valid() && ValidLog(log)
      requires Drained(arith, Projection(), log, rm0, c, store.State(), sofar) && c < |log| && event == log[c]
      modifies store
      ensures store.Valid()
      ensures err.None? ==> Drained(arith, Projection(), log, rm0, c + 1, store.State(), applied)
      ensures err.Some? ==> CaughtUp(arith, Projection(), log, rm0, store.State(), applied, true)
    {
      DrainOneMore(arith, Projection(), log, rm0, c, store.State(), sofar);
      var answer := ApplyEvent(event);
      if answer.Failed? {
        DrainedIsCaughtUp(arith, Projection(), log, rm0, c, store.State(), sofar);
        return sofar, Some(answer.error);
      }
      return if answer.applied then sofar + 1 else sofar, None;
    }

    /** The inner loop of CatchUp: one page, event by event, counting on from `sofar`. */
    method ApplyPage(events: seq<Event>, sofar: nat, ghost log: seq<Event>, ghost rm0: ReadModel, ghost c: int)
      returns (applied: nat, err: Option<FoldError>)
      requires Wired() && store.Valid() && ValidLog(log)
      requires Drained(arith, Projection(), log, rm0, c, store.State(), sofar)
      requires NextStretch(log, c, events)
      modifies store
      ensures store.Valid()
      ensures err.None? ==> Drained(arith, Projection(), log, rm0, c + |events|, store.State(), applied)
      ensures err.Some? ==> CaughtUp(arith, Projection(), log, rm0, store.State(), applied, true)
    {
      applied := sofar;
      for i := 0 to |events|
        invariant store.Valid()
        invariant Drained(arith, Projection(), log, rm0, c + i, store.State(), applied)
      {
        assert events[i] == log[c + i];
        applied, err := ApplyNext(events[i], applied, log, rm0, c + i);
        if err.Some? {
          return applied, err;
        }
      }
      return applied, None;
    }

    /** What CatchUp does with a page it has loaded; `more` asks for another turn. */
    method ApplyLoaded(
      events: seq<Event>, batchSize: int, sofar: nat, ghost log: seq<Event>, ghost rm0: ReadModel)
      returns (applied: nat, err: Option<FoldError>, more: bool)
      requires Wired() && store.Valid() && ValidLog(log)
      requires Reached(arith, Projection(), log, rm0, store.State(), sofar)
      requires events == PageOf(log, CheckpointOf(store.State(), name), batchSize)
      modifies store
      ensures store.Valid()
      ensures err.Some? || !more ==> CaughtUp(arith, Projection(), log, rm0, store.State(), applied, err.Some?)
      ensures err.None? && more ==>
                && Reached(arith, Projection(), log, rm0, store.State(), applied)
                && old(CheckpointOf(store.State(), name)) < CheckpointOf(store.State(), name) <= |log|
    {
      ghost var checkpoint := CheckpointOf(store.State(), name);
      PageIsNextStretch(log, checkpoint, batchSize);
      if |events| == 0 {
        AllDrained(arith, Projection(), log, rm0, store.State(), sofar);
        return sofar, None, false;
      }
      applied, err := ApplyPage(events, sofar, log, rm0, checkpoint);
      if err.Some? {
        return applied, err, false;
      }
      if |events| < batchSize {
        AllDrained(arith, Projection(), log, rm0, store.State(), applied);
        return applied, None, false;
      }
      more := true;
    }

    /** One turn of CatchUp's outer loop: read the checkpoint, load a page, apply it. */
    method CatchUpPage(source: MemoryStore, batchSize: int, sofar: nat, ghost rm0: ReadModel)
      returns (applied: nat, err: Option<FoldError>, more: bool)
      requires Wired() && store.Valid() && source.Valid()
      requires Reached(arith, Projection(), source.events, rm0, store.State(), sofar)
      modifies store
      ensures store.Valid()
      ensures err.Some? || !more ==>
                CaughtUp(arith, Projection(), source.events, rm0, store.State(), applied, err.Some?)
      ensures err.None? && more ==>
                && Reached(arith, Projection(), source.events, rm0, store.State(), applied)
                && old(CheckpointOf(store.State(), name)) < CheckpointOf(store.State(), name) <= |source.events|
    {
      var checkpoint := store.GetCheckpoint(name);
      var events := source.LoadSince(checkpoint, batchSize);
      applied, err, more := ApplyLoaded(events, batchSize, sofar, source.events, rm0);
    }

    /**
     * Pull everything beyond the checkpoint, page by page. It ends for every batch size, and what it does
     * to the read model, what it counts and whether it fails do not depend on the batch size.
     */
    method CatchUp(source: MemoryStore, batchSize: int) returns (applied: nat, err: Option<FoldError>)
      requires Wired() && store.Valid() && source.Valid()
      modifies store
      ensures store.Valid()
      ensures CaughtUp(arith, Projection(), source.events, old(store.State()), store.State(), applied, err.Some?)
    {
      applied := 0;
      ghost var rm0 := store.State();
      while true
        invariant store.Valid()
        invariant Reached(arith, Projection(), source.events, rm0, store.State(), applied)
        decreases |source.events| - CheckpointOf(store.State(), name)
      {
        var more;
        applied, err, more := CatchUpPage(source, batchSize, applied, rm0);
        if err.Some? || !more {
          return applied, err;
        }
      }
    }

    /** How far the projection is behind; never negative. */
    method Lag(latestGlobalSeq: int) returns (lag: int)
      ensures lag >= 0
      ensures lag == 0 <==> latestGlobalSeq <= CheckpointOf(store.State(), name)
      ensures lag > 0 ==> CheckpointOf(store.State(), name) + lag == latestGlobalSeq
    {
      var checkpoint := store.GetCheckpoint(name);
      lag := latestGlobalSeq - checkpoint;
      if lag < 0 {
        lag := 0;
      }
    }

    method Checkpoint() returns (checkpoint: int)
      ensures checkpoint == CheckpointOf(store.State(), name)
    {
      checkpoint := store.GetCheckpoint(name);
    }
  }

  /**
   * CatchUp brings a read model that is in step to the end of the log, or to just below the first event it
   * cannot digest, and the views are the direct folds of the log up to there.
   */
  lemma CatchUpKeepsInStep(
    arith: Arith, p: Projection, log: seq<Event>, rm0: ReadModel, rm: ReadModel, applied: nat, failed: bool)
    requires ValidLog(log) && InStep(arith, p, rm0, log) && CaughtUp(arith, p, log, rm0, rm, applied, failed)
    ensures InStep(arith, p, rm, log)
    ensures CheckpointOf(rm, p.name) == FirstBad(p.kind, log, CheckpointOf(rm0, p.name))
    ensures failed <==> CheckpointOf(rm, p.name) < |log|
    ensures failed ==> !Accepts(p.kind, log[CheckpointOf(rm, p.name)])
  {
    DrainStaysInStep(arith, p, rm0, log, CheckpointOf(rm, p.name));
  }
}
