/** The CQRS read side: materialized views behind a checkpoint, and one delivery as one atomic step. */
module ReadModels {
  import opened Events
  import opened Int64
  import opened Aggregates
  import opened EventLog

  datatype AccountView = AccountView(balanceCents: int, version: int)
  datatype InventoryView = InventoryView(available: int, reserved: int, version: int)

  /** The value Go's map read gives for an account or item that has no view yet. */
  const NO_ACCOUNT_VIEW := AccountView(0, 0)
  const NO_ITEM_VIEW := InventoryView(0, 0, 0)

  datatype ReadModel = ReadModel(
    accounts: map<string, AccountView>, inventory: map<string, InventoryView>, checkpoints: map<string, int>)

  const EMPTY_READ_MODEL := ReadModel(map[], map[], map[])

  datatype Kind = Balances | Stock

  /** A named consumer of the log and the applier it uses. */
  datatype Projection = Projection(name: string, kind: Kind)

  function CheckpointOf(rm: ReadModel, name: string): int {
    if name in rm.checkpoints then rm.checkpoints[name] else 0
  }

  /** SetCheckpoint never moves a checkpoint backwards. */
  function Advance(rm: ReadModel, name: string, globalSeq: int): ReadModel {
    if globalSeq > CheckpointOf(rm, name) then rm.(checkpoints := rm.checkpoints[name := globalSeq]) else rm
  }

  predicate Relevant(kind: Kind, e: Event) {
    match kind
    case Balances => e.stream.kind.Account?
    case Stock => e.stream.kind.InventoryItem?
  }

  function AccountViewOf(rm: ReadModel, id: string): AccountView {
    if id in rm.accounts then rm.accounts[id] else NO_ACCOUNT_VIEW
  }

  function ItemViewOf(rm: ReadModel, id: string): InventoryView {
    if id in rm.inventory then rm.inventory[id] else NO_ITEM_VIEW
  }

  /** AccountApplier.Apply on one view. */
  function ApplyToAccount(arith: Arith, v: AccountView, e: Event): Result<AccountView, FoldError> {
    match e.payload
    case AccountOpened(b) => Success(AccountView(b, e.version))
    case FundsDeposited(a) => Success(AccountView(Norm(arith, v.balanceCents + a), e.version))
    case FundsWithdrawn(a) => Success(AccountView(Norm(arith, v.balanceCents - a), e.version))
    case Malformed(t) => Failure(if IsAccountType(t) then DecodeError else UnknownEventType)
    case _ => Failure(UnknownEventType)
  }

  /** InventoryApplier.Apply on one view. */
  function ApplyToItem(arith: Arith, v: InventoryView, e: Event): Result<InventoryView, FoldError> {
    match e.payload
    case InventoryAdjusted(d) => Success(InventoryView(Norm(arith, v.available + d), v.reserved, e.version))
    case StockReserved(q) =>
      Success(InventoryView(Norm(arith, v.available - q), Norm(arith, v.reserved + q), e.version))
    case StockReleased(q) =>
      Success(InventoryView(Norm(arith, v.available + q), Norm(arith, v.reserved - q), e.version))
    case Malformed(t) => Failure(if IsInventoryType(t) then DecodeError else UnknownEventType)
    case _ => Failure(UnknownEventType)
  }

  /** Fold one relevant event into the views. */
  function ApplyToViews(arith: Arith, kind: Kind, rm: ReadModel, e: Event): Result<ReadModel, FoldError> {
    match kind
    case Balances =>
      (match ApplyToAccount(arith, AccountViewOf(rm, e.stream.id), e)
       case Success(v) => Success(rm.(accounts := rm.accounts[e.stream.id := v]))
       case Failure(err) => Failure(err))
    case Stock =>
      (match ApplyToItem(arith, ItemViewOf(rm, e.stream.id), e)
       case Success(v) => Success(rm.(inventory := rm.inventory[e.stream.id := v]))
       case Failure(err) => Failure(err))
  }

  /** What ApplyEvent answers: `Ok(true)` if it changed a view, `Ok(false)` if it only skipped or advanced. */
  datatype Answer = Ok(applied: bool) | Failed(error: FoldError)

  /** One delivery, as the critical section it is. */
  function ApplyEvent(arith: Arith, p: Projection, rm: ReadModel, e: Event): (Answer, ReadModel) {
    if e.globalSeq <= CheckpointOf(rm, p.name) then (Ok(false), rm)
    else if !Relevant(p.kind, e) then (Ok(false), Advance(rm, p.name, e.globalSeq))
    else
      match ApplyToViews(arith, p.kind, rm, e)
      case Success(rm') => (Ok(true), Advance(rm', p.name, e.globalSeq))
      case Failure(err) => (Failed(err), rm)
  }

  /** Events the projection can digest: irrelevant ones, and relevant ones that decode. */
  predicate Accepts(kind: Kind, e: Event) {
    Relevant(kind, e) ==>
      match kind
      case Balances => e.payload.AccountOpened? || e.payload.FundsDeposited? || e.payload.FundsWithdrawn?
      case Stock => e.payload.InventoryAdjusted? || e.payload.StockReserved? || e.payload.StockReleased?
  }

  /** Whether a delivery fails does not depend on the state of the views. */
  lemma FailsIffNotAccepted(arith: Arith, p: Projection, rm: ReadModel, e: Event)
    ensures ApplyEvent(arith, p, rm, e).0.Failed? <==>
            e.globalSeq > CheckpointOf(rm, p.name) && !Accepts(p.kind, e)
    ensures ApplyEvent(arith, p, rm, e).0.Failed? ==> ApplyEvent(arith, p, rm, e).1 == rm
    ensures CheckpointOf(ApplyEvent(arith, p, rm, e).1, p.name) ==
            if e.globalSeq > CheckpointOf(rm, p.name) && Accepts(p.kind, e) then e.globalSeq
            else CheckpointOf(rm, p.name)
  {
  }

  // --- What the views mean ---

  /** What a view shows of a folded account: the projection does not keep whether it is open. */
  function ShowAccount(st: AccountState): AccountView {
    AccountView(st.balanceCents, st.version)
  }

  function ShowItem(st: InventoryState): InventoryView {
    InventoryView(st.available, st.reserved, st.version)
  }

  /** The account has a view iff it has events, and the view shows their fold. */
  predicate AccountViewFits(arith: Arith, rm: ReadModel, events: seq<Event>, id: string) {
    && (id in rm.accounts <==> events != [])
    && FoldAccount(arith, events).Success?
    && AccountViewOf(rm, id) == ShowAccount(FoldAccount(arith, events).value)
  }

  predicate ItemViewFits(arith: Arith, rm: ReadModel, events: seq<Event>, id: string) {
    && (id in rm.inventory <==> events != [])
    && FoldInventory(arith, events).Success?
    && ItemViewOf(rm, id) == ShowItem(FoldInventory(arith, events).value)
  }

  /**
   * The projection's views are exactly the direct folds of the events in `done`: a view exists iff its
   * stream has an event in `done`, and then it holds that stream's fold.
   */
  ghost predicate ViewsFold(arith: Arith, kind: Kind, rm: ReadModel, done: seq<Event>) {
    match kind
    case Balances => forall id :: AccountViewFits(arith, rm, StreamOf(done, AccountKey(id)), id)
    case Stock => forall id :: ItemViewFits(arith, rm, StreamOf(done, ItemKey(id)), id)
  }

  lemma EmptyViewsFold(arith: Arith, kind: Kind)
    ensures ViewsFold(arith, kind, EMPTY_READ_MODEL, [])
  {
  }

  /** Checkpoints of other consumers and of this one are no part of the views. */
  lemma AdvanceKeepsViews(arith: Arith, kind: Kind, rm: ReadModel, done: seq<Event>, name: string, globalSeq: int)
    requires ViewsFold(arith, kind, rm, done)
    ensures ViewsFold(arith, kind, Advance(rm, name, globalSeq), done)
  {
    var rm' := Advance(rm, name, globalSeq);
    match kind {
      case Balances =>
        forall id ensures AccountViewFits(arith, rm', StreamOf(done, AccountKey(id)), id) {
          assert AccountViewFits(arith, rm, StreamOf(done, AccountKey(id)), id);
        }
      case Stock =>
        forall id ensures ItemViewFits(arith, rm', StreamOf(done, ItemKey(id)), id) {
          assert ItemViewFits(arith, rm, StreamOf(done, ItemKey(id)), id);
        }
    }
  }

  /** One Apply on a view that shows a folded account shows the next folded account. */
  lemma AccountApplyFollows(arith: Arith, st: AccountState, e: Event)
    requires Relevant(Balances, e) && Accepts(Balances, e)
    ensures AccountStep(arith, st, e).Success?
    ensures ApplyToAccount(arith, ShowAccount(st), e) == Success(ShowAccount(AccountStep(arith, st, e).value))
  {
  }

  lemma ItemApplyFollows(arith: Arith, st: InventoryState, e: Event)
    requires Relevant(Stock, e) && Accepts(Stock, e)
    ensures InventoryStep(arith, st, e).Success?
    ensures ApplyToItem(arith, ShowItem(st), e) == Success(ShowItem(InventoryStep(arith, st, e).value))
  {
  }

  /** An Apply fails iff the fold would on the same event, and with the same error. */
  lemma AccountApplyFailsAsFold(arith: Arith, st: AccountState, e: Event)
    ensures ApplyToAccount(arith, ShowAccount(st), e).Failure? <==> AccountStep(arith, st, e).Failure?
    ensures ApplyToAccount(arith, ShowAccount(st), e).Failure? ==>
              ApplyToAccount(arith, ShowAccount(st), e).error == AccountStep(arith, st, e).error
  {
  }

  lemma ItemApplyFailsAsFold(arith: Arith, st: InventoryState, e: Event)
    ensures ApplyToItem(arith, ShowItem(st), e).Failure? <==> InventoryStep(arith, st, e).Failure?
    ensures ApplyToItem(arith, ShowItem(st), e).Failure? ==>
              ApplyToItem(arith, ShowItem(st), e).error == InventoryStep(arith, st, e).error
  {
  }

  /** A delivery that fails answers the error that replaying the event's own stream would give. */
  lemma FailedDeliveryAnswersFoldError(arith: Arith, p: Projection, rm: ReadModel, done: seq<Event>, e: Event)
    requires ViewsFold(arith, p.kind, rm, done) && ApplyEvent(arith, p, rm, e).0.Failed?
    ensures p.kind.Balances? ==>
              FoldAccount(arith, StreamOf(done + [e], e.stream)) == Failure(ApplyEvent(arith, p, rm, e).0.error)
    ensures p.kind.Stock? ==>
              FoldInventory(arith, StreamOf(done + [e], e.stream)) == Failure(ApplyEvent(arith, p, rm, e).0.error)
  {
    StreamOfSnoc(done, e, e.stream);
    var events := StreamOf(done, e.stream);
    match p.kind {
      case Balances =>
        assert e.stream == AccountKey(e.stream.id);
        assert AccountViewFits(arith, rm, events, e.stream.id);
        AccountApplyFailsAsFold(arith, FoldAccount(arith, events).value, e);
        FoldAccountSnoc(arith, events, e);
      case Stock =>
        assert e.stream == ItemKey(e.stream.id);
        assert ItemViewFits(arith, rm, events, e.stream.id);
        ItemApplyFailsAsFold(arith, FoldInventory(arith, events).value, e);
        FoldInventorySnoc(arith, events, e);
    }
  }

  /** The incremental account view follows FoldAccount event by event. */
  lemma OwnAccountViewFollows(arith: Arith, rm: ReadModel, events: seq<Event>, e: Event)
    requires AccountViewFits(arith, rm, events, e.stream.id)
    requires Relevant(Balances, e) && Accepts(Balances, e)
    ensures ApplyToViews(arith, Balances, rm, e).Success?
    ensures AccountViewFits(arith, ApplyToViews(arith, Balances, rm, e).value, events + [e], e.stream.id)
  {
    AccountApplyFollows(arith, FoldAccount(arith, events).value, e);
    FoldAccountSnoc(arith, events, e);
  }

  lemma OwnItemViewFollows(arith: Arith, rm: ReadModel, events: seq<Event>, e: Event)
    requires ItemViewFits(arith, rm, events, e.stream.id)
    requires Relevant(Stock, e) && Accepts(Stock, e)
    ensures ApplyToViews(arith, Stock, rm, e).Success?
    ensures ItemViewFits(arith, ApplyToViews(arith, Stock, rm, e).value, events + [e], e.stream.id)
  {
    ItemApplyFollows(arith, FoldInventory(arith, events).value, e);
    FoldInventorySnoc(arith, events, e);
  }

  /** Applying an event leaves every view but that of its own stream alone. */
  lemma OtherViewsStay(arith: Arith, kind: Kind, rm: ReadModel, e: Event, events: seq<Event>, id: string)
    requires ApplyToViews(arith, kind, rm, e).Success? && id != e.stream.id
    ensures var rm' := ApplyToViews(arith, kind, rm, e).value;
            && (AccountViewFits(arith, rm, events, id) ==> AccountViewFits(arith, rm', events, id))
            && (ItemViewFits(arith, rm, events, id) ==> ItemViewFits(arith, rm', events, id))
  {
  }

  /** An event of another stream adds nothing to this one. */
  lemma StreamSkips(done: seq<Event>, e: Event, k: StreamKey)
    requires e.stream != k
    ensures StreamOf(done + [e], k) == StreamOf(done, k)
  {
    StreamOfSnoc(done, e, k);
    assert StreamOf(done, k) + [] == StreamOf(done, k);
  }

  lemma AccountViewsFollow(arith: Arith, rm: ReadModel, done: seq<Event>, e: Event)
    requires ViewsFold(arith, Balances, rm, done) && Relevant(Balances, e) && Accepts(Balances, e)
    ensures ApplyToViews(arith, Balances, rm, e).Success?
    ensures ViewsFold(arith, Balances, ApplyToViews(arith, Balances, rm, e).value, done + [e])
  {
    assert e.stream == AccountKey(e.stream.id);
    StreamOfSnoc(done, e, e.stream);
    OwnAccountViewFollows(arith, rm, StreamOf(done, e.stream), e);
    var rm' := ApplyToViews(arith, Balances, rm, e).value;
    forall id ensures AccountViewFits(arith, rm', StreamOf(done + [e], AccountKey(id)), id) {
      if id != e.stream.id {
        StreamSkips(done, e, AccountKey(id));
        OtherViewsStay(arith, Balances, rm, e, StreamOf(done, AccountKey(id)), id);
      }
    }
  }

  lemma ItemViewsFollow(arith: Arith, rm: ReadModel, done: seq<Event>, e: Event)
    requires ViewsFold(arith, Stock, rm, done) && Relevant(Stock, e) && Accepts(Stock, e)
    ensures ApplyToViews(arith, Stock, rm, e).Success?
    ensures ViewsFold(arith, Stock, ApplyToViews(arith, Stock, rm, e).value, done + [e])
  {
    assert e.stream == ItemKey(e.stream.id);
    StreamOfSnoc(done, e, e.stream);
    OwnItemViewFollows(arith, rm, StreamOf(done, e.stream), e);
    var rm' := ApplyToViews(arith, Stock, rm, e).value;
    forall id ensures ItemViewFits(arith, rm', StreamOf(done + [e], ItemKey(id)), id) {
      if id != e.stream.id {
        StreamSkips(done, e, ItemKey(id));
        OtherViewsStay(arith, Stock, rm, e, StreamOf(done, ItemKey(id)), id);
      }
    }
  }

  lemma IrrelevantKeepsViews(arith: Arith, kind: Kind, rm: ReadModel, done: seq<Event>, e: Event)
    requires ViewsFold(arith, kind, rm, done) && !Relevant(kind, e)
    ensures ViewsFold(arith, kind, rm, done + [e])
  {
    match kind {
      case Balances =>
        forall id ensures AccountViewFits(arith, rm, StreamOf(done + [e], AccountKey(id)), id) {
          StreamSkips(done, e, AccountKey(id));
        }
      case Stock =>
        forall id ensures ItemViewFits(arith, rm, StreamOf(done + [e], ItemKey(id)), id) {
          StreamSkips(done, e, ItemKey(id));
        }
    }
  }

  /** One delivery above the checkpoint extends what the views stand for by exactly that event. */
  lemma DeliveryFollows(arith: Arith, p: Projection, rm: ReadModel, done: seq<Event>, e: Event)
    requires ViewsFold(arith, p.kind, rm, done)
    ensures var rm' := ApplyEvent(arith, p, rm, e).1;
            ViewsFold(arith, p.kind, rm',
                      if e.globalSeq > CheckpointOf(rm, p.name) && Accepts(p.kind, e) then done + [e] else done)
  {
    FailsIffNotAccepted(arith, p, rm, e);
    if e.globalSeq > CheckpointOf(rm, p.name) && Accepts(p.kind, e) {
      if Relevant(p.kind, e) {
        match p.kind {
          case Balances => AccountViewsFollow(arith, rm, done, e);
          case Stock => ItemViewsFollow(arith, rm, done, e);
        }
        AdvanceKeepsViews(arith, p.kind, ApplyToViews(arith, p.kind, rm, e).value, done + [e], p.name, e.globalSeq);
      } else {
        IrrelevantKeepsViews(arith, p.kind, rm, done, e);
        AdvanceKeepsViews(arith, p.kind, rm, done + [e], p.name, e.globalSeq);
      }
    }
  }
}
