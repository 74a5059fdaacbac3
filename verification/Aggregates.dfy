/** The two aggregates: folded state, the pure decision rules, and the replay loops (state.go, decide.go). */
module Aggregates {
  import opened Events
  import opened Int64

  datatype AccountState = AccountState(version: int, isOpen: bool, balanceCents: int)
  datatype InventoryState = InventoryState(version: int, available: int, reserved: int)

  const EMPTY_ACCOUNT := AccountState(0, false, 0)
  const EMPTY_ITEM := InventoryState(0, 0, 0)

  datatype FoldError = DecodeError | UnknownEventType

  datatype LedgerError =
    | InvalidAmount
    | InvalidQuantity
    | AccountAlreadyOpened
    | AccountNotOpen
    | InsufficientFunds
    | InsufficientStock
    | SameAccountTransfer

  // --- Decision rules ---

  function DecideOpenAccount(st: AccountState, initialBalanceCents: int): Result<Payload, LedgerError> {
    if st.isOpen then Failure(AccountAlreadyOpened)
    else if initialBalanceCents < 0 then Failure(InvalidAmount)
    else Success(AccountOpened(initialBalanceCents))
  }

  function DecideDeposit(st: AccountState, amountCents: int): Result<Payload, LedgerError> {
    if !st.isOpen then Failure(AccountNotOpen)
    else if amountCents <= 0 then Failure(InvalidAmount)
    else Success(FundsDeposited(amountCents))
  }

  function DecideWithdraw(st: AccountState, amountCents: int): Result<Payload, LedgerError> {
    if !st.isOpen then Failure(AccountNotOpen)
    else if amountCents <= 0 then Failure(InvalidAmount)
    else if amountCents > st.balanceCents then Failure(InsufficientFunds)
    else Success(FundsWithdrawn(amountCents))
  }

  function DecideAdjustInventory(arith: Arith, st: InventoryState, delta: int): Result<Payload, LedgerError> {
    if delta == 0 then Failure(InvalidQuantity)
    else if delta < 0 && Norm(arith, st.available + delta) < 0 then Failure(InsufficientStock)
    else Success(InventoryAdjusted(delta))
  }

  function DecideReserveStock(st: InventoryState, quantity: int): Result<Payload, LedgerError> {
    if quantity <= 0 then Failure(InvalidQuantity)
    else if quantity > st.available then Failure(InsufficientStock)
    else Success(StockReserved(quantity))
  }

  function DecideReleaseStock(st: InventoryState, quantity: int): Result<Payload, LedgerError> {
    if quantity <= 0 then Failure(InvalidQuantity)
    else if quantity > st.reserved then Failure(InsufficientStock)
    else Success(StockReleased(quantity))
  }

  // --- Folds ---

  predicate IsAccountType(t: EventType) {
    t.TypeAccountOpened? || t.TypeFundsDeposited? || t.TypeFundsWithdrawn?
  }

  predicate IsInventoryType(t: EventType) {
    t.TypeInventoryAdjusted? || t.TypeStockReserved? || t.TypeStockReleased?
  }

  function AccountStep(arith: Arith, st: AccountState, e: Event): Result<AccountState, FoldError> {
    match e.payload
    case AccountOpened(b) => Success(AccountState(e.version, true, b))
    case FundsDeposited(a) => Success(AccountState(e.version, st.isOpen, Norm(arith, st.balanceCents + a)))
    case FundsWithdrawn(a) => Success(AccountState(e.version, st.isOpen, Norm(arith, st.balanceCents - a)))
    case Malformed(t) => Failure(if IsAccountType(t) then DecodeError else UnknownEventType)
    case _ => Failure(UnknownEventType)
  }

  function InventoryStep(arith: Arith, st: InventoryState, e: Event): Result<InventoryState, FoldError> {
    match e.payload
    case InventoryAdjusted(d) => Success(InventoryState(e.version, Norm(arith, st.available + d), st.reserved))
    case StockReserved(q) =>
      Success(InventoryState(e.version, Norm(arith, st.available - q), Norm(arith, st.reserved + q)))
    case StockReleased(q) =>
      Success(InventoryState(e.version, Norm(arith, st.available + q), Norm(arith, st.reserved - q)))
    case Malformed(t) => Failure(if IsInventoryType(t) then DecodeError else UnknownEventType)
    case _ => Failure(UnknownEventType)
  }

  function AccountThen(arith: Arith, r: Result<AccountState, FoldError>, e: Event): Result<AccountState, FoldError> {
    match r
    case Success(st) => AccountStep(arith, st, e)
    case Failure(err) => Failure(err)
  }

  /** The meaning of an account stream: replay all but the last event, then the last one. */
  function FoldAccount(arith: Arith, events: seq<Event>): Result<AccountState, FoldError> {
    if events == [] then Success(EMPTY_ACCOUNT)
    else AccountThen(arith, FoldAccount(arith, events[..|events| - 1]), events[|events| - 1])
  }

  function InventoryThen(arith: Arith, r: Result<InventoryState, FoldError>, e: Event)
    : Result<InventoryState, FoldError>
  {
    match r
    case Success(st) => InventoryStep(arith, st, e)
    case Failure(err) => Failure(err)
  }

  function FoldInventory(arith: Arith, events: seq<Event>): Result<InventoryState, FoldError> {
    if events == [] then Success(EMPTY_ITEM)
    else InventoryThen(arith, FoldInventory(arith, events[..|events| - 1]), events[|events| - 1])
  }

  lemma {:induction false} FoldAccountFailureSticks(arith: Arith, events: seq<Event>, n: nat)
    requires n <= |events| && FoldAccount(arith, events[..n]).Failure?
    ensures FoldAccount(arith, events) == FoldAccount(arith, events[..n])
    decreases |events|
  {
    if n == |events| {
      assert events[..n] == events;
    } else {
      var init := events[..|events| - 1];
      assert init[..n] == events[..n];
      FoldAccountFailureSticks(arith, init, n);
    }
  }

  lemma {:induction false} FoldInventoryFailureSticks(arith: Arith, events: seq<Event>, n: nat)
    requires n <= |events| && FoldInventory(arith, events[..n]).Failure?
    ensures FoldInventory(arith, events) == FoldInventory(arith, events[..n])
    decreases |events|
  {
    if n == |events| {
      assert events[..n] == events;
    } else {
      var init := events[..|events| - 1];
      assert init[..n] == events[..n];
      FoldInventoryFailureSticks(arith, init, n);
    }
  }

  /** An event an account replay understands: one of the three account types, with bytes that decode. */
  predicate AccountEventKnown(e: Event) {
    e.payload.AccountOpened? || e.payload.FundsDeposited? || e.payload.FundsWithdrawn?
  }

  /** An event an inventory replay understands. */
  predicate ItemEventKnown(e: Event) {
    e.payload.InventoryAdjusted? || e.payload.StockReserved? || e.payload.StockReleased?
  }

  /** An account replay succeeds iff it understands every event. */
  lemma {:induction false} FoldAccountSucceedsIff(arith: Arith, events: seq<Event>)
    ensures FoldAccount(arith, events).Success? <==> forall i :: 0 <= i < |events| ==> AccountEventKnown(events[i])
    decreases |events|
  {
    if events != [] {
      var n := |events| - 1;
      FoldAccountSucceedsIff(arith, events[..n]);
      assert forall i :: 0 <= i < n ==> events[..n][i] == events[i];
      assert AccountEventKnown(events[n]) <==> AccountStep(arith, EMPTY_ACCOUNT, events[n]).Success?;
    }
  }

  lemma {:induction false} FoldInventorySucceedsIff(arith: Arith, events: seq<Event>)
    ensures FoldInventory(arith, events).Success? <==> forall i :: 0 <= i < |events| ==> ItemEventKnown(events[i])
    decreases |events|
  {
    if events != [] {
      var n := |events| - 1;
      FoldInventorySucceedsIff(arith, events[..n]);
      assert forall i :: 0 <= i < n ==> events[..n][i] == events[i];
      assert ItemEventKnown(events[n]) <==> InventoryStep(arith, EMPTY_ITEM, events[n]).Success?;
    }
  }

  /**
   * The first event an account replay does not understand decides its error: a decode error if the event is of
   * one of the account's own types, an unknown type otherwise, whatever comes after it.
   */
  lemma FoldAccountError(arith: Arith, events: seq<Event>, i: nat)
    requires i < |events| && !AccountEventKnown(events[i])
    requires forall j :: 0 <= j < i ==> AccountEventKnown(events[j])
    ensures FoldAccount(arith, events).Failure?
    ensures FoldAccount(arith, events).error == DecodeError <==>
            && events[i].payload.Malformed?
            && (|| events[i].payload.eventType == TypeAccountOpened
                || events[i].payload.eventType == TypeFundsDeposited
                || events[i].payload.eventType == TypeFundsWithdrawn)
  {
    FoldAccountSucceedsIff(arith, events[..i]);
    FoldAccountNext(arith, events, i);
    FoldAccountFailureSticks(arith, events, i + 1);
  }

  lemma FoldInventoryError(arith: Arith, events: seq<Event>, i: nat)
    requires i < |events| && !ItemEventKnown(events[i])
    requires forall j :: 0 <= j < i ==> ItemEventKnown(events[j])
    ensures FoldInventory(arith, events).Failure?
    ensures FoldInventory(arith, events).error == DecodeError <==>
            && events[i].payload.Malformed?
            && (|| events[i].payload.eventType == TypeInventoryAdjusted
                || events[i].payload.eventType == TypeStockReserved
                || events[i].payload.eventType == TypeStockReleased)
  {
    FoldInventorySucceedsIff(arith, events[..i]);
    FoldInventoryNext(arith, events, i);
    FoldInventoryFailureSticks(arith, events, i + 1);
  }

  lemma FoldAccountSnoc(arith: Arith, events: seq<Event>, e: Event)
    ensures FoldAccount(arith, events + [e]) == AccountThen(arith, FoldAccount(arith, events), e)
  {
    assert (events + [e])[..|events + [e]| - 1] == events;
  }

  lemma FoldInventorySnoc(arith: Arith, events: seq<Event>, e: Event)
    ensures FoldInventory(arith, events + [e]) == InventoryThen(arith, FoldInventory(arith, events), e)
  {
    assert (events + [e])[..|events + [e]| - 1] == events;
  }

  lemma FoldAccountNext(arith: Arith, events: seq<Event>, i: nat)
    requires i < |events|
    ensures FoldAccount(arith, events[..i + 1]) == AccountThen(arith, FoldAccount(arith, events[..i]), events[i])
  {
    assert events[..i + 1][..i] == events[..i];
  }

  lemma FoldInventoryNext(arith: Arith, events: seq<Event>, i: nat)
    requires i < |events|
    ensures FoldInventory(arith, events[..i + 1]) == InventoryThen(arith, FoldInventory(arith, events[..i]), events[i])
  {
    assert events[..i + 1][..i] == events[..i];
  }

  /** A fold that succeeds reports the version of the last event it replayed. */
  lemma FoldReportsLastVersion(arith: Arith, events: seq<Event>)
    ensures events != [] && FoldAccount(arith, events).Success? ==>
              FoldAccount(arith, events).value.version == events[|events| - 1].version
    ensures events != [] && FoldInventory(arith, events).Success? ==>
              FoldInventory(arith, events).value.version == events[|events| - 1].version
  {
  }

  /** The body of the account replay loop: one event updates the local state, or stops the replay. */
  method ReplayAccountEvent(arith: Arith, st0: AccountState, e: Event) returns (r: Result<AccountState, FoldError>)
    ensures r == AccountStep(arith, st0, e)
  {
    var st := st0.(version := e.version);
    match e.payload {
      case AccountOpened(b) =>
        st := st.(isOpen := true, balanceCents := b);
      case FundsDeposited(a) =>
        st := st.(balanceCents := Norm(arith, st.balanceCents + a));
      case FundsWithdrawn(a) =>
        st := st.(balanceCents := Norm(arith, st.balanceCents - a));
      case Malformed(t) =>
        return Failure(if IsAccountType(t) then DecodeError else UnknownEventType);
      case _ =>
        return Failure(UnknownEventType);
    }
    return Success(st);
  }

  /** Replays an account's events in order, updating the local state and stopping at the first bad one. */
  method ReplayAccount(arith: Arith, events: seq<Event>) returns (r: Result<AccountState, FoldError>)
    ensures r == FoldAccount(arith, events)
  {
    var st := EMPTY_ACCOUNT;
    for i := 0 to |events|
      invariant FoldAccount(arith, events[..i]) == Success(st)
    {
      FoldAccountNext(arith, events, i);
      var next := ReplayAccountEvent(arith, st, events[i]);
      if next.Failure? {
        FoldAccountFailureSticks(arith, events, i + 1);
        return next;
      }
      st := next.value;
    }
    assert events[..|events|] == events;
    return Success(st);
  }

  /** The body of the inventory replay loop: one event updates the local state, or stops the replay. */
  method ReplayInventoryEvent(arith: Arith, st0: InventoryState, e: Event)
    returns (r: Result<InventoryState, FoldError>)
    ensures r == InventoryStep(arith, st0, e)
  {
    var st := st0.(version := e.version);
    match e.payload {
      case InventoryAdjusted(d) =>
        st := st.(available := Norm(arith, st.available + d));
      case StockReserved(q) =>
        st := st.(available := Norm(arith, st.available - q));
        st := st.(reserved := Norm(arith, st.reserved + q));
      case StockReleased(q) =>
        st := st.(reserved := Norm(arith, st.reserved - q));
        st := st.(available := Norm(arith, st.available + q));
      case Malformed(t) =>
        return Failure(if IsInventoryType(t) then DecodeError else UnknownEventType);
      case _ =>
        return Failure(UnknownEventType);
    }
    return Success(st);
  }

  /** Replays an item's events in order, updating the local state and stopping at the first bad one. */
  method ReplayInventory(arith: Arith, events: seq<Event>) returns (r: Result<InventoryState, FoldError>)
    ensures r == FoldInventory(arith, events)
  {
    var st := EMPTY_ITEM;
    for i := 0 to |events|
      invariant FoldInventory(arith, events[..i]) == Success(st)
    {
      FoldInventoryNext(arith, events, i);
      var next := ReplayInventoryEvent(arith, st, events[i]);
      if next.Failure? {
        FoldInventoryFailureSticks(arith, events, i + 1);
        return next;
      }
      st := next.value;
    }
    assert events[..|events|] == events;
    return Success(st);
  }
}
