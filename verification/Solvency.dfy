/** Account streams are well formed in every run; balances and stock never go negative in pin-safe runs. */
module Solvency {
  import opened Events
  import opened Int64
  import opened Aggregates
  import opened EventLog
  import opened Commands
  import opened Protocol
  import opened ClientInvariant
  import opened History
  import opened Refinement

  // --- One stream ---

  /** AccountOpened exactly once, first; after it only deposits and withdrawals of positive amounts. */
  predicate AccountShape(events: seq<Event>) {
    forall j :: 0 <= j < |events| ==> AccountEventFits(events[j], j == 0)
  }

  predicate AccountEventFits(e: Event, first: bool) {
    if first then e.payload.AccountOpened? && e.payload.initialBalanceCents >= 0
    else
      || (e.payload.FundsDeposited? && e.payload.amountCents > 0)
      || (e.payload.FundsWithdrawn? && e.payload.amountCents > 0)
  }

  /** Adjustments, and reservations and releases of positive quantities. */
  predicate ItemShape(events: seq<Event>) {
    forall j :: 0 <= j < |events| ==> ItemEventFits(events[j])
  }

  predicate ItemEventFits(e: Event) {
    || e.payload.InventoryAdjusted?
    || (e.payload.StockReserved? && e.payload.quantity > 0)
    || (e.payload.StockReleased? && e.payload.quantity > 0)
  }

  /** The signed amount an event adds to its account. */
  function Credit(p: Payload): int {
    match p
    case AccountOpened(b) => b
    case FundsDeposited(a) => a
    case FundsWithdrawn(a) => -a
    case _ => 0
  }

  function Credits(events: seq<Event>): int {
    if events == [] then 0 else Credits(events[..|events| - 1]) + Credit(events[|events| - 1].payload)
  }

  function AvailableDelta(p: Payload): int {
    match p
    case InventoryAdjusted(d) => d
    case StockReserved(q) => -q
    case StockReleased(q) => q
    case _ => 0
  }

  function ReservedDelta(p: Payload): int {
    match p
    case StockReserved(q) => q
    case StockReleased(q) => -q
    case _ => 0
  }

  function AdjustedDelta(p: Payload): int {
    if p.InventoryAdjusted? then p.deltaQuantity else 0
  }

  function Available(events: seq<Event>): int {
    if events == [] then 0 else Available(events[..|events| - 1]) + AvailableDelta(events[|events| - 1].payload)
  }

  function Reserved(events: seq<Event>): int {
    if events == [] then 0 else Reserved(events[..|events| - 1]) + ReservedDelta(events[|events| - 1].payload)
  }

  /** The sum of all InventoryAdjusted deltas. */
  function Adjusted(events: seq<Event>): int {
    if events == [] then 0 else Adjusted(events[..|events| - 1]) + AdjustedDelta(events[|events| - 1].payload)
  }

  /** No moment in the stream's life has a negative balance. */
  predicate NeverNegative(events: seq<Event>) {
    forall j :: 0 <= j <= |events| ==> Credits(events[..j]) >= 0
  }

  predicate NeverShort(events: seq<Event>) {
    forall j :: 0 <= j <= |events| ==> Available(events[..j]) >= 0 && Reserved(events[..j]) >= 0
  }

  /** A well-formed account stream always replays; it is open iff it is not empty. */
  lemma {:induction false} AccountShapeFolds(arith: Arith, events: seq<Event>)
    requires AccountShape(events)
    ensures FoldAccount(arith, events).Success?
    ensures FoldAccount(arith, events).value.isOpen <==> events != []
    ensures arith.Exact? ==> FoldAccount(arith, events).value.balanceCents == Credits(events)
    decreases |events|
  {
    if events != [] {
      var n := |events| - 1;
      assert AccountShape(events[..n]);
      AccountShapeFolds(arith, events[..n]);
      assert AccountEventFits(events[n], n == 0);
    }
  }

  lemma {:induction false} ItemShapeFolds(arith: Arith, events: seq<Event>)
    requires ItemShape(events)
    ensures FoldInventory(arith, events).Success?
    ensures arith.Exact? ==> FoldInventory(arith, events).value.available == Available(events)
    ensures arith.Exact? ==> FoldInventory(arith, events).value.reserved == Reserved(events)
    decreases |events|
  {
    if events != [] {
      var n := |events| - 1;
      assert ItemShape(events[..n]);
      ItemShapeFolds(arith, events[..n]);
      assert ItemEventFits(events[n]);
    }
  }

  /** Reserving and releasing only moves stock: for every stream that replays, the sum is what was adjusted in. */
  lemma {:induction false} StockIsConserved(events: seq<Event>)
    requires FoldInventory(Exact, events).Success?
    ensures var st := FoldInventory(Exact, events).value;
            st.available + st.reserved == Adjusted(events)
    decreases |events|
  {
    if events != [] {
      StockIsConserved(events[..|events| - 1]);
    }
  }

  lemma NeverNegativeSnoc(events: seq<Event>, e: Event)
    requires NeverNegative(events) && Credits(events) + Credit(e.payload) >= 0
    ensures NeverNegative(events + [e])
  {
    forall j | 0 <= j <= |events + [e]| ensures Credits((events + [e])[..j]) >= 0 {
      if j <= |events| {
        assert (events + [e])[..j] == events[..j];
      } else {
        assert (events + [e])[..j][..|events|] == events;
      }
    }
  }

  lemma NeverShortSnoc(events: seq<Event>, e: Event)
    requires NeverShort(events)
    requires Available(events) + AvailableDelta(e.payload) >= 0 && Reserved(events) + ReservedDelta(e.payload) >= 0
    ensures NeverShort(events + [e])
  {
    forall j | 0 <= j <= |events + [e]|
      ensures Available((events + [e])[..j]) >= 0 && Reserved((events + [e])[..j]) >= 0
    {
      if j <= |events| {
        assert (events + [e])[..j] == events[..j];
      } else {
        assert (events + [e])[..j][..|events|] == events;
      }
    }
  }

  // --- The whole log ---

  predicate StreamShape(k: StreamKey, events: seq<Event>) {
    match k.kind
    case Account => AccountShape(events)
    case InventoryItem => ItemShape(events)
    case OtherKind(_) => events == []
  }

  predicate StreamSolvent(k: StreamKey, events: seq<Event>) {
    match k.kind
    case Account => NeverNegative(events)
    case InventoryItem => NeverShort(events)
    case OtherKind(_) => true
  }

  ghost predicate LogShape(log: seq<Event>) {
    forall k :: StreamShape(k, StreamOf(log, k))
  }

  ghost predicate LogSolvent(log: seq<Event>) {
    forall k :: StreamSolvent(k, StreamOf(log, k))
  }

  lemma EmptyLogIsFine()
    ensures ValidStore(EMPTY_STORE) && LogShape(EMPTY_STORE.log) && LogSolvent(EMPTY_STORE.log)
  {
  }

  /** The event of a block that goes to stream k, if there is one. */
  function BlockPart(cmd: Command, es: seq<Event>, k: StreamKey): seq<Event>
    requires |es| == cmd.Size()
  {
    if k == cmd.Primary() then [es[0]]
    else if k == cmd.Last() then [es[|es| - 1]]
    else []
  }

  lemma StreamOfTwo(a: Event, b: Event, k: StreamKey)
    ensures StreamOf([a, b], k) == (if a.stream == k then [a] else []) + if b.stream == k then [b] else []
  {
    assert [a, b] == [a] + [b];
    StreamOfConcat([a], [b], k);
    StreamOfOne(a, k);
    StreamOfOne(b, k);
  }

  /** Each stream's share of a block. */
  lemma StreamOfBlock(cmd: Command, es: seq<Event>, k: StreamKey)
    requires |es| == cmd.Size() && !cmd.SameAccount() && es[0].stream == cmd.Primary()
    requires cmd.Transfer? ==> es[1].stream == cmd.Last()
    ensures StreamOf(es, k) == BlockPart(cmd, es, k)
  {
    if cmd.Transfer? {
      assert es == [es[0], es[1]];
      StreamOfTwo(es[0], es[1], k);
    } else {
      assert es == [es[0]];
      StreamOfOne(es[0], k);
    }
  }

  /** What a landed block does to each stream: its own streams grow by one event, the others stay. */
  lemma LandedStreams(s: Sys, s': Sys, i: nat, es: seq<Event>, k: StreamKey)
    requires LandsBlock(s, s', i, es)
    ensures StreamOf(s'.store.log, k) == StreamOf(s.store.log, k) + BlockPart(s.clients[i].cmd, es, k)
  {
    var log, cmd := s.store.log, s.clients[i].cmd;
    StreamOfConcat(log, es, k);
    assert (log + es)[|log|] == es[0];
    if cmd.Transfer? {
      assert (log + es)[|log| + 1] == es[1];
    }
    StreamOfBlock(cmd, es, k);
  }

  /** After a landing a stream is one of three: the primary with its event, the last with its, or as before. */
  lemma AfterLanding(s: Sys, s': Sys, i: nat, es: seq<Event>, k: StreamKey)
    requires LandsBlock(s, s', i, es)
    ensures var before, after := StreamOf(s.store.log, k), StreamOf(s'.store.log, k);
            || (k == s.clients[i].cmd.Primary() && after == before + [es[0]])
            || (s.clients[i].cmd.Transfer? && k == s.clients[i].cmd.Last() && after == before + [es[1]])
            || (!s.clients[i].cmd.Touches(k) && after == before)
  {
    LandedStreams(s, s', i, es, k);
  }

  /** A command that has decided on an earlier log and is admitted now writes an event of the right kind. */
  lemma DecidedEventFits(cfg: Config, cmd: Command, logA: seq<Event>, logB: seq<Event>, log: seq<Event>, e: Event)
    requires ValidLog(logA) && ValidLog(logB) && logA <= log && !cmd.SameAccount()
    requires Planned(cfg, cmd, logA, logB).Success? && Admissible(log, Planned(cfg, cmd, logA, logB).value.batch)
    requires StreamShape(cmd.Primary(), StreamOf(log, cmd.Primary()))
    requires e.payload == cmd.FirstPayload() && e.stream == cmd.Primary()
    ensures StreamShape(cmd.Primary(), StreamOf(log, cmd.Primary()) + [e])
  {
    var k := cmd.Primary();
    PlannedIsSane(cfg, cmd, logA, logB);
    if cmd.OpenAccount? {
      PlannedAdmissible(cfg, cmd, logA, logB, log);
      assert Version(log, k) == 0;
    } else if cmd.OnAccount() {
      assert log[..|logA|] == logA;
      StreamGrows(log, |logA|, k);
      assert StreamOf(logA, k) != [];
    }
  }

  /** A block's event is the right kind of event for the place it takes in its stream. */
  lemma PrimaryEventFits(cfg: Config, s: Sys, i: nat)
    requires i < |s.clients| && ValidStore(s.store) && ClientsOk(cfg, s) && Commits(s, i) && LogShape(s.store.log)
    ensures |Produced(s, i)| > 0
    ensures var k := s.clients[i].cmd.Primary();
            StreamShape(k, StreamOf(s.store.log, k) + [Produced(s, i)[0]])
  {
    var cl, log := s.clients[i], s.store.log;
    assert ClientOk(cfg, log, cl);
    assert StreamShape(cl.cmd.Primary(), StreamOf(log, cl.cmd.Primary()));
    PrefixIsValid(log, cl.pc.readAt);
    PrefixIsValid(log, cl.pc.readLastAt);
    StepMoves(cfg, s, i);
    CommitWritesBlock(cfg, s, i);
    assert (log + Produced(s, i))[|log|] == Produced(s, i)[0];
    DecidedEventFits(cfg, cl.cmd, log[..cl.pc.readAt], log[..cl.pc.readLastAt], log, Produced(s, i)[0]);
  }

  lemma LastEventFits(cfg: Config, s: Sys, i: nat)
    requires i < |s.clients| && ValidStore(s.store) && ClientsOk(cfg, s) && Commits(s, i) && LogShape(s.store.log)
    requires s.clients[i].cmd.Transfer?
    ensures |Produced(s, i)| == 2
    ensures var k := s.clients[i].cmd.Last();
            StreamShape(k, StreamOf(s.store.log, k) + [Produced(s, i)[1]])
  {
    var cl, log := s.clients[i], s.store.log;
    var k := cl.cmd.Last();
    assert ClientOk(cfg, log, cl);
    assert StreamShape(k, StreamOf(log, k));
    PrefixIsValid(log, cl.pc.readAt);
    PrefixIsValid(log, cl.pc.readLastAt);
    PlannedBatchShape(cfg, cl.cmd, log[..cl.pc.readAt], log[..cl.pc.readLastAt]);
    PlannedIsSane(cfg, cl.cmd, log[..cl.pc.readAt], log[..cl.pc.readLastAt]);
    StreamGrows(log, cl.pc.readLastAt, k);
    assert StreamOf(log[..cl.pc.readLastAt], k) != [];
  }

  lemma StepKeepsShape(cfg: Config, s: Sys, i: nat)
    requires ValidStore(s.store) && ClientsOk(cfg, s) && LogShape(s.store.log)
    ensures LogShape(Step(cfg, s, i).store.log)
  {
    if i < |s.clients| {
      StepMoves(cfg, s, i);
      if Commits(s, i) {
        var s' := Step(cfg, s, i);
        StepLandsBlock(cfg, s, i);
        PrimaryEventFits(cfg, s, i);
        if s.clients[i].cmd.Transfer? {
          LastEventFits(cfg, s, i);
        }
        forall k ensures StreamShape(k, StreamOf(s'.store.log, k)) {
          AfterLanding(s, s', i, Produced(s, i), k);
          assert StreamShape(k, StreamOf(s.store.log, k));
        }
      }
    }
  }

  /**
   * With any pins, in either arithmetic: every account stream is one AccountOpened at version 1 followed
   * by positive deposits and withdrawals, so replay never fails and an account is open iff it has events.
   */
  lemma {:induction false} RunKeepsShape(cfg: Config, st0: StoreState, cmds: seq<Command>, schedule: seq<nat>)
    requires ValidStore(st0) && LogShape(st0.log)
    ensures LogShape(Run(cfg, Init(st0, cmds), schedule).store.log)
    decreases |schedule|
  {
    if schedule != [] {
      var n := |schedule| - 1;
      RunKeepsShape(cfg, st0, cmds, schedule[..n]);
      RunKeepsInv(cfg, st0, cmds, schedule[..n]);
      StepKeepsShape(cfg, Run(cfg, Init(st0, cmds), schedule[..n]), schedule[n]);
    }
  }

  lemma AccountStreamsAreWellFormed(
    cfg: Config, st0: StoreState, cmds: seq<Command>, schedule: seq<nat>, account: string)
    requires ValidStore(st0) && LogShape(st0.log)
    ensures var events := StreamOf(Run(cfg, Init(st0, cmds), schedule).store.log, AccountKey(account));
            && AccountShape(events)
            && (events != [] ==> events[0].payload.AccountOpened? && events[0].version == 1)
            && (forall j :: 0 < j < |events| ==> !events[j].payload.AccountOpened?)
            && FoldAccount(cfg.arith, events).Success?
            && (FoldAccount(cfg.arith, events).value.isOpen <==> events != [])
  {
    var s := Run(cfg, Init(st0, cmds), schedule);
    var events := StreamOf(s.store.log, AccountKey(account));
    RunKeepsShape(cfg, st0, cmds, schedule);
    RunKeepsInv(cfg, st0, cmds, schedule);
    assert StreamShape(AccountKey(account), events);
    AccountShapeFolds(cfg.arith, events);
    if events != [] {
      assert AccountEventFits(events[0], true);
      StreamVersionsAreDense(s.store.log, AccountKey(account), 0);
    }
    forall j | 0 < j < |events| ensures !events[j].payload.AccountOpened? {
      assert AccountEventFits(events[j], false);
    }
  }

  // --- Solvency in pin-safe runs ---

  lemma LastEventShape(events: seq<Event>, e: Event)
    ensures AccountShape(events + [e]) <==> AccountShape(events) && AccountEventFits(e, events == [])
    ensures ItemShape(events + [e]) <==> ItemShape(events) && ItemEventFits(e)
  {
    var longer := events + [e];
    assert longer[|events|] == e;
    assert forall j :: 0 <= j < |events| ==> longer[j] == events[j];
  }

  lemma LastEventSolvency(events: seq<Event>, e: Event)
    ensures NeverNegative(events) && Credits(events) + Credit(e.payload) >= 0 <==> NeverNegative(events + [e])
    ensures && NeverShort(events)
            && Available(events) + AvailableDelta(e.payload) >= 0
            && Reserved(events) + ReservedDelta(e.payload) >= 0
            <==> NeverShort(events + [e])
  {
    var longer := events + [e];
    assert longer[..|longer|][..|events|] == events;
    assert longer[..|longer|] == longer;
    assert forall j :: 0 <= j <= |events| ==> longer[..j] == events[..j];
    if NeverNegative(events) && Credits(events) + Credit(e.payload) >= 0 {
      NeverNegativeSnoc(events, e);
    }
    var available := Available(events) + AvailableDelta(e.payload);
    var reserved := Reserved(events) + ReservedDelta(e.payload);
    if NeverShort(events) && available >= 0 && reserved >= 0 {
      NeverShortSnoc(events, e);
    }
  }

  /**
   * The account rules are exact: on a well-formed, solvent account they let a command through if and only
   * if its event keeps the account well formed and solvent.
   */
  lemma AccountRulesAreExact(cmd: Command, events: seq<Event>, e: Event)
    requires cmd.OpenAccount? || cmd.Deposit? || cmd.Withdraw?
    requires AccountShape(events) && NeverNegative(events) && e.payload == cmd.FirstPayload()
    ensures FoldAccount(Exact, events).Success?
    ensures DecideAccount(cmd, FoldAccount(Exact, events).value).Success? <==>
            AccountShape(events + [e]) && NeverNegative(events + [e])
  {
    AccountShapeFolds(Exact, events);
    assert events[..|events|] == events;
    assert Credits(events) >= 0;
    LastEventShape(events, e);
    LastEventSolvency(events, e);
  }

  /** The inventory rules are exact in the same way; in addition they refuse an adjustment by nothing. */
  lemma ItemRulesAreExact(cmd: Command, events: seq<Event>, e: Event)
    requires !cmd.OnAccount() && ItemShape(events) && NeverShort(events) && e.payload == cmd.FirstPayload()
    ensures FoldInventory(Exact, events).Success?
    ensures DecideItem(Exact, cmd, FoldInventory(Exact, events).value).Success? <==>
            && ItemShape(events + [e]) && NeverShort(events + [e])
            && e.payload != InventoryAdjusted(0)
  {
    ItemShapeFolds(Exact, events);
    assert events[..|events|] == events;
    assert Available(events) >= 0 && Reserved(events) >= 0;
    LastEventShape(events, e);
    LastEventSolvency(events, e);
  }

  /** A transfer's two rules are exact too: it goes through iff each leg keeps its own account in order. */
  lemma TransferRulesAreExact(cmd: Command, from: seq<Event>, to: seq<Event>, debit: Event, credit: Event)
    requires cmd.Transfer?
    requires AccountShape(from) && NeverNegative(from) && debit.payload == cmd.FirstPayload()
    requires AccountShape(to) && NeverNegative(to) && credit.payload == cmd.LastPayload()
    ensures FoldAccount(Exact, from).Success? && FoldAccount(Exact, to).Success?
    ensures DecideTransfer(cmd, FoldAccount(Exact, from).value, FoldAccount(Exact, to).value).Success? <==>
            && AccountShape(from + [debit]) && NeverNegative(from + [debit])
            && AccountShape(to + [credit]) && NeverNegative(to + [credit])
  {
    AccountRulesAreExact(Withdraw(cmd.fromAccount, cmd.amountCents, "", NO_VERSION_CHECK), from, debit);
    AccountRulesAreExact(Deposit(cmd.toAccount, cmd.amountCents, "", NO_VERSION_CHECK), to, credit);
  }

  /**
   * And they give the right reason: a business shortage means the event would have fitted its place in the
   * stream but the balance could not pay for it; the other refusals mean it would not have fitted, because the
   * account has no opening yet, already has one, or the amount is bad.
   */
  lemma AccountRefusalsAreExact(cmd: Command, events: seq<Event>, e: Event)
    requires cmd.OpenAccount? || cmd.Deposit? || cmd.Withdraw?
    requires AccountShape(events) && NeverNegative(events) && e.payload == cmd.FirstPayload()
    ensures FoldAccount(Exact, events).Success?
    ensures var r := DecideAccount(cmd, FoldAccount(Exact, events).value);
            && (r == Failure(InsufficientFunds) <==> AccountShape(events + [e]) && !NeverNegative(events + [e]))
            && (r == Failure(AccountAlreadyOpened) <==> cmd.OpenAccount? && events != [])
            && (r == Failure(AccountNotOpen) <==> !cmd.OpenAccount? && events == [])
            && (r == Failure(InvalidAmount) <==>
                  (cmd.OpenAccount? <==> events == []) && !AccountShape(events + [e]))
  {
    AccountShapeFolds(Exact, events);
    assert events[..|events|] == events;
    assert Credits(events) >= 0;
    LastEventShape(events, e);
    LastEventSolvency(events, e);
  }

  /**
   * A transfer is refused for the sender's reason first: insufficient funds iff the debit would have fitted the
   * sender's stream but its balance could not pay for it; not open iff the sender has no opening, or the debit
   * is in order and the receiver has none; a bad amount iff the sender is open and the debit would not have fitted.
   */
  lemma TransferRefusalsAreExact(cmd: Command, from: seq<Event>, to: seq<Event>, debit: Event)
    requires cmd.Transfer?
    requires AccountShape(from) && NeverNegative(from) && debit.payload == FundsWithdrawn(cmd.amountCents)
    requires AccountShape(to) && NeverNegative(to)
    ensures FoldAccount(Exact, from).Success? && FoldAccount(Exact, to).Success?
    ensures var r := DecideTransfer(cmd, FoldAccount(Exact, from).value, FoldAccount(Exact, to).value);
            var inOrder := AccountShape(from + [debit]) && NeverNegative(from + [debit]);
            && (r == Failure(Rejected(InsufficientFunds)) <==>
                  AccountShape(from + [debit]) && !NeverNegative(from + [debit]))
            && (r == Failure(Rejected(AccountNotOpen)) <==> from == [] || (inOrder && to == []))
            && (r == Failure(Rejected(InvalidAmount)) <==> from != [] && !AccountShape(from + [debit]))
  {
    AccountRefusalsAreExact(Withdraw(cmd.fromAccount, cmd.amountCents, "", -1), from, debit);
    AccountRulesAreExact(Withdraw(cmd.fromAccount, cmd.amountCents, "", -1), from, debit);
    AccountShapeFolds(Exact, to);
    LastEventShape(from, debit);
  }

  /** A stock shortage means the event would have fitted but something would have gone negative. */
  lemma ItemRefusalsAreExact(cmd: Command, events: seq<Event>, e: Event)
    requires !cmd.OnAccount() && ItemShape(events) && NeverShort(events) && e.payload == cmd.FirstPayload()
    ensures FoldInventory(Exact, events).Success?
    ensures var r := DecideItem(Exact, cmd, FoldInventory(Exact, events).value);
            && (r == Failure(InsufficientStock) <==> ItemShape(events + [e]) && !NeverShort(events + [e]))
            && (r == Failure(InvalidQuantity) <==> !ItemShape(events + [e]) || e.payload == InventoryAdjusted(0))
  {
    ItemShapeFolds(Exact, events);
    assert events[..|events|] == events;
    assert Available(events) >= 0 && Reserved(events) >= 0;
    LastEventShape(events, e);
    LastEventSolvency(events, e);
  }

  /** A decision made on the current log leaves the stream it is about solvent. */
  lemma IntentIsSolvent(cfg: Config, cmd: Command, log: seq<Event>, e: Event)
    requires cfg.arith.Exact? && Intent(cfg, cmd, log).Success? && e.payload == cmd.FirstPayload()
    requires StreamShape(cmd.Primary(), StreamOf(log, cmd.Primary()))
    requires StreamSolvent(cmd.Primary(), StreamOf(log, cmd.Primary()))
    ensures StreamSolvent(cmd.Primary(), StreamOf(log, cmd.Primary()) + [e])
  {
    var k := cmd.Primary();
    var events := StreamOf(log, k);
    if cmd.Transfer? {
      AccountRulesAreExact(Withdraw(cmd.fromAccount, cmd.amountCents, "", NO_VERSION_CHECK), events, e);
    } else if cmd.OnAccount() {
      AccountRulesAreExact(cmd, events, e);
    } else {
      ItemRulesAreExact(cmd, events, e);
    }
  }

  /** On a fresh decision, the block's first event leaves its stream solvent. */
  lemma PrimaryStaysSolvent(cfg: Config, s: Sys, i: nat)
    requires i < |s.clients| && ValidStore(s.store) && ClientsOk(cfg, s) && Commits(s, i)
    requires cfg.arith.Exact? && PinSafe(cfg, s.clients[i])
    requires LogShape(s.store.log) && LogSolvent(s.store.log)
    ensures |Produced(s, i)| > 0
    ensures var k := s.clients[i].cmd.Primary();
            StreamSolvent(k, StreamOf(s.store.log, k) + [Produced(s, i)[0]])
  {
    var cmd, log := s.clients[i].cmd, s.store.log;
    CommitIsAtomic(cfg, s, i);
    CommitWritesBlock(cfg, s, i);
    var e := Produced(s, i)[0];
    assert (log + Produced(s, i))[|log|] == e;
    assert StreamShape(cmd.Primary(), StreamOf(log, cmd.Primary()));
    assert StreamSolvent(cmd.Primary(), StreamOf(log, cmd.Primary()));
    IntentIsSolvent(cfg, cmd, log, e);
  }

  lemma LastStaysSolvent(cfg: Config, s: Sys, i: nat)
    requires i < |s.clients| && ValidStore(s.store) && ClientsOk(cfg, s) && Commits(s, i)
    requires LogSolvent(s.store.log) && s.clients[i].cmd.Transfer?
    ensures |Produced(s, i)| == 2
    ensures var k := s.clients[i].cmd.Last();
            StreamSolvent(k, StreamOf(s.store.log, k) + [Produced(s, i)[1]])
  {
    var log, k := s.store.log, s.clients[i].cmd.Last();
    var events := StreamOf(log, k);
    CommitWritesBlock(cfg, s, i);
    assert (log + Produced(s, i))[|log| + 1] == Produced(s, i)[1];
    assert StreamSolvent(k, events) && events[..|events|] == events;
    NeverNegativeSnoc(events, Produced(s, i)[1]);
  }

  lemma StepKeepsSolvent(cfg: Config, s: Sys, i: nat)
    requires ValidStore(s.store) && ClientsOk(cfg, s) && LogShape(s.store.log) && LogSolvent(s.store.log)
    requires cfg.arith.Exact? && AllPinSafe(cfg, s)
    ensures LogSolvent(Step(cfg, s, i).store.log)
  {
    if i < |s.clients| {
      StepMoves(cfg, s, i);
      if Commits(s, i) {
        var s' := Step(cfg, s, i);
        StepLandsBlock(cfg, s, i);
        assert PinSafe(cfg, s.clients[i]);
        PrimaryStaysSolvent(cfg, s, i);
        if s.clients[i].cmd.Transfer? {
          LastStaysSolvent(cfg, s, i);
        }
        forall k ensures StreamSolvent(k, StreamOf(s'.store.log, k)) {
          AfterLanding(s, s', i, Produced(s, i), k);
          assert StreamSolvent(k, StreamOf(s.store.log, k));
        }
      }
    }
  }

  lemma {:induction false} RunKeepsSolvent(cfg: Config, st0: StoreState, cmds: seq<Command>, schedule: seq<nat>)
    requires ValidStore(st0) && LogShape(st0.log) && LogSolvent(st0.log)
    requires cfg.arith.Exact? && PinSafeRun(cfg, Init(st0, cmds), schedule)
    ensures LogSolvent(Run(cfg, Init(st0, cmds), schedule).store.log)
    decreases |schedule|
  {
    if schedule != [] {
      var n := |schedule| - 1;
      RunKeepsSolvent(cfg, st0, cmds, schedule[..n]);
      RunKeepsShape(cfg, st0, cmds, schedule[..n]);
      RunKeepsInv(cfg, st0, cmds, schedule[..n]);
      StepKeepsSolvent(cfg, Run(cfg, Init(st0, cmds), schedule[..n]), schedule[n]);
    }
  }

  /** No double spend: in every reachable state of every pin-safe run, every account's folded balance is >= 0. */
  lemma BalancesNeverNegative(
    cfg: Config, st0: StoreState, cmds: seq<Command>, schedule: seq<nat>, account: string)
    requires ValidStore(st0) && LogShape(st0.log) && LogSolvent(st0.log)
    requires cfg.arith.Exact? && PinSafeRun(cfg, Init(st0, cmds), schedule)
    ensures var r := FoldAccount(Exact, StreamOf(Run(cfg, Init(st0, cmds), schedule).store.log, AccountKey(account)));
            r.Success? && r.value.balanceCents >= 0
  {
    var events := StreamOf(Run(cfg, Init(st0, cmds), schedule).store.log, AccountKey(account));
    RunKeepsShape(cfg, st0, cmds, schedule);
    RunKeepsSolvent(cfg, st0, cmds, schedule);
    assert StreamShape(AccountKey(account), events) && StreamSolvent(AccountKey(account), events);
    AccountShapeFolds(Exact, events);
    assert events[..|events|] == events;
  }

  /** Stock and reservations never go negative, and together they are exactly what was adjusted in. */
  lemma StockNeverNegative(
    cfg: Config, st0: StoreState, cmds: seq<Command>, schedule: seq<nat>, item: string)
    requires ValidStore(st0) && LogShape(st0.log) && LogSolvent(st0.log)
    requires cfg.arith.Exact? && PinSafeRun(cfg, Init(st0, cmds), schedule)
    ensures var events := StreamOf(Run(cfg, Init(st0, cmds), schedule).store.log, ItemKey(item));
            var r := FoldInventory(Exact, events);
            && r.Success? && r.value.available >= 0 && r.value.reserved >= 0
            && r.value.available + r.value.reserved == Adjusted(events)
  {
    var events := StreamOf(Run(cfg, Init(st0, cmds), schedule).store.log, ItemKey(item));
    RunKeepsShape(cfg, st0, cmds, schedule);
    RunKeepsSolvent(cfg, st0, cmds, schedule);
    assert StreamShape(ItemKey(item), events) && StreamSolvent(ItemKey(item), events);
    ItemShapeFolds(Exact, events);
    StockIsConserved(events);
    assert events[..|events|] == events;
  }

  // --- Which commands are pin-safe without looking at a run ---

  /**
   * The client's pin, if it has one, is a version its stream had reached when the client took its first step:
   * what a caller knows who has read the version before calling. Auto mode and transfers have no pin, and
   * OpenAccount pins version 0.
   */
  predicate PinSeen(cfg: Config, log: seq<Event>, cl: Client) {
    !cl.pc.Start? && PlanOf(cfg, cl.cmd).pinned ==>
      cl.since <= |log| && PlanOf(cfg, cl.cmd).pinnedValue <= Version(log[..cl.since], cl.cmd.Primary())
  }

  predicate PinsSeen(cfg: Config, s: Sys) {
    forall i :: 0 <= i < |s.clients| ==> PinSeen(cfg, s.store.log, s.clients[i])
  }

  lemma NoPinIsSeen(cfg: Config, log: seq<Event>, cl: Client)
    requires ClientOk(cfg, log, cl)
    requires cl.cmd.Transfer? || cl.cmd.OpenAccount? || cl.cmd.RequestedVersion() == NO_VERSION_CHECK
    ensures PinSeen(cfg, log, cl)
  {
  }

  lemma SeenIsPinSafe(cfg: Config, log: seq<Event>, cl: Client)
    requires ValidLog(log) && ClientOk(cfg, log, cl) && PinSeen(cfg, log, cl)
    ensures PinSafe(cfg, cl)
  {
    if cl.pc.Appending? {
      var r := cl.pc.readAt;
      PrefixIsValid(log, r);
      PrefixIsValid(log, cl.pc.readLastAt);
      PlannedBatchShape(cfg, cl.cmd, log[..r], log[..cl.pc.readLastAt]);
      assert log[..r][..cl.since] == log[..cl.since];
      StreamGrows(log[..r], cl.since, cl.cmd.Primary());
    }
  }

  /** What was seen at the first step does not change later. */
  lemma PinWasSeen(cfg: Config, s: Sys, k: nat, i: nat)
    requires i < |s.clients| && ClientOk(cfg, s.store.log, s.clients[i])
    requires |Step(cfg, s, k).clients| == |s.clients|
    requires PinSeen(cfg, Step(cfg, s, k).store.log, Step(cfg, s, k).clients[i])
    ensures PinSeen(cfg, s.store.log, s.clients[i])
  {
    var cl, s' := s.clients[i], Step(cfg, s, k);
    if k < |s.clients| {
      StepMoves(cfg, s, k);
      if !cl.pc.Start? {
        StaysStarted(cfg, s, k, i);
        assert s'.store.log[..cl.since] == s.store.log[..cl.since];
      }
    }
  }

  lemma StaysStarted(cfg: Config, s: Sys, k: nat, i: nat)
    requires i < |s.clients| && !s.clients[i].pc.Start?
    ensures i < |Step(cfg, s, k).clients|
    ensures !Step(cfg, s, k).clients[i].pc.Start? && Step(cfg, s, k).clients[i].since == s.clients[i].since
  {
  }

  /**
   * A run in which every started client pinned at most a version its stream had reached by its own first step
   * is pin-safe throughout, whatever the interleaving.
   */
  lemma {:induction false} SeenPinsMakeSafeRuns(
    cfg: Config, st0: StoreState, cmds: seq<Command>, schedule: seq<nat>)
    requires ValidStore(st0) && PinsSeen(cfg, Run(cfg, Init(st0, cmds), schedule))
    ensures PinSafeRun(cfg, Init(st0, cmds), schedule)
    decreases |schedule|
  {
    var s := Run(cfg, Init(st0, cmds), schedule);
    RunKeepsInv(cfg, st0, cmds, schedule);
    forall i | 0 <= i < |s.clients| ensures PinSafe(cfg, s.clients[i]) {
      SeenIsPinSafe(cfg, s.store.log, s.clients[i]);
    }
    if schedule != [] {
      var n := |schedule| - 1;
      var before := Run(cfg, Init(st0, cmds), schedule[..n]);
      RunKeepsInv(cfg, st0, cmds, schedule[..n]);
      RunExtends(cfg, Init(st0, cmds), schedule, n);
      RunExtends(cfg, Init(st0, cmds), schedule[..n], n);
      forall i | 0 <= i < |before.clients| ensures PinSeen(cfg, before.store.log, before.clients[i]) {
        PinWasSeen(cfg, before, schedule[n], i);
      }
      SeenPinsMakeSafeRuns(cfg, st0, cmds, schedule[..n]);
    }
  }

  /** In particular, runs of auto-mode commands, transfers and OpenAccounts always are. */
  lemma UnpinnedRunsAreSafe(cfg: Config, st0: StoreState, cmds: seq<Command>, schedule: seq<nat>)
    requires ValidStore(st0)
    requires forall i :: 0 <= i < |cmds| ==>
               cmds[i].Transfer? || cmds[i].OpenAccount? || cmds[i].RequestedVersion() == NO_VERSION_CHECK
    ensures PinSafeRun(cfg, Init(st0, cmds), schedule)
  {
    var s := Run(cfg, Init(st0, cmds), schedule);
    RunKeepsInv(cfg, st0, cmds, schedule);
    RunExtends(cfg, Init(st0, cmds), schedule, 0);
    forall i | 0 <= i < |s.clients| ensures PinSeen(cfg, s.store.log, s.clients[i]) {
      assert s.clients[i].cmd == cmds[i];
      NoPinIsSeen(cfg, s.store.log, s.clients[i]);
    }
    SeenPinsMakeSafeRuns(cfg, st0, cmds, schedule);
  }
}
