/**
 * When int64 arithmetic is safe: if the money that ever entered the ledger fits in an int64, and the
 * stock ever adjusted into each item does, then the Go machine with its wrapping additions takes every
 * run exactly as the unbounded ledger does, however many transfers move the money around.
 */
module Overflow {
  import opened Events
  import opened Int64
  import opened Aggregates
  import opened EventLog
  import opened Commands
  import opened Protocol
  import opened ClientInvariant
  import opened History
  import opened Solvency
  import opened Conservation
  import opened Contention

  // --- One stream ---

  predicate CreditsFit(events: seq<Event>) {
    forall j :: 0 <= j <= |events| ==> 0 <= Credits(events[..j]) <= MAX_INT64
  }

  predicate StockFits(events: seq<Event>) {
    forall j :: 0 <= j <= |events| ==>
      0 <= Available(events[..j]) <= MAX_INT64 && 0 <= Reserved(events[..j]) <= MAX_INT64
  }

  lemma CreditsFitEarlier(events: seq<Event>, n: nat)
    requires CreditsFit(events) && n <= |events|
    ensures CreditsFit(events[..n]) && 0 <= Credits(events[..n]) <= MAX_INT64
  {
    forall j | 0 <= j <= n ensures 0 <= Credits(events[..n][..j]) <= MAX_INT64 {
      assert events[..n][..j] == events[..j];
    }
  }

  /** If no prefix leaves the int64 range, no addition of the replay does, and wrapping changes nothing. */
  lemma {:induction false} AccountFoldDoesNotWrap(events: seq<Event>)
    requires AccountShape(events) && CreditsFit(events)
    ensures FoldAccount(Wrapping, events) == FoldAccount(Exact, events)
    decreases |events|
  {
    if events != [] {
      var n := |events| - 1;
      assert AccountShape(events[..n]);
      CreditsFitEarlier(events, n);
      AccountFoldDoesNotWrap(events[..n]);
      AccountShapeFolds(Exact, events[..n]);
      CreditsFitEarlier(events, |events|);
      assert events[..|events|] == events;
      AccountStepDoesNotWrap(FoldAccount(Exact, events[..n]).value, events[n]);
    }
  }

  lemma AccountStepDoesNotWrap(st: AccountState, e: Event)
    requires InRange(st.balanceCents + Credit(e.payload))
    ensures AccountStep(Wrapping, st, e) == AccountStep(Exact, st, e)
  {
  }

  lemma {:induction false} InventoryFoldDoesNotWrap(events: seq<Event>)
    requires ItemShape(events) && StockFits(events)
    ensures FoldInventory(Wrapping, events) == FoldInventory(Exact, events)
    decreases |events|
  {
    if events != [] {
      var n := |events| - 1;
      var init := events[..n];
      assert ItemShape(init);
      assert StockFits(init) by {
        forall j | 0 <= j <= n
          ensures 0 <= Available(init[..j]) <= MAX_INT64 && 0 <= Reserved(init[..j]) <= MAX_INT64
        {
          assert init[..j] == events[..j];
        }
      }
      InventoryFoldDoesNotWrap(init);
      ItemShapeFolds(Exact, init);
      assert events[..|events|] == events;
      assert ItemEventFits(events[n]);
    }
  }

  // --- What wrapping computes without any bound ---

  /** Same remainder modulo 2^64. */
  predicate Congruent(x: int, y: int) {
    (x - y) % TWO_64 == 0
  }

  predicate Int64Payload(p: Payload) {
    match p
    case AccountOpened(b) => InRange(b)
    case FundsDeposited(a) => InRange(a)
    case FundsWithdrawn(a) => InRange(a)
    case InventoryAdjusted(d) => InRange(d)
    case StockReserved(q) => InRange(q)
    case StockReleased(q) => InRange(q)
    case Malformed(_) => true
  }

  lemma SumsStayCongruent(w: int, x: int, d: int)
    requires InRange(w) && InRange(d) && Congruent(w, x)
    ensures InRange(Norm(Wrapping, w + d)) && Congruent(Norm(Wrapping, w + d), x + d)
    ensures InRange(Norm(Wrapping, w - d)) && Congruent(Norm(Wrapping, w - d), x - d)
  {
  }

  /**
   * Without any bound the Go replay computes, for each amount, the one int64 that has the same remainder modulo
   * 2^64 as the exact amount; nothing else differs.
   */
  lemma {:induction false} WrappingAccountIsModular(events: seq<Event>)
    requires forall i :: 0 <= i < |events| ==> Int64Payload(events[i].payload)
    ensures FoldAccount(Wrapping, events).Success? <==> FoldAccount(Exact, events).Success?
    ensures FoldAccount(Exact, events).Success? ==>
              var w, x := FoldAccount(Wrapping, events).value, FoldAccount(Exact, events).value;
              && w == x.(balanceCents := w.balanceCents)
              && InRange(w.balanceCents) && Congruent(w.balanceCents, x.balanceCents)
    decreases |events|
  {
    if events != [] {
      var n := |events| - 1;
      WrappingAccountIsModular(events[..n]);
      if FoldAccount(Exact, events[..n]).Success? {
        AccountStepIsModular(
          FoldAccount(Wrapping, events[..n]).value, FoldAccount(Exact, events[..n]).value, events[n]);
      }
    }
  }

  lemma AccountStepIsModular(w: AccountState, x: AccountState, e: Event)
    requires w == x.(balanceCents := w.balanceCents) && Int64Payload(e.payload)
    requires InRange(w.balanceCents) && Congruent(w.balanceCents, x.balanceCents)
    ensures AccountStep(Wrapping, w, e).Success? <==> AccountStep(Exact, x, e).Success?
    ensures AccountStep(Exact, x, e).Success? ==>
              var w', x' := AccountStep(Wrapping, w, e).value, AccountStep(Exact, x, e).value;
              && w' == x'.(balanceCents := w'.balanceCents)
              && InRange(w'.balanceCents) && Congruent(w'.balanceCents, x'.balanceCents)
  {
    SumsStayCongruent(w.balanceCents, x.balanceCents, Amount(e.payload));
  }

  /** The number an event carries. */
  function Amount(p: Payload): int {
    match p
    case AccountOpened(b) => b
    case FundsDeposited(a) => a
    case FundsWithdrawn(a) => a
    case InventoryAdjusted(d) => d
    case StockReserved(q) => q
    case StockReleased(q) => q
    case Malformed(_) => 0
  }

  /** w is the int64 that stands for the exact x. */
  predicate StandsFor(w: int, x: int) {
    InRange(w) && Congruent(w, x)
  }

  lemma {:induction false} WrappingInventoryIsModular(events: seq<Event>)
    requires forall i :: 0 <= i < |events| ==> Int64Payload(events[i].payload)
    ensures FoldInventory(Wrapping, events).Success? <==> FoldInventory(Exact, events).Success?
    ensures FoldInventory(Exact, events).Success? ==>
              var w, x := FoldInventory(Wrapping, events).value, FoldInventory(Exact, events).value;
              && w.version == x.version
              && StandsFor(w.available, x.available) && StandsFor(w.reserved, x.reserved)
    decreases |events|
  {
    if events != [] {
      var n := |events| - 1;
      WrappingInventoryIsModular(events[..n]);
      if FoldInventory(Exact, events[..n]).Success? {
        var w, x := FoldInventory(Wrapping, events[..n]).value, FoldInventory(Exact, events[..n]).value;
        AvailableStepIsModular(w, x, events[n]);
        ReservedStepIsModular(w, x, events[n]);
      }
    }
  }

  lemma AvailableStepIsModular(w: InventoryState, x: InventoryState, e: Event)
    requires StandsFor(w.available, x.available) && Int64Payload(e.payload)
    ensures InventoryStep(Wrapping, w, e).Success? <==> InventoryStep(Exact, x, e).Success?
    ensures InventoryStep(Exact, x, e).Success? ==>
              StandsFor(InventoryStep(Wrapping, w, e).value.available, InventoryStep(Exact, x, e).value.available)
  {
    SumsStayCongruent(w.available, x.available, Amount(e.payload));
  }

  lemma ReservedStepIsModular(w: InventoryState, x: InventoryState, e: Event)
    requires w.version == x.version && StandsFor(w.reserved, x.reserved) && Int64Payload(e.payload)
    ensures InventoryStep(Wrapping, w, e).Success? <==> InventoryStep(Exact, x, e).Success?
    ensures InventoryStep(Exact, x, e).Success? ==>
              var w', x' := InventoryStep(Wrapping, w, e).value, InventoryStep(Exact, x, e).value;
              w'.version == x'.version && StandsFor(w'.reserved, x'.reserved)
  {
    SumsStayCongruent(w.reserved, x.reserved, Amount(e.payload));
  }

  /** The stock an item ever received by positive adjustments. */
  function Received(events: seq<Event>): int {
    if events == [] then 0
    else
      var d := AdjustedDelta(events[|events| - 1].payload);
      Received(events[..|events| - 1]) + if d > 0 then d else 0
  }

  lemma ReceivedSnoc(events: seq<Event>, i: nat)
    requires i < |events|
    ensures Received(events[..i]) <= Received(events[..i + 1])
    ensures Adjusted(events[..i + 1]) - Adjusted(events[..i]) <= Received(events[..i + 1]) - Received(events[..i])
  {
    assert events[..i + 1][..i] == events[..i];
  }

  /** Between two moments of a stream's life the adjustments are at most what was received. */
  lemma {:induction false} ReceivedCovers(events: seq<Event>, i: nat, j: nat)
    requires i <= j <= |events|
    ensures Received(events[..i]) <= Received(events[..j])
    ensures Adjusted(events[..j]) - Adjusted(events[..i]) <= Received(events[..j]) - Received(events[..i])
    decreases j
  {
    if i < j {
      ReceivedCovers(events, i, j - 1);
      ReceivedSnoc(events, j - 1);
    }
  }

  /** The item's stock fitted at the start, and what it received since then still fits. */
  predicate StockRoom(start: seq<Event>, events: seq<Event>) {
    StockFits(start) && Adjusted(start) + Received(events) - Received(start) <= MAX_INT64
  }

  lemma StockFitsIfThereIsRoom(start: seq<Event>, events: seq<Event>)
    requires ItemShape(events) && NeverShort(events) && start <= events && StockRoom(start, events)
    ensures StockFits(events)
  {
    forall j | 0 <= j <= |events|
      ensures 0 <= Available(events[..j]) <= MAX_INT64 && 0 <= Reserved(events[..j]) <= MAX_INT64
    {
      if j <= |start| {
        assert events[..j] == start[..j];
      } else {
        StockAfterStart(start, events, j);
      }
    }
  }

  lemma StockAfterStart(start: seq<Event>, events: seq<Event>, j: nat)
    requires ItemShape(events) && NeverShort(events) && start <= events && StockRoom(start, events)
    requires |start| <= j <= |events|
    ensures 0 <= Available(events[..j]) <= MAX_INT64 && 0 <= Reserved(events[..j]) <= MAX_INT64
  {
    assert ItemShape(events[..j]);
    ItemShapeFolds(Exact, events[..j]);
    StockIsConserved(events[..j]);
    ReceivedCovers(events, |start|, j);
    ReceivedCovers(events, j, |events|);
    assert events[..|start|] == start && events[..|events|] == events;
  }

  // --- The whole log ---

  /** Every prefix of a stream is the stream of some prefix of the log. */
  lemma {:induction false} StreamPrefixPoint(log: seq<Event>, k: StreamKey, j: nat) returns (n: nat)
    requires j <= Version(log, k)
    ensures n <= |log| && StreamOf(log[..n], k) == StreamOf(log, k)[..j]
    decreases |log|
  {
    if j == Version(log, k) {
      n := |log|;
      assert log[..n] == log;
    } else {
      var init := log[..|log| - 1];
      n := StreamPrefixPoint(init, k, j);
      assert init[..n] == log[..n];
      assert StreamOf(init, k)[..j] == StreamOf(log, k)[..j];
    }
  }

  lemma SolventPrefix(log: seq<Event>, n: nat)
    requires LogSolvent(log) && n <= |log|
    ensures LogSolvent(log[..n])
  {
    forall k ensures StreamSolvent(k, StreamOf(log[..n], k)) {
      assert StreamSolvent(k, StreamOf(log, k));
      StreamGrows(log, n, k);
      var a, b := StreamOf(log[..n], k), StreamOf(log, k);
      assert forall j :: 0 <= j <= |a| ==> a[..j] == b[..j];
    }
  }

  lemma BalanceNotNegative(log: seq<Event>, account: string)
    requires LogShape(log) && LogSolvent(log)
    ensures BalanceOf(log, account) >= 0
  {
    var events := StreamOf(log, AccountKey(account));
    BalanceIsCredits(log, account);
    assert StreamSolvent(AccountKey(account), events) && events[..|events|] == events;
  }

  lemma {:induction false} SumNotNegative(log: seq<Event>, accounts: set<string>)
    requires forall a :: a in accounts ==> BalanceOf(log, a) >= 0
    ensures SumOfBalances(log, accounts) >= 0
    decreases |accounts|
  {
    if accounts != {} {
      var a :| a in accounts && SumOfBalances(log, accounts) == BalanceOf(log, a) + SumOfBalances(log, accounts - {a});
      SumNotNegative(log, accounts - {a});
    }
  }

  /** No account holds more than all accounts together. */
  lemma BalanceWithinTotal(log: seq<Event>, account: string)
    requires LogShape(log) && LogSolvent(log)
    ensures 0 <= BalanceOf(log, account) <= TotalBalance(log)
  {
    forall a ensures BalanceOf(log, a) >= 0 {
      BalanceNotNegative(log, a);
    }
    SumNotNegative(log, AccountsOf(log));
    if account in AccountsOf(log) {
      SumPick(log, AccountsOf(log), account);
      SumNotNegative(log, AccountsOf(log) - {account});
    } else {
      NoAccountNoStream(log, account);
    }
  }

  /** What entered the ledger from outside: opening balances and deposits, not transfers. */
  function Inflow(hist: seq<Commit>): int {
    if hist == [] then 0 else Inflow(hist[..|hist| - 1]) + InflowOf(hist[|hist| - 1].cmd)
  }

  function InflowOf(cmd: Command): int {
    match cmd
    case OpenAccount(_, b, _) => b
    case Deposit(_, a, _, _) => a
    case _ => 0
  }

  predicate AllSane(hist: seq<Commit>) {
    forall j :: 0 <= j < |hist| ==> Sane(hist[j].cmd)
  }

  lemma {:induction false} InflowGrows(hist: seq<Commit>, m: nat)
    requires AllSane(hist) && m <= |hist|
    ensures ExternalFlow(hist[..m]) <= Inflow(hist[..m]) <= Inflow(hist)
    decreases |hist|
  {
    if m == |hist| {
      assert hist[..m] == hist;
      if m > 0 {
        InflowGrows(hist[..m - 1], m - 1);
        assert hist[..m - 1][..m - 1] == hist[..m - 1];
        assert Sane(hist[m - 1].cmd);
      }
    } else {
      var init := hist[..|hist| - 1];
      assert init[..m] == hist[..m];
      InflowGrows(init, m);
      assert Sane(hist[|hist| - 1].cmd);
    }
  }

  /** At every point of the log after the start the total is bounded by the starting total and the inflow. */
  lemma TotalWithinInflow(n0: nat, log: seq<Event>, hist: seq<Commit>, c: nat)
    requires Filled(n0, log, hist) && LogShape(log) && n0 <= c <= |log|
    ensures TotalBalance(log[..c]) <= TotalBalance(log[..n0]) + Inflow(hist)
  {
    ShapeOfPrefix(log, c);
    ShapeOfPrefix(log, n0);
    TotalIsNet(log[..c]);
    TotalIsNet(log[..n0]);
    var m, split := NetAtPoint(n0, log, hist, c);
    assert AllSane(hist);
    InflowGrows(hist, m);
  }

  /**
   * The bound on a log that started at length n0: the replays fitted in an int64 at the start, and so does the
   * money of all accounts together with all that flowed in since, and each item's stock with all it received.
   */
  ghost predicate Fits(n0: nat, log: seq<Event>, hist: seq<Commit>) {
    && n0 <= |log|
    && TotalBalance(log[..n0]) + Inflow(hist) <= MAX_INT64
    && (forall account :: CreditsFit(StreamOf(log[..n0], AccountKey(account))))
    && (forall item :: StockRoom(StreamOf(log[..n0], ItemKey(item)), StreamOf(log, ItemKey(item))))
  }

  /** From the empty store only the inflow and the received stock have to fit. */
  lemma FitsFromEmpty(log: seq<Event>, hist: seq<Commit>)
    requires Inflow(hist) <= MAX_INT64
    requires forall item :: Received(StreamOf(log, ItemKey(item))) <= MAX_INT64
    ensures Fits(0, log, hist)
  {
    assert log[..0] == [];
    NothingTotalsZero();
  }

  lemma NothingTotalsZero()
    ensures TotalBalance([]) == 0
  {
    assert AccountsOf([]) == {};
  }

  /** A prefix of an account's stream had a balance that fits: by the start's bound, or by the total's. */
  lemma CreditsFitAt(n0: nat, log: seq<Event>, hist: seq<Commit>, account: string, n: nat)
    requires Filled(n0, log, hist) && LogShape(log) && LogSolvent(log) && Fits(n0, log, hist) && n <= |log|
    ensures 0 <= Credits(StreamOf(log[..n], AccountKey(account))) <= MAX_INT64
  {
    if n <= n0 {
      var start, events := StreamOf(log[..n0], AccountKey(account)), StreamOf(log[..n], AccountKey(account));
      assert log[..n0][..n] == log[..n];
      StreamGrows(log[..n0], n, AccountKey(account));
      assert CreditsFit(start) && start[..|events|] == events;
    } else {
      ShapeOfPrefix(log, n);
      SolventPrefix(log, n);
      BalanceIsCredits(log[..n], account);
      BalanceWithinTotal(log[..n], account);
      TotalWithinInflow(n0, log, hist, n);
    }
  }

  lemma AccountCreditsFit(n0: nat, log: seq<Event>, hist: seq<Commit>, account: string)
    requires Filled(n0, log, hist) && LogShape(log) && LogSolvent(log) && Fits(n0, log, hist)
    ensures CreditsFit(StreamOf(log, AccountKey(account)))
  {
    var events := StreamOf(log, AccountKey(account));
    forall j | 0 <= j <= |events| ensures 0 <= Credits(events[..j]) <= MAX_INT64 {
      var n := StreamPrefixPoint(log, AccountKey(account), j);
      CreditsFitAt(n0, log, hist, account, n);
    }
  }

  lemma ItemStockFits(n0: nat, log: seq<Event>, hist: seq<Commit>, item: string)
    requires LogShape(log) && LogSolvent(log) && Fits(n0, log, hist)
    ensures StockFits(StreamOf(log, ItemKey(item)))
  {
    var k := ItemKey(item);
    assert StreamShape(k, StreamOf(log, k)) && StreamSolvent(k, StreamOf(log, k));
    StreamGrows(log, n0, k);
    StockFitsIfThereIsRoom(StreamOf(log[..n0], k), StreamOf(log, k));
  }

  /** Under the bound, replaying any stream of a run takes no addition out of the int64 range. */
  lemma FoldsDoNotWrap(n0: nat, log: seq<Event>, hist: seq<Commit>, id: string)
    requires Filled(n0, log, hist) && LogShape(log) && LogSolvent(log) && Fits(n0, log, hist)
    ensures FoldAccount(Wrapping, StreamOf(log, AccountKey(id))) == FoldAccount(Exact, StreamOf(log, AccountKey(id)))
    ensures FoldInventory(Wrapping, StreamOf(log, ItemKey(id))) == FoldInventory(Exact, StreamOf(log, ItemKey(id)))
  {
    assert StreamShape(AccountKey(id), StreamOf(log, AccountKey(id)));
    assert StreamShape(ItemKey(id), StreamOf(log, ItemKey(id)));
    AccountCreditsFit(n0, log, hist, id);
    AccountFoldDoesNotWrap(StreamOf(log, AccountKey(id)));
    ItemStockFits(n0, log, hist, id);
    InventoryFoldDoesNotWrap(StreamOf(log, ItemKey(id)));
  }

  /**
   * The guarded sum of DecideAdjustInventory misleads the rule exactly when it falls below the int64 range, which a
   * stock that is not negative never lets happen.
   */
  lemma AdjustWrapsIff(st: InventoryState, delta: int)
    requires InRange(st.available) && InRange(delta)
    ensures DecideAdjustInventory(Wrapping, st, delta) == DecideAdjustInventory(Exact, st, delta) <==>
            !(delta < 0 && st.available + delta < MIN_INT64)
    ensures st.available >= 0 ==>
              DecideAdjustInventory(Wrapping, st, delta) == DecideAdjustInventory(Exact, st, delta)
  {
  }

  // --- Whole runs ---

  /** The command's numeric arguments are int64 values. */
  predicate Int64Args(cmd: Command) {
    match cmd
    case OpenAccount(_, b, _) => InRange(b)
    case Deposit(_, a, _, v) => InRange(a) && InRange(v)
    case Withdraw(_, a, _, v) => InRange(a) && InRange(v)
    case Transfer(_, _, a, _) => InRange(a)
    case AdjustInventory(_, d, _, v) => InRange(d) && InRange(v)
    case ReserveStock(_, q, _, v) => InRange(q) && InRange(v)
    case ReleaseStock(_, q, _, v) => InRange(q) && InRange(v)
  }

  lemma AccountDecisionsAgree(retries: int, cmd: Command, log: seq<Event>)
    requires cmd.OnAccount() && !cmd.Transfer?
    requires FoldAccount(Wrapping, StreamOf(log, cmd.Primary())) == FoldAccount(Exact, StreamOf(log, cmd.Primary()))
    ensures DecideSingle(Config(retries, Wrapping), cmd, log) == DecideSingle(Config(retries, Exact), cmd, log)
  {
  }

  lemma ItemDecisionsAgree(retries: int, cmd: Command, log: seq<Event>)
    requires !cmd.OnAccount() && Int64Args(cmd)
    requires FoldInventory(Wrapping, StreamOf(log, cmd.Primary())) == FoldInventory(Exact, StreamOf(log, cmd.Primary()))
    requires FoldInventory(Exact, StreamOf(log, cmd.Primary())).Success?
    requires 0 <= FoldInventory(Exact, StreamOf(log, cmd.Primary())).value.available <= MAX_INT64
    ensures DecideSingle(Config(retries, Wrapping), cmd, log) == DecideSingle(Config(retries, Exact), cmd, log)
  {
    if cmd.AdjustInventory? {
      AdjustWrapsIff(FoldInventory(Exact, StreamOf(log, cmd.Primary())).value, cmd.delta);
    }
  }

  /** Under the bound the folded stock of every item is an int64 that is not negative. */
  lemma StockIsInt64(n0: nat, log: seq<Event>, hist: seq<Commit>, item: string)
    requires LogShape(log) && LogSolvent(log) && Fits(n0, log, hist)
    ensures FoldInventory(Exact, StreamOf(log, ItemKey(item))).Success?
    ensures 0 <= FoldInventory(Exact, StreamOf(log, ItemKey(item))).value.available <= MAX_INT64
  {
    var events := StreamOf(log, ItemKey(item));
    assert StreamShape(ItemKey(item), events);
    ItemShapeFolds(Exact, events);
    ItemStockFits(n0, log, hist, item);
    assert events[..|events|] == events;
  }

  lemma DecisionsAgree(retries: int, cmd: Command, n0: nat, log: seq<Event>, hist: seq<Commit>)
    requires Filled(n0, log, hist) && LogShape(log) && LogSolvent(log) && Fits(n0, log, hist)
    requires !cmd.Transfer? && Int64Args(cmd)
    ensures DecideSingle(Config(retries, Wrapping), cmd, log) == DecideSingle(Config(retries, Exact), cmd, log)
  {
    FoldsDoNotWrap(n0, log, hist, cmd.Primary().id);
    if cmd.OnAccount() {
      AccountDecisionsAgree(retries, cmd, log);
    } else {
      StockIsInt64(n0, log, hist, cmd.Primary().id);
      ItemDecisionsAgree(retries, cmd, log);
    }
  }

  predicate SameAccountFold(log: seq<Event>, k: StreamKey) {
    FoldAccount(Wrapping, StreamOf(log, k)) == FoldAccount(Exact, StreamOf(log, k))
  }

  lemma PcsAgree(retries: int, cl: Client, st: StoreState)
    requires cl.cmd.Transfer? ==> SameAccountFold(st.log, cl.cmd.Primary()) && SameAccountFold(st.log, cl.cmd.Last())
    requires !cl.cmd.Transfer? ==>
               DecideSingle(Config(retries, Wrapping), cl.cmd, st.log) ==
               DecideSingle(Config(retries, Exact), cl.cmd, st.log)
    ensures NextPc(Config(retries, Wrapping), cl, st) == NextPc(Config(retries, Exact), cl, st)
  {
    match cl.pc {
      case Start =>
      case Loading(t) =>
      case LoadingLast(t, from, r) =>
      case Appending(t, a, r, rl) =>
        assert PlanOf(Config(retries, Wrapping), cl.cmd) == PlanOf(Config(retries, Exact), cl.cmd);
      case Done(o, r) =>
    }
  }

  lemma StepsAgree(retries: int, n0: nat, s: Sys, i: nat)
    requires Filled(n0, s.store.log, s.hist) && LogShape(s.store.log) && LogSolvent(s.store.log)
    requires Fits(n0, s.store.log, s.hist)
    requires forall j :: 0 <= j < |s.clients| ==> Int64Args(s.clients[j].cmd)
    ensures Step(Config(retries, Wrapping), s, i) == Step(Config(retries, Exact), s, i)
  {
    if i < |s.clients| {
      var cmd := s.clients[i].cmd;
      if cmd.Transfer? {
        FoldsDoNotWrap(n0, s.store.log, s.hist, cmd.Primary().id);
        FoldsDoNotWrap(n0, s.store.log, s.hist, cmd.Last().id);
      } else {
        DecisionsAgree(retries, cmd, n0, s.store.log, s.hist);
      }
      PcsAgree(retries, s.clients[i], s.store);
    }
  }

  /** What fits at the end of a run fitted at any earlier moment of it. */
  lemma FitsEarlier(n0: nat, log: seq<Event>, hist: seq<Commit>, log': seq<Event>, hist': seq<Commit>)
    requires Fits(n0, log', hist') && AllSane(hist')
    requires n0 <= |log| && log <= log' && hist <= hist'
    ensures Fits(n0, log, hist)
  {
    assert hist'[..|hist|] == hist && log'[..|log|] == log && log[..n0] == log'[..n0];
    InflowGrows(hist', |hist|);
    forall item ensures StockRoom(StreamOf(log[..n0], ItemKey(item)), StreamOf(log, ItemKey(item))) {
      var a, b := StreamOf(log, ItemKey(item)), StreamOf(log', ItemKey(item));
      StreamGrows(log', |log|, ItemKey(item));
      assert b[..|a|] == a && b[..|b|] == b;
      ReceivedCovers(b, |a|, |b|);
      assert StockRoom(StreamOf(log'[..n0], ItemKey(item)), b);
    }
  }

  lemma FilledIsSane(n0: nat, log: seq<Event>, hist: seq<Commit>)
    requires Filled(n0, log, hist)
    ensures AllSane(hist)
  {
  }

  /** The run so far fits if the longer run does. */
  lemma RunFitsEarlier(cfg: Config, st0: StoreState, cmds: seq<Command>, schedule: seq<nat>, n: nat)
    requires ValidStore(st0) && n <= |schedule|
    requires var s := Run(cfg, Init(st0, cmds), schedule); Fits(|st0.log|, s.store.log, s.hist)
    ensures var s := Run(cfg, Init(st0, cmds), schedule[..n]); Fits(|st0.log|, s.store.log, s.hist)
  {
    var s, s' := Run(cfg, Init(st0, cmds), schedule[..n]), Run(cfg, Init(st0, cmds), schedule);
    RunExtends(cfg, Init(st0, cmds), schedule, n);
    RunIsFilled(cfg, st0, cmds, schedule);
    RunIsFilled(cfg, st0, cmds, schedule[..n]);
    FilledIsSane(|st0.log|, s'.store.log, s'.hist);
    FitsEarlier(|st0.log|, s.store.log, s.hist, s'.store.log, s'.hist);
  }

  /**
   * In a pin-safe run, from any solvent store, whose starting total and inflow fit in an int64 and whose items'
   * received stock does, the wrapping machine and the exact one go through the same states: no int64 operation
   * of any fold or decision overflows. Every theorem about such a run of the exact machine is one about the
   * Go code.
   */
  lemma {:induction false} WrappingNeverShows(retries: int, st0: StoreState, cmds: seq<Command>, schedule: seq<nat>)
    requires ValidStore(st0) && LogShape(st0.log) && LogSolvent(st0.log)
    requires PinSafeRun(Config(retries, Exact), Init(st0, cmds), schedule)
    requires forall i :: 0 <= i < |cmds| ==> Int64Args(cmds[i])
    requires var s := Run(Config(retries, Exact), Init(st0, cmds), schedule);
             Fits(|st0.log|, s.store.log, s.hist)
    ensures Run(Config(retries, Wrapping), Init(st0, cmds), schedule) ==
            Run(Config(retries, Exact), Init(st0, cmds), schedule)
    decreases |schedule|
  {
    if schedule != [] {
      var cfg, n := Config(retries, Exact), |schedule| - 1;
      var s := Run(cfg, Init(st0, cmds), schedule[..n]);
      RunFitsEarlier(cfg, st0, cmds, schedule, n);
      WrappingNeverShows(retries, st0, cmds, schedule[..n]);
      RunIsFilled(cfg, st0, cmds, schedule[..n]);
      RunKeepsShape(cfg, st0, cmds, schedule[..n]);
      RunKeepsSolvent(cfg, st0, cmds, schedule[..n]);
      RunExtends(cfg, Init(st0, cmds), schedule[..n], n);
      StepsAgree(retries, |st0.log|, s, schedule[n]);
    }
  }

  /** From the empty store: opening balances plus external deposits, and what each item received, fit. */
  lemma WrappingNeverShowsFromEmpty(retries: int, cmds: seq<Command>, schedule: seq<nat>)
    requires PinSafeRun(Config(retries, Exact), Init(EMPTY_STORE, cmds), schedule)
    requires forall i :: 0 <= i < |cmds| ==> Int64Args(cmds[i])
    requires var s := Run(Config(retries, Exact), Init(EMPTY_STORE, cmds), schedule);
             && Inflow(s.hist) <= MAX_INT64
             && forall item :: Received(StreamOf(s.store.log, ItemKey(item))) <= MAX_INT64
    ensures Run(Config(retries, Wrapping), Init(EMPTY_STORE, cmds), schedule) ==
            Run(Config(retries, Exact), Init(EMPTY_STORE, cmds), schedule)
  {
    var s := Run(Config(retries, Exact), Init(EMPTY_STORE, cmds), schedule);
    EmptyLogIsFine();
    FitsFromEmpty(s.store.log, s.hist);
    WrappingNeverShows(retries, EMPTY_STORE, cmds, schedule);
  }
}
