/** The balances projection shows the conserved total, and its int64 arithmetic is as safe as the fold's. */
module ViewTotals {
  import opened Events
  import opened Int64
  import opened Aggregates
  import opened EventLog
  import opened Commands
  import opened Protocol
  import opened ClientInvariant
  import opened History
  import opened Solvency
  import opened Contention
  import opened Conservation
  import opened Overflow
  import opened ReadModels
  import opened Deliveries
  import opened Projector

  ghost function SumOfViews(views: map<string, AccountView>, ids: set<string>): int
    requires ids <= views.Keys
  {
    if ids == {} then 0
    else
      var a :| a in ids;
      views[a].balanceCents + SumOfViews(views, ids - {a})
  }

  /** The total over all account views. */
  ghost function ViewTotal(rm: ReadModel): int {
    SumOfViews(rm.accounts, rm.accounts.Keys)
  }

  lemma {:induction false} ViewSumIsBalanceSum(log: seq<Event>, views: map<string, AccountView>, ids: set<string>)
    requires ids <= views.Keys
    requires forall a :: a in ids ==> views[a].balanceCents == BalanceOf(log, a)
    ensures SumOfViews(views, ids) == SumOfBalances(log, ids)
    decreases |ids|
  {
    if ids != {} {
      var a :| a in ids && SumOfViews(views, ids) == views[a].balanceCents + SumOfViews(views, ids - {a});
      ViewSumIsBalanceSum(log, views, ids - {a});
      SumPick(log, ids, a);
    }
  }

  lemma {:induction false} EventsMakeStreams(log: seq<Event>, k: StreamKey, i: nat)
    requires i < |log| && log[i].stream == k
    ensures StreamOf(log, k) != []
  {
    assert log[..i + 1] == log[..i] + [log[i]];
    StreamOfSnoc(log[..i], log[i], k);
    StreamGrows(log, i + 1, k);
  }

  /** There is a view for exactly the accounts that have events. */
  lemma ViewsAreAccounts(rm: ReadModel, done: seq<Event>)
    requires ViewsFold(Exact, Balances, rm, done)
    ensures rm.accounts.Keys == AccountsOf(done)
  {
    forall id ensures id in rm.accounts.Keys <==> id in AccountsOf(done) {
      assert AccountViewFits(Exact, rm, StreamOf(done, AccountKey(id)), id);
      if id in AccountsOf(done) {
        var e :| e in done && e.stream.kind.Account? && e.stream.id == id;
        var i :| 0 <= i < |done| && done[i] == e;
        EventsMakeStreams(done, AccountKey(id), i);
      } else {
        NoAccountNoStream(done, id);
      }
    }
  }

  /** The views of a balances projection add up to the ledger's total at its checkpoint. */
  lemma ViewTotalIsLedgerTotal(rm: ReadModel, done: seq<Event>)
    requires ViewsFold(Exact, Balances, rm, done)
    ensures ViewTotal(rm) == TotalBalance(done)
  {
    ViewsAreAccounts(rm, done);
    forall a | a in rm.accounts.Keys ensures rm.accounts[a].balanceCents == BalanceOf(done, a) {
      assert AccountViewFits(Exact, rm, StreamOf(done, AccountKey(a)), a);
    }
    ViewSumIsBalanceSum(done, rm.accounts, rm.accounts.Keys);
  }

  /**
   * A balances projection in step with the log of any command run shows, at any checkpoint c, the starting
   * total plus the external flow committed before c, short by exactly the amount of a transfer whose two
   * legs c separates, and never in excess.
   */
  lemma ViewsShowTheConservedTotal(
    cfg: Config, st0: StoreState, cmds: seq<Command>, schedule: seq<nat>, p: Projection, rm: ReadModel)
    returns (m: nat, split: bool)
    requires ValidStore(st0) && LogShape(st0.log) && p.kind.Balances?
    requires InStep(Exact, p, rm, Run(cfg, Init(st0, cmds), schedule).store.log)
    requires |st0.log| <= CheckpointOf(rm, p.name)
    ensures var s := Run(cfg, Init(st0, cmds), schedule);
            && LiesAt(s.store.log, s.hist, CheckpointOf(rm, p.name), m, split)
            && ViewTotal(rm) == TotalBalance(st0.log) + FlowBefore(s.hist, m) - InFlight(s.hist, m, split)
            && InFlight(s.hist, m, split) >= 0
            && (InFlight(s.hist, m, split) > 0 <==> split)
  {
    var c := CheckpointOf(rm, p.name);
    m, split := ConservedAtEveryPoint(cfg, st0, cmds, schedule, c);
    ViewTotalIsLedgerTotal(rm, Run(cfg, Init(st0, cmds), schedule).store.log[..c]);
  }

  /** Every event of the log occurs in its own stream. */
  lemma {:induction false} EventInStream(log: seq<Event>, j: nat) returns (i: nat)
    requires j < |log|
    ensures i < Version(log, log[j].stream) && StreamOf(log, log[j].stream)[i] == log[j]
  {
    var k := log[j].stream;
    i := Version(log[..j], k);
    assert log[..j + 1] == log[..j] + [log[j]];
    StreamOfSnoc(log[..j], log[j], k);
    StreamGrows(log, j + 1, k);
  }

  /** The projections can digest everything the commands ever write. */
  lemma CommandsWriteDigestibleEvents(log: seq<Event>, kind: Kind, j: nat)
    requires LogShape(log) && j < |log|
    ensures Accepts(kind, log[j])
  {
    var k := log[j].stream;
    var i := EventInStream(log, j);
    assert StreamShape(k, StreamOf(log, k));
    if k.kind.Account? {
      assert AccountEventFits(StreamOf(log, k)[i], i == 0);
    } else if k.kind.InventoryItem? {
      assert ItemEventFits(StreamOf(log, k)[i]);
    }
  }

  /** On a log that commands have written, CatchUp finds nothing to stop at. */
  lemma CatchUpReachesTheEnd(
    p: Projection, log: seq<Event>, rm0: ReadModel, rm: ReadModel, applied: nat, failed: bool)
    requires ValidLog(log) && LogShape(log)
    requires InStep(Exact, p, rm0, log) && CaughtUp(Exact, p, log, rm0, rm, applied, failed)
    ensures !failed && CheckpointOf(rm, p.name) == |log| && ViewsFold(Exact, p.kind, rm, log)
  {
    CatchUpKeepsInStep(Exact, p, log, rm0, rm, applied, failed);
    var c := CheckpointOf(rm, p.name);
    if c < |log| {
      CommandsWriteDigestibleEvents(log, p.kind, c);
    }
    assert log[..|log|] == log;
  }

  /**
   * A CatchUp of the balances projection on the log of any command run succeeds, ends at the latest event,
   * and then the views add up to the starting total plus everything that flowed in or out.
   */
  lemma CatchUpShowsTheLedger(
    cfg: Config, st0: StoreState, cmds: seq<Command>, schedule: seq<nat>,
    p: Projection, rm0: ReadModel, rm: ReadModel, applied: nat, failed: bool)
    requires ValidStore(st0) && LogShape(st0.log) && p.kind.Balances?
    requires var log := Run(cfg, Init(st0, cmds), schedule).store.log;
             InStep(Exact, p, rm0, log) && CaughtUp(Exact, p, log, rm0, rm, applied, failed)
    ensures var s := Run(cfg, Init(st0, cmds), schedule);
            && !failed
            && CheckpointOf(rm, p.name) == |s.store.log|
            && ViewsFold(Exact, Balances, rm, s.store.log)
            && ViewTotal(rm) == TotalBalance(st0.log) + ExternalFlow(s.hist)
  {
    var log := Run(cfg, Init(st0, cmds), schedule).store.log;
    RunKeepsShape(cfg, st0, cmds, schedule);
    RunKeepsInv(cfg, st0, cmds, schedule);
    CatchUpReachesTheEnd(p, log, rm0, rm, applied, failed);
    ViewTotalIsLedgerTotal(rm, log);
    MoneyIsConserved(cfg, st0, cmds, schedule);
  }

  // --- The appliers' int64 arithmetic ---

  lemma PrefixOfFits(log: seq<Event>, n: nat, id: string)
    requires n <= |log|
    requires CreditsFit(StreamOf(log, AccountKey(id))) && StockFits(StreamOf(log, ItemKey(id)))
    ensures CreditsFit(StreamOf(log[..n], AccountKey(id))) && StockFits(StreamOf(log[..n], ItemKey(id)))
  {
    var a, b := StreamOf(log[..n], AccountKey(id)), StreamOf(log, AccountKey(id));
    var c, d := StreamOf(log[..n], ItemKey(id)), StreamOf(log, ItemKey(id));
    StreamGrows(log, n, AccountKey(id));
    StreamGrows(log, n, ItemKey(id));
    assert forall j :: 0 <= j <= |a| ==> a[..j] == b[..j];
    assert forall j :: 0 <= j <= |c| ==> c[..j] == d[..j];
  }

  /**
   * Under the bound on inflow and received stock, the views the appliers compute with wrapping additions
   * are those of exact arithmetic, at every checkpoint: no addition of AccountApplier or InventoryApplier
   * leaves the int64 range.
   */
  lemma ViewsDoNotWrap(n0: nat, log: seq<Event>, hist: seq<Commit>, kind: Kind, rm: ReadModel, c: nat)
    requires Filled(n0, log, hist) && LogShape(log) && LogSolvent(log) && Fits(n0, log, hist) && c <= |log|
    ensures ViewsFold(Wrapping, kind, rm, log[..c]) <==> ViewsFold(Exact, kind, rm, log[..c])
  {
    forall id ensures FoldAccount(Wrapping, StreamOf(log[..c], AccountKey(id))) ==
                      FoldAccount(Exact, StreamOf(log[..c], AccountKey(id)))
              ensures FoldInventory(Wrapping, StreamOf(log[..c], ItemKey(id))) ==
                      FoldInventory(Exact, StreamOf(log[..c], ItemKey(id)))
    {
      PrefixFoldsDoNotWrap(n0, log, hist, c, id);
    }
    match kind {
      case Balances =>
        forall id ensures AccountViewFits(Wrapping, rm, StreamOf(log[..c], AccountKey(id)), id) <==>
                          AccountViewFits(Exact, rm, StreamOf(log[..c], AccountKey(id)), id) {
        }
      case Stock =>
        forall id ensures ItemViewFits(Wrapping, rm, StreamOf(log[..c], ItemKey(id)), id) <==>
                          ItemViewFits(Exact, rm, StreamOf(log[..c], ItemKey(id)), id) {
        }
    }
  }

  lemma PrefixFoldsDoNotWrap(n0: nat, log: seq<Event>, hist: seq<Commit>, c: nat, id: string)
    requires Filled(n0, log, hist) && LogShape(log) && LogSolvent(log) && Fits(n0, log, hist) && c <= |log|
    ensures FoldAccount(Wrapping, StreamOf(log[..c], AccountKey(id))) ==
            FoldAccount(Exact, StreamOf(log[..c], AccountKey(id)))
    ensures FoldInventory(Wrapping, StreamOf(log[..c], ItemKey(id))) ==
            FoldInventory(Exact, StreamOf(log[..c], ItemKey(id)))
  {
    AccountCreditsFit(n0, log, hist, id);
    ItemStockFits(n0, log, hist, id);
    PrefixOfFits(log, c, id);
    ShapeOfPrefix(log, c);
    assert StreamShape(AccountKey(id), StreamOf(log[..c], AccountKey(id)));
    assert StreamShape(ItemKey(id), StreamOf(log[..c], ItemKey(id)));
    AccountFoldDoesNotWrap(StreamOf(log[..c], AccountKey(id)));
    InventoryFoldDoesNotWrap(StreamOf(log[..c], ItemKey(id)));
  }
}
