/**
 * Deliveries that jump ahead of the checkpoint: exactly when the views survive one, and what is lost
 * when they do not.
 */
module Jumps {
  import opened Events
  import opened Int64
  import opened Aggregates
  import opened EventLog
  import opened ClientInvariant
  import opened Solvency
  import opened Conservation
  import opened ReadModels
  import opened Deliveries
  import opened ViewTotals

  /** Jumping over events the projection does not care about does no harm. */
  lemma {:induction false} SkippingIrrelevantKeepsViews(
    arith: Arith, kind: Kind, rm: ReadModel, log: seq<Event>, c: nat, n: nat)
    requires c <= n <= |log| && ViewsFold(arith, kind, rm, log[..c])
    requires forall j :: c <= j < n ==> !Relevant(kind, log[j])
    ensures ViewsFold(arith, kind, rm, log[..n])
    decreases n
  {
    if c < n {
      SkippingIrrelevantKeepsViews(arith, kind, rm, log, c, n - 1);
      IrrelevantKeepsViews(arith, kind, rm, log[..n - 1], log[n - 1]);
      assert log[..n - 1] + [log[n - 1]] == log[..n];
    }
  }

  /** A delivery that jumps ahead over irrelevant events only leaves the read model in step. */
  lemma HarmlessJump(arith: Arith, p: Projection, rm: ReadModel, log: seq<Event>, n: nat)
    requires ValidLog(log) && InStep(arith, p, rm, log) && CheckpointOf(rm, p.name) <= n < |log|
    requires forall j :: CheckpointOf(rm, p.name) <= j < n ==> !Relevant(p.kind, log[j])
    ensures InStep(arith, p, ApplyEvent(arith, p, rm, log[n]).1, log)
  {
    SkippingIrrelevantKeepsViews(arith, p.kind, rm, log, CheckpointOf(rm, p.name), n);
    assert Placed(log, n);
    FailsIffNotAccepted(arith, p, rm, log[n]);
    DeliveryFollows(arith, p, rm, log[..n], log[n]);
    assert log[..n] + [log[n]] == log[..n + 1];
  }

  // --- Exactly when a jump is harmless ---

  lemma {:induction false} CreditsConcat(a: seq<Event>, b: seq<Event>)
    ensures Credits(a + b) == Credits(a) + Credits(b)
    decreases |b|
  {
    if b == [] {
      assert a + b == a;
    } else {
      assert (a + b)[..|a + b| - 1] == a + b[..|b| - 1];
      CreditsConcat(a, b[..|b| - 1]);
    }
  }

  lemma {:induction false} StockConcat(a: seq<Event>, b: seq<Event>)
    ensures Available(a + b) == Available(a) + Available(b)
    ensures Reserved(a + b) == Reserved(a) + Reserved(b)
    decreases |b|
  {
    if b == [] {
      assert a + b == a;
    } else {
      assert (a + b)[..|a + b| - 1] == a + b[..|b| - 1];
      StockConcat(a, b[..|b| - 1]);
    }
  }

  /** What a jump from c over the events up to n does to account id: nothing visible. */
  predicate AccountSurvives(log: seq<Event>, c: nat, n: nat, id: string)
    requires c <= n < |log|
  {
    var skipped := StreamOf(log[c..n], AccountKey(id));
    && (skipped == [] || log[n].stream == AccountKey(id))
    && Credits(skipped) == 0
  }

  predicate ItemSurvives(log: seq<Event>, c: nat, n: nat, id: string)
    requires c <= n < |log|
  {
    var skipped := StreamOf(log[c..n], ItemKey(id));
    && (skipped == [] || log[n].stream == ItemKey(id))
    && Available(skipped) == 0 && Reserved(skipped) == 0
  }

  predicate Numbered(events: seq<Event>) {
    forall i :: 0 <= i < |events| ==> events[i].version == i + 1
  }

  /** A stream that was delivered with a gap: `skipped` is missing, `own` is the event that was delivered. */
  predicate Gapped(kept: seq<Event>, skipped: seq<Event>, own: seq<Event>, full: seq<Event>) {
    full == kept + skipped + own && |own| <= 1 && Numbered(full)
  }

  /** One more event that fits somewhere in an account stream, after a well-formed stream. */
  lemma AccountFoldOneMore(kept: seq<Event>, e: Event)
    requires AccountShape(kept) && (AccountEventFits(e, false) || (kept == [] && AccountEventFits(e, true)))
    ensures FoldAccount(Exact, kept + [e]).Success?
    ensures FoldAccount(Exact, kept + [e]).value.balanceCents == Credits(kept) + Credit(e.payload)
  {
    AccountShapeFolds(Exact, kept);
    FoldAccountSnoc(Exact, kept, e);
  }

  lemma CreditsOfOne(e: Event)
    ensures Credits([e]) == Credit(e.payload)
  {
    assert [e][..0] == [];
  }

  lemma ShapeOfKept(kept: seq<Event>, skipped: seq<Event>, own: seq<Event>, full: seq<Event>)
    requires Gapped(kept, skipped, own, full) && AccountShape(full)
    ensures AccountShape(kept)
    ensures own != [] ==> AccountEventFits(own[0], |full| == 1)
  {
    assert forall i :: 0 <= i < |kept| ==> kept[i] == full[i];
    if own != [] {
      assert own[0] == full[|full| - 1];
    }
  }

  lemma AccountFoldWithGap(kept: seq<Event>, skipped: seq<Event>, own: seq<Event>, full: seq<Event>)
    requires Gapped(kept, skipped, own, full) && AccountShape(full)
    ensures FoldAccount(Exact, kept + own).Success?
    ensures FoldAccount(Exact, kept + own).value.balanceCents == Credits(kept) + Credits(own)
  {
    ShapeOfKept(kept, skipped, own, full);
    if own == [] {
      assert kept + own == kept;
      AccountShapeFolds(Exact, kept);
    } else {
      assert own == [own[0]];
      AccountFoldOneMore(kept, own[0]);
      CreditsOfOne(own[0]);
    }
  }

  lemma ItemFoldWithGap(kept: seq<Event>, skipped: seq<Event>, own: seq<Event>, full: seq<Event>)
    requires Gapped(kept, skipped, own, full) && ItemShape(full)
    ensures FoldInventory(Exact, kept + own).Success?
    ensures FoldInventory(Exact, kept + own).value.available == Available(kept) + Available(own)
    ensures FoldInventory(Exact, kept + own).value.reserved == Reserved(kept) + Reserved(own)
  {
    var gapped := kept + own;
    assert forall i :: 0 <= i < |gapped| ==> gapped[i] == full[if i < |kept| then i else |full| - 1];
    assert ItemShape(gapped);
    ItemShapeFolds(Exact, gapped);
    StockConcat(kept, own);
  }

  /** The version a fold reports after a gap is the right one iff nothing was skipped or the last event was not. */
  lemma VersionWithGap(kept: seq<Event>, skipped: seq<Event>, own: seq<Event>, full: seq<Event>)
    requires Gapped(kept, skipped, own, full)
    ensures LastVersion(kept + own) == LastVersion(full) <==> skipped == [] || own != []
    ensures skipped == [] || own != [] ==> (kept + own != [] <==> full != [])
  {
    if kept + own != [] {
      var gapped := kept + own;
      assert gapped[|gapped| - 1] == full[if own == [] then |kept| - 1 else |full| - 1];
    }
  }

  function LastVersion(events: seq<Event>): int {
    if events == [] then 0 else events[|events| - 1].version
  }

  lemma AccountGapShows(kept: seq<Event>, skipped: seq<Event>, own: seq<Event>, full: seq<Event>)
    requires Gapped(kept, skipped, own, full) && AccountShape(full)
    ensures FoldAccount(Exact, kept + own).Success? && FoldAccount(Exact, full).Success?
    ensures && (kept + own != [] <==> full != [])
            && ShowAccount(FoldAccount(Exact, kept + own).value) == ShowAccount(FoldAccount(Exact, full).value)
            <==> (skipped == [] || own != []) && Credits(skipped) == 0
  {
    AccountFoldWithGap(kept, skipped, own, full);
    AccountShapeFolds(Exact, full);
    CreditsConcat(kept + skipped, own);
    CreditsConcat(kept, skipped);
    FoldReportsLastVersion(Exact, kept + own);
    FoldReportsLastVersion(Exact, full);
    VersionWithGap(kept, skipped, own, full);
  }

  lemma ItemGapShows(kept: seq<Event>, skipped: seq<Event>, own: seq<Event>, full: seq<Event>)
    requires Gapped(kept, skipped, own, full) && ItemShape(full)
    ensures FoldInventory(Exact, kept + own).Success? && FoldInventory(Exact, full).Success?
    ensures && (kept + own != [] <==> full != [])
            && ShowItem(FoldInventory(Exact, kept + own).value) == ShowItem(FoldInventory(Exact, full).value)
            <==> (skipped == [] || own != []) && Available(skipped) == 0 && Reserved(skipped) == 0
  {
    ItemFoldWithGap(kept, skipped, own, full);
    ItemShapeFolds(Exact, full);
    StockConcat(kept + skipped, own);
    StockConcat(kept, skipped);
    FoldReportsLastVersion(Exact, kept + own);
    FoldReportsLastVersion(Exact, full);
    VersionWithGap(kept, skipped, own, full);
  }

  /** The event of the jump itself, if it belongs to stream k. */
  function OwnPart(e: Event, k: StreamKey): seq<Event> {
    if e.stream == k then [e] else []
  }

  lemma StreamIsNumbered(log: seq<Event>, k: StreamKey)
    requires ValidLog(log)
    ensures Numbered(StreamOf(log, k))
  {
    var events := StreamOf(log, k);
    forall i | 0 <= i < |events| ensures events[i].version == i + 1 {
      StreamVersionsAreDense(log, k, i);
    }
  }

  /** How a jump from c to n cuts stream k. */
  lemma JumpCutsStream(log: seq<Event>, c: nat, n: nat, k: StreamKey)
    requires ValidLog(log) && c <= n < |log|
    ensures StreamOf(log[..c] + [log[n]], k) == StreamOf(log[..c], k) + OwnPart(log[n], k)
    ensures Gapped(StreamOf(log[..c], k), StreamOf(log[c..n], k), OwnPart(log[n], k), StreamOf(log[..n + 1], k))
  {
    StreamOfSnoc(log[..c], log[n], k);
    StreamInThree(log, c, n, k);
    PrefixIsValid(log, n + 1);
    StreamIsNumbered(log[..n + 1], k);
  }

  lemma StreamInThree(log: seq<Event>, c: nat, n: nat, k: StreamKey)
    requires c <= n < |log|
    ensures StreamOf(log[..n + 1], k) == StreamOf(log[..c], k) + StreamOf(log[c..n], k) + OwnPart(log[n], k)
  {
    assert log[..n + 1] == log[..n] + [log[n]];
    StreamOfSnoc(log[..n], log[n], k);
    assert log[..n] == log[..c] + log[c..n];
    StreamOfConcat(log[..c], log[c..n], k);
  }

  lemma AccountAfterJump(rm: ReadModel, log: seq<Event>, c: nat, n: nat, id: string)
    requires ValidLog(log) && LogShape(log) && c <= n < |log|
    requires AccountViewFits(Exact, rm, StreamOf(log[..c] + [log[n]], AccountKey(id)), id)
    ensures AccountViewFits(Exact, rm, StreamOf(log[..n + 1], AccountKey(id)), id) <==> AccountSurvives(log, c, n, id)
  {
    var k := AccountKey(id);
    JumpCutsStream(log, c, n, k);
    ShapeOfPrefix(log, n + 1);
    assert StreamShape(k, StreamOf(log[..n + 1], k));
    AccountGapShows(StreamOf(log[..c], k), StreamOf(log[c..n], k), OwnPart(log[n], k), StreamOf(log[..n + 1], k));
  }

  lemma ItemAfterJump(rm: ReadModel, log: seq<Event>, c: nat, n: nat, id: string)
    requires ValidLog(log) && LogShape(log) && c <= n < |log|
    requires ItemViewFits(Exact, rm, StreamOf(log[..c] + [log[n]], ItemKey(id)), id)
    ensures ItemViewFits(Exact, rm, StreamOf(log[..n + 1], ItemKey(id)), id) <==> ItemSurvives(log, c, n, id)
  {
    var k := ItemKey(id);
    JumpCutsStream(log, c, n, k);
    ShapeOfPrefix(log, n + 1);
    assert StreamShape(k, StreamOf(log[..n + 1], k));
    ItemGapShows(StreamOf(log[..c], k), StreamOf(log[c..n], k), OwnPart(log[n], k), StreamOf(log[..n + 1], k));
  }

  /** After the jump the views stand for the log up to c plus the one delivered event, at checkpoint n + 1. */
  lemma WhatAJumpLeaves(p: Projection, rm: ReadModel, log: seq<Event>, n: nat)
    requires ValidLog(log) && LogShape(log) && InStep(Exact, p, rm, log) && CheckpointOf(rm, p.name) <= n < |log|
    ensures var rm' := ApplyEvent(Exact, p, rm, log[n]).1;
            && CheckpointOf(rm', p.name) == n + 1
            && ViewsFold(Exact, p.kind, rm', log[..CheckpointOf(rm, p.name)] + [log[n]])
  {
    assert Placed(log, n);
    CommandsWriteDigestibleEvents(log, p.kind, n);
    FailsIffNotAccepted(Exact, p, rm, log[n]);
    DeliveryFollows(Exact, p, rm, log[..CheckpointOf(rm, p.name)], log[n]);
  }

  /**
   * The exact condition for account views. On a log that commands have written, a delivery that jumps from
   * checkpoint c to event n leaves the views equal to the direct folds iff for every account the jumped-over
   * events add up to nothing, and there are none of them unless the delivered event is that account's own.
   */
  lemma AccountJumpIsHarmlessIff(p: Projection, rm: ReadModel, log: seq<Event>, n: nat)
    requires ValidLog(log) && LogShape(log) && p.kind.Balances?
    requires InStep(Exact, p, rm, log) && CheckpointOf(rm, p.name) <= n < |log|
    ensures InStep(Exact, p, ApplyEvent(Exact, p, rm, log[n]).1, log) <==>
            forall id :: AccountSurvives(log, CheckpointOf(rm, p.name), n, id)
  {
    var c, rm' := CheckpointOf(rm, p.name), ApplyEvent(Exact, p, rm, log[n]).1;
    WhatAJumpLeaves(p, rm, log, n);
    forall id ensures AccountViewFits(Exact, rm', StreamOf(log[..n + 1], AccountKey(id)), id) <==>
                      AccountSurvives(log, c, n, id)
    {
      AccountAfterJump(rm', log, c, n, id);
    }
  }

  /** The exact condition for stock views: neither stock nor reservations may change in what is jumped over. */
  lemma ItemJumpIsHarmlessIff(p: Projection, rm: ReadModel, log: seq<Event>, n: nat)
    requires ValidLog(log) && LogShape(log) && p.kind.Stock?
    requires InStep(Exact, p, rm, log) && CheckpointOf(rm, p.name) <= n < |log|
    ensures InStep(Exact, p, ApplyEvent(Exact, p, rm, log[n]).1, log) <==>
            forall id :: ItemSurvives(log, CheckpointOf(rm, p.name), n, id)
  {
    var c, rm' := CheckpointOf(rm, p.name), ApplyEvent(Exact, p, rm, log[n]).1;
    WhatAJumpLeaves(p, rm, log, n);
    forall id ensures ItemViewFits(Exact, rm', StreamOf(log[..n + 1], ItemKey(id)), id) <==>
                      ItemSurvives(log, c, n, id)
    {
      ItemAfterJump(rm', log, c, n, id);
    }
  }

  // --- What a jump loses ---

  /** Delivering only the second of the two events builds a view out of that event alone. */
  lemma SecondEventOnly(p: Projection, account: string, b: int, a: int)
    requires p.kind.Balances?
    ensures var rm := ApplyEvent(Exact, p, EMPTY_READ_MODEL, OpenAndDeposit(account, b, a)[1]).1;
            CheckpointOf(rm, p.name) == 2 && AccountViewOf(rm, account) == AccountView(a, 2)
  {
  }

  lemma OpenAndDepositFold(account: string, b: int, a: int)
    ensures var log := OpenAndDeposit(account, b, a);
            && StreamOf(log, AccountKey(account)) == log
            && FoldAccount(Exact, log) == Success(AccountState(2, true, b + a))
  {
    var log := OpenAndDeposit(account, b, a);
    FoldAccountSnoc(Exact, [], log[0]);
    FoldAccountSnoc(Exact, [log[0]], log[1]);
    assert [] + [log[0]] == [log[0]] && [log[0]] + [log[1]] == log;
    StreamOfOne(log[0], AccountKey(account));
    StreamOfSnoc([log[0]], log[1], AccountKey(account));
  }

  /**
   * A jump loses money for good: if only the deposit of a freshly opened account is delivered, the view
   * misses the opening balance, and no later deliveries of the log's events ever put it right.
   */
  lemma JumpLosesTheOpening(p: Projection, account: string, b: int, a: int, ds: seq<Event>)
    requires p.kind.Balances? && b != 0
    requires forall i :: 0 <= i < |ds| ==> ds[i] in OpenAndDeposit(account, b, a)
    ensures var log := OpenAndDeposit(account, b, a);
            var rm := DeliverAll(Exact, p, ApplyEvent(Exact, p, EMPTY_READ_MODEL, log[1]).1, ds);
            && CheckpointOf(rm, p.name) == |log|
            && AccountViewOf(rm, account).balanceCents == a
            && FoldAccount(Exact, StreamOf(log, AccountKey(account))) == Success(AccountState(2, true, b + a))
  {
    SecondEventOnly(p, account, b, a);
    NothingNew(Exact, p, ApplyEvent(Exact, p, EMPTY_READ_MODEL, OpenAndDeposit(account, b, a)[1]).1, ds);
    OpenAndDepositFold(account, b, a);
  }

  function OpenAndDeposit(account: string, b: int, a: int): seq<Event> {
    [Event(1, AccountKey(account), 1, AccountOpened(b), ""), Event(2, AccountKey(account), 2, FundsDeposited(a), "")]
  }
}
