/** Two projections of different name and kind that share one read-model store. */
module Separation {
  import opened Events
  import opened Int64
  import opened Aggregates
  import opened EventLog
  import opened ReadModels
  import opened Deliveries

  /** Two projections that neither share a checkpoint nor write the same views. */
  predicate Apart(p: Projection, q: Projection) {
    p.name != q.name && p.kind != q.kind
  }

  /** What projection p alone is responsible for: its checkpoint and the views of its kind. */
  datatype Slice =
    | BalanceSlice(checkpoint: int, accounts: map<string, AccountView>)
    | StockSlice(checkpoint: int, inventory: map<string, InventoryView>)

  function SliceOf(p: Projection, rm: ReadModel): Slice {
    match p.kind
    case Balances => BalanceSlice(CheckpointOf(rm, p.name), rm.accounts)
    case Stock => StockSlice(CheckpointOf(rm, p.name), rm.inventory)
  }

  /** A delivery to q leaves p's slice alone. */
  lemma ForeignDeliveryKeepsSlice(arith: Arith, p: Projection, q: Projection, rm: ReadModel, e: Event)
    requires Apart(p, q)
    ensures SliceOf(p, ApplyEvent(arith, q, rm, e).1) == SliceOf(p, rm)
  {
  }

  lemma ApplySeesOnlySlice(arith: Arith, p: Projection, rm1: ReadModel, rm2: ReadModel, e: Event)
    requires SliceOf(p, rm1) == SliceOf(p, rm2)
    ensures var r1, r2 := ApplyToViews(arith, p.kind, rm1, e), ApplyToViews(arith, p.kind, rm2, e);
            && (r1.Success? <==> r2.Success?)
            && (r1.Success? ==> SliceOf(p, r1.value) == SliceOf(p, r2.value))
            && (r1.Failure? ==> r1.error == r2.error)
  {
  }

  lemma AdvanceSeesOnlySlice(p: Projection, rm1: ReadModel, rm2: ReadModel, n: int)
    requires SliceOf(p, rm1) == SliceOf(p, rm2)
    ensures SliceOf(p, Advance(rm1, p.name, n)) == SliceOf(p, Advance(rm2, p.name, n))
  {
  }

  /** A delivery to p sees nothing but p's slice. */
  lemma DeliverySeesOnlySlice(arith: Arith, p: Projection, rm1: ReadModel, rm2: ReadModel, e: Event)
    requires SliceOf(p, rm1) == SliceOf(p, rm2)
    ensures ApplyEvent(arith, p, rm1, e).0 == ApplyEvent(arith, p, rm2, e).0
    ensures SliceOf(p, ApplyEvent(arith, p, rm1, e).1) == SliceOf(p, ApplyEvent(arith, p, rm2, e).1)
  {
    assert CheckpointOf(rm1, p.name) == CheckpointOf(rm2, p.name);
    if e.globalSeq > CheckpointOf(rm1, p.name) {
      if Relevant(p.kind, e) {
        ApplySeesOnlySlice(arith, p, rm1, rm2, e);
        var r1, r2 := ApplyToViews(arith, p.kind, rm1, e), ApplyToViews(arith, p.kind, rm2, e);
        if r1.Success? {
          AdvanceSeesOnlySlice(p, r1.value, r2.value, e.globalSeq);
        }
      } else {
        AdvanceSeesOnlySlice(p, rm1, rm2, e.globalSeq);
      }
    }
  }

  /** Being in step is a property of the slice. */
  lemma InStepIsOfSlice(arith: Arith, p: Projection, rm1: ReadModel, rm2: ReadModel, log: seq<Event>)
    requires SliceOf(p, rm1) == SliceOf(p, rm2) && InStep(arith, p, rm1, log)
    ensures InStep(arith, p, rm2, log)
  {
    var done := log[..CheckpointOf(rm1, p.name)];
    match p.kind {
      case Balances =>
        forall id ensures AccountViewFits(arith, rm2, StreamOf(done, AccountKey(id)), id) {
          assert AccountViewFits(arith, rm1, StreamOf(done, AccountKey(id)), id);
        }
      case Stock =>
        forall id ensures ItemViewFits(arith, rm2, StreamOf(done, ItemKey(id)), id) {
          assert ItemViewFits(arith, rm1, StreamOf(done, ItemKey(id)), id);
        }
    }
  }

  datatype Delivery = Delivery(to: Projection, event: Event)

  /** Deliveries to several projections, one critical section after the other, with their answers. */
  function Interleaved(arith: Arith, rm: ReadModel, ds: seq<Delivery>): (ReadModel, seq<Answer>) {
    if ds == [] then (rm, [])
    else
      var d := ds[|ds| - 1];
      var before := Interleaved(arith, rm, ds[..|ds| - 1]);
      var (answer, rm') := ApplyEvent(arith, d.to, before.0, d.event);
      (rm', before.1 + [answer])
  }

  /** The events delivered to p, in order. */
  function DeliveredTo(p: Projection, ds: seq<Delivery>): seq<Event> {
    if ds == [] then []
    else
      var d := ds[|ds| - 1];
      DeliveredTo(p, ds[..|ds| - 1]) + if d.to == p then [d.event] else []
  }

  /** p's answers among the answers to all deliveries. */
  function AnswersTo(p: Projection, ds: seq<Delivery>, answers: seq<Answer>): seq<Answer>
    requires |ds| == |answers|
  {
    if ds == [] then []
    else
      var n := |ds| - 1;
      AnswersTo(p, ds[..n], answers[..n]) + if ds[n].to == p then [answers[n]] else []
  }

  /** The answers p gives when it runs alone. */
  function AnswersAlone(arith: Arith, p: Projection, rm: ReadModel, es: seq<Event>): seq<Answer> {
    if es == [] then []
    else
      var n := |es| - 1;
      AnswersAlone(arith, p, rm, es[..n]) + [ApplyEvent(arith, p, DeliverAll(arith, p, rm, es[..n]), es[n]).0]
  }

  lemma {:induction false} OneAnswerEach(arith: Arith, rm: ReadModel, ds: seq<Delivery>)
    ensures |Interleaved(arith, rm, ds).1| == |ds|
    decreases |ds|
  {
    if ds != [] {
      OneAnswerEach(arith, rm, ds[..|ds| - 1]);
    }
  }

  /**
   * Non-interference: however deliveries to other projections are mixed in, p's checkpoint, p's views and
   * p's answers are those of p running alone on its own deliveries.
   */
  lemma {:induction false} MixedIsAlone(arith: Arith, p: Projection, rm: ReadModel, ds: seq<Delivery>)
    requires forall i :: 0 <= i < |ds| ==> ds[i].to == p || Apart(p, ds[i].to)
    ensures SliceOf(p, Interleaved(arith, rm, ds).0) == SliceOf(p, DeliverAll(arith, p, rm, DeliveredTo(p, ds)))
    ensures |Interleaved(arith, rm, ds).1| == |ds|
    ensures AnswersTo(p, ds, Interleaved(arith, rm, ds).1) == AnswersAlone(arith, p, rm, DeliveredTo(p, ds))
    decreases |ds|
  {
    OneAnswerEach(arith, rm, ds);
    if ds != [] {
      var n := |ds| - 1;
      var d := ds[n];
      OneAnswerEach(arith, rm, ds[..n]);
      MixedIsAlone(arith, p, rm, ds[..n]);
      var mixed, own := Interleaved(arith, rm, ds[..n]), DeliveredTo(p, ds[..n]);
      assert Interleaved(arith, rm, ds).1[..n] == mixed.1;
      if d.to == p {
        DeliverySeesOnlySlice(arith, p, mixed.0, DeliverAll(arith, p, rm, own), d.event);
        OwnDelivery(arith, p, rm, own, d.event);
      } else {
        ForeignDeliveryKeepsSlice(arith, p, d.to, mixed.0, d.event);
        assert own + [] == own;
      }
    }
  }

  lemma OwnDelivery(arith: Arith, p: Projection, rm: ReadModel, es: seq<Event>, e: Event)
    ensures DeliverAll(arith, p, rm, es + [e]) == ApplyEvent(arith, p, DeliverAll(arith, p, rm, es), e).1
    ensures AnswersAlone(arith, p, rm, es + [e]) ==
            AnswersAlone(arith, p, rm, es) + [ApplyEvent(arith, p, DeliverAll(arith, p, rm, es), e).0]
  {
    assert (es + [e])[..|es|] == es;
  }
}
