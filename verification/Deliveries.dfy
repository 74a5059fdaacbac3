/** Any sequence of deliveries: reordered, duplicated, with gaps. */
module Deliveries {
  import opened Events
  import opened Int64
  import opened Aggregates
  import opened EventLog
  import opened ReadModels

  function DeliverAll(arith: Arith, p: Projection, rm: ReadModel, ds: seq<Event>): ReadModel {
    if ds == [] then rm
    else ApplyEvent(arith, p, DeliverAll(arith, p, rm, ds[..|ds| - 1]), ds[|ds| - 1]).1
  }

  /** Delivery i is a strict left-to-right maximum of GlobalSeq above the starting checkpoint c0. */
  predicate IsRecord(kind: Kind, c0: int, ds: seq<Event>, i: nat)
    requires i < |ds|
  {
    && Accepts(kind, ds[i])
    && ds[i].globalSeq > c0
    && forall j :: 0 <= j < i && Accepts(kind, ds[j]) ==> ds[j].globalSeq < ds[i].globalSeq
  }

  /** The deliveries that are records, in order. */
  function Records(kind: Kind, c0: int, ds: seq<Event>): seq<Event> {
    if ds == [] then []
    else
      var n := |ds| - 1;
      Records(kind, c0, ds[..n]) + if IsRecord(kind, c0, ds, n) then [ds[n]] else []
  }

  /** m is the largest of c0 and the sequence numbers of the digestible deliveries. */
  predicate IsHighest(kind: Kind, c0: int, ds: seq<Event>, m: int) {
    && c0 <= m
    && (forall j :: 0 <= j < |ds| && Accepts(kind, ds[j]) ==> ds[j].globalSeq <= m)
    && (m == c0 || exists j :: 0 <= j < |ds| && Accepts(kind, ds[j]) && ds[j].globalSeq == m)
  }

  lemma HighestAfterOneMore(kind: Kind, c0: int, ds: seq<Event>, m: int)
    requires ds != [] && IsHighest(kind, c0, ds[..|ds| - 1], m)
    ensures var e := ds[|ds| - 1];
            && (IsRecord(kind, c0, ds, |ds| - 1) <==> e.globalSeq > m && Accepts(kind, e))
            && IsHighest(kind, c0, ds, if e.globalSeq > m && Accepts(kind, e) then e.globalSeq else m)
  {
    var n, init := |ds| - 1, ds[..|ds| - 1];
    forall j | 0 <= j < n ensures init[j] == ds[j] {
    }
    if m != c0 {
      var j :| 0 <= j < |init| && Accepts(kind, init[j]) && init[j].globalSeq == m;
      assert ds[j] == init[j];
    }
  }

  lemma RecordsAfterOneMore(kind: Kind, c0: int, done: seq<Event>, ds: seq<Event>, m: int)
    requires ds != [] && IsHighest(kind, c0, ds[..|ds| - 1], m)
    ensures var e, before := ds[|ds| - 1], done + Records(kind, c0, ds[..|ds| - 1]);
            done + Records(kind, c0, ds) == if e.globalSeq > m && Accepts(kind, e) then before + [e] else before
  {
    HighestAfterOneMore(kind, c0, ds, m);
    var e, before := ds[|ds| - 1], Records(kind, c0, ds[..|ds| - 1]);
    assert done + (before + [e]) == done + before + [e];
    assert before + [] == before;
  }

  /** The checkpoint is the highest digestible number delivered so far. */
  lemma {:induction false} CheckpointIsHighest(arith: Arith, p: Projection, rm: ReadModel, ds: seq<Event>)
    ensures IsHighest(p.kind, CheckpointOf(rm, p.name), ds, CheckpointOf(DeliverAll(arith, p, rm, ds), p.name))
    decreases |ds|
  {
    if ds != [] {
      var n := |ds| - 1;
      var before := DeliverAll(arith, p, rm, ds[..n]);
      CheckpointIsHighest(arith, p, rm, ds[..n]);
      HighestAfterOneMore(p.kind, CheckpointOf(rm, p.name), ds, CheckpointOf(before, p.name));
      FailsIffNotAccepted(arith, p, before, ds[n]);
    }
  }

  /**
   * Whatever is delivered, in whatever order, the checkpoint ends at the highest number seen and the
   * views are the fold of what they stood for before plus exactly the record deliveries.
   */
  lemma {:induction false} ViewsAreFoldOfRecords(
    arith: Arith, p: Projection, rm: ReadModel, done: seq<Event>, ds: seq<Event>)
    requires ViewsFold(arith, p.kind, rm, done)
    ensures var rm' := DeliverAll(arith, p, rm, ds);
            && IsHighest(p.kind, CheckpointOf(rm, p.name), ds, CheckpointOf(rm', p.name))
            && ViewsFold(arith, p.kind, rm', done + Records(p.kind, CheckpointOf(rm, p.name), ds))
    decreases |ds|
  {
    var c0 := CheckpointOf(rm, p.name);
    CheckpointIsHighest(arith, p, rm, ds);
    if ds == [] {
      assert done + [] == done;
    } else {
      var n := |ds| - 1;
      ViewsAreFoldOfRecords(arith, p, rm, done, ds[..n]);
      var before := DeliverAll(arith, p, rm, ds[..n]);
      RecordsAfterOneMore(p.kind, c0, done, ds, CheckpointOf(before, p.name));
      DeliveryFollows(arith, p, before, done + Records(p.kind, c0, ds[..n]), ds[n]);
    }
  }

  /** What ApplyEvent answers to delivery i. */
  function AnswerTo(arith: Arith, p: Projection, rm: ReadModel, ds: seq<Event>, i: nat): Answer
    requires i < |ds|
  {
    ApplyEvent(arith, p, DeliverAll(arith, p, rm, ds[..i]), ds[i]).0
  }

  /**
   * Among arbitrary deliveries, delivery i is applied iff it is relevant and a record.
   */
  lemma AppliedIffRelevantRecord(arith: Arith, p: Projection, rm: ReadModel, ds: seq<Event>, i: nat)
    requires i < |ds|
    ensures AnswerTo(arith, p, rm, ds, i) == Ok(true) <==>
            IsRecord(p.kind, CheckpointOf(rm, p.name), ds, i) && Relevant(p.kind, ds[i])
  {
    var c0, before := CheckpointOf(rm, p.name), DeliverAll(arith, p, rm, ds[..i]);
    var upTo := ds[..i + 1];
    assert upTo[..|upTo| - 1] == ds[..i];
    CheckpointIsHighest(arith, p, rm, ds[..i]);
    HighestAfterOneMore(p.kind, c0, upTo, CheckpointOf(before, p.name));
    RecordInPrefix(p.kind, c0, ds, i);
    FailsIffNotAccepted(arith, p, before, ds[i]);
  }

  lemma RecordInPrefix(kind: Kind, c0: int, ds: seq<Event>, i: nat)
    requires i < |ds|
    ensures IsRecord(kind, c0, ds[..i + 1], i) <==> IsRecord(kind, c0, ds, i)
  {
    var upTo := ds[..i + 1];
    assert forall j :: 0 <= j <= i ==> upTo[j] == ds[j];
  }

  /** The deliveries that are applied carry strictly increasing numbers: no event is applied twice. */
  lemma AppliedNumbersIncrease(arith: Arith, p: Projection, rm: ReadModel, ds: seq<Event>, i: nat, j: nat)
    requires i < j < |ds|
    requires AnswerTo(arith, p, rm, ds, i) == Ok(true) && AnswerTo(arith, p, rm, ds, j) == Ok(true)
    ensures CheckpointOf(rm, p.name) < ds[i].globalSeq < ds[j].globalSeq
  {
    AppliedIffRelevantRecord(arith, p, rm, ds, i);
    AppliedIffRelevantRecord(arith, p, rm, ds, j);
  }

  lemma {:induction false} RecordWasDelivered(kind: Kind, c0: int, ds: seq<Event>, i: nat) returns (m: nat)
    requires i < |Records(kind, c0, ds)|
    ensures m < |ds| && ds[m] == Records(kind, c0, ds)[i]
    ensures Accepts(kind, ds[m]) && ds[m].globalSeq > c0
    decreases |ds|
  {
    var n := |ds| - 1;
    if i < |Records(kind, c0, ds[..n])| {
      m := RecordWasDelivered(kind, c0, ds[..n], i);
      assert ds[..n][m] == ds[m];
    } else {
      m := n;
    }
  }

  lemma {:induction false} CheckpointsOnlyRise(arith: Arith, p: Projection, rm: ReadModel, ds: seq<Event>)
    ensures CheckpointOf(DeliverAll(arith, p, rm, ds), p.name) >= CheckpointOf(rm, p.name)
    decreases |ds|
  {
    if ds != [] {
      var n := |ds| - 1;
      CheckpointsOnlyRise(arith, p, rm, ds[..n]);
      FailsIffNotAccepted(arith, p, DeliverAll(arith, p, rm, ds[..n]), ds[n]);
    }
  }

  /**
   * An event the checkpoint has passed, applied or jumped over, is never applied again: after any further
   * deliveries, delivering it changes nothing and reports not applied.
   */
  lemma PassedIsPassedForever(arith: Arith, p: Projection, rm: ReadModel, ds: seq<Event>, e: Event)
    requires e.globalSeq <= CheckpointOf(rm, p.name)
    ensures var rm' := DeliverAll(arith, p, rm, ds);
            ApplyEvent(arith, p, rm', e) == (Ok(false), rm')
    ensures e !in Records(p.kind, CheckpointOf(rm, p.name), ds)
  {
    CheckpointsOnlyRise(arith, p, rm, ds);
    var records := Records(p.kind, CheckpointOf(rm, p.name), ds);
    forall i | 0 <= i < |records| ensures records[i] != e {
      var m := RecordWasDelivered(p.kind, CheckpointOf(rm, p.name), ds, i);
    }
  }

  // --- In-order delivery ---

  /** The read model is in step with the log: its checkpoint is c and its views are the folds of log[..c]. */
  ghost predicate InStep(arith: Arith, p: Projection, rm: ReadModel, log: seq<Event>) {
    && 0 <= CheckpointOf(rm, p.name) <= |log|
    && ViewsFold(arith, p.kind, rm, log[..CheckpointOf(rm, p.name)])
  }

  /** Delivering an event at most one beyond the checkpoint keeps the read model in step. */
  lemma NextDeliveryStaysInStep(arith: Arith, p: Projection, rm: ReadModel, log: seq<Event>, n: nat)
    requires ValidLog(log) && InStep(arith, p, rm, log) && n < |log|
    requires log[n].globalSeq <= CheckpointOf(rm, p.name) + 1
    ensures InStep(arith, p, ApplyEvent(arith, p, rm, log[n]).1, log)
    ensures !ApplyEvent(arith, p, rm, log[n]).0.Failed? ==>
              CheckpointOf(ApplyEvent(arith, p, rm, log[n]).1, p.name) >= n + 1
    ensures CheckpointOf(ApplyEvent(arith, p, rm, log[n]).1, p.name) >= CheckpointOf(rm, p.name)
  {
    var c := CheckpointOf(rm, p.name);
    assert Placed(log, n);
    FailsIffNotAccepted(arith, p, rm, log[n]);
    DeliveryFollows(arith, p, rm, log[..c], log[n]);
    if n == c {
      assert log[..c] + [log[n]] == log[..n + 1];
    }
  }

  /** The next digestible event moves the checkpoint by exactly one. */
  lemma OneInOrder(arith: Arith, p: Projection, rm: ReadModel, log: seq<Event>, n: nat)
    requires ValidLog(log) && InStep(arith, p, rm, log) && n == CheckpointOf(rm, p.name) < |log|
    requires Accepts(p.kind, log[n])
    ensures InStep(arith, p, ApplyEvent(arith, p, rm, log[n]).1, log)
    ensures CheckpointOf(ApplyEvent(arith, p, rm, log[n]).1, p.name) == n + 1
  {
    assert Placed(log, n);
    NextDeliveryStaysInStep(arith, p, rm, log, n);
    FailsIffNotAccepted(arith, p, rm, log[n]);
  }

  /** The read model after the events from index c0 up to c have been delivered in order. */
  function DrainTo(arith: Arith, p: Projection, log: seq<Event>, rm0: ReadModel, c0: nat, c: nat): ReadModel
    requires c <= |log|
    decreases c
  {
    if c <= c0 then rm0 else ApplyEvent(arith, p, DrainTo(arith, p, log, rm0, c0, c - 1), log[c - 1]).1
  }

  /** Delivering a stretch of the log in order, from the checkpoint on, stays in step. */
  lemma {:induction false} DrainStaysInStep(arith: Arith, p: Projection, rm: ReadModel, log: seq<Event>, c: int)
    requires ValidLog(log) && InStep(arith, p, rm, log) && CheckpointOf(rm, p.name) <= c <= |log|
    requires forall j :: CheckpointOf(rm, p.name) <= j < c ==> Accepts(p.kind, log[j])
    ensures InStep(arith, p, DrainTo(arith, p, log, rm, CheckpointOf(rm, p.name), c), log)
    ensures CheckpointOf(DrainTo(arith, p, log, rm, CheckpointOf(rm, p.name), c), p.name) == c
    decreases c
  {
    var c0 := CheckpointOf(rm, p.name);
    if c > c0 {
      DrainStaysInStep(arith, p, rm, log, c - 1);
      OneInOrder(arith, p, DrainTo(arith, p, log, rm, c0, c - 1), log, c - 1);
    }
  }

  function RelevantPart(kind: Kind, es: seq<Event>): seq<Event> {
    if es == [] then []
    else
      var last := es[|es| - 1];
      RelevantPart(kind, es[..|es| - 1]) + if Relevant(kind, last) then [last] else []
  }

  /** Deliveries at or below the checkpoint change nothing. */
  lemma {:induction false} NothingNew(arith: Arith, p: Projection, rm: ReadModel, ds: seq<Event>)
    requires forall i :: 0 <= i < |ds| ==> ds[i].globalSeq <= CheckpointOf(rm, p.name)
    ensures DeliverAll(arith, p, rm, ds) == rm
    decreases |ds|
  {
    if ds != [] {
      NothingNew(arith, p, rm, ds[..|ds| - 1]);
    }
  }
}
