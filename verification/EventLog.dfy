/**
 * The abstract event store: one append-only log and the dedupe index, with Append as a single
 * atomic transition. Stream versions are not stored here, they are the lengths of the streams.
 */
module EventLog {
  import opened Events

  datatype StoreState = StoreState(log: seq<Event>, dedupe: map<string, seq<Event>>)

  const EMPTY_STORE := StoreState([], map[])

  /** The events of one stream, in log order. */
  function StreamOf(log: seq<Event>, k: StreamKey): seq<Event> {
    if log == [] then []
    else
      var last := log[|log| - 1];
      StreamOf(log[..|log| - 1], k) + if last.stream == k then [last] else []
  }

  /** A stream's current version is how many events it has. */
  function Version(log: seq<Event>, k: StreamKey): nat {
    |StreamOf(log, k)|
  }

  /** How many items of a batch go to stream k. */
  function Pending(batch: seq<AppendEvent>, k: StreamKey): nat {
    if batch == [] then 0
    else Pending(batch[..|batch| - 1], k) + if batch[|batch| - 1].stream == k then 1 else 0
  }

  /** The version stream batch[i].stream has when the items before i have been written. */
  function RunningVersion(log: seq<Event>, batch: seq<AppendEvent>, i: nat): nat
    requires i < |batch|
  {
    Version(log, batch[i].stream) + Pending(batch[..i], batch[i].stream)
  }

  predicate ItemAdmissible(log: seq<Event>, batch: seq<AppendEvent>, i: nat)
    requires i < |batch|
  {
    batch[i].expectedVersion == NO_VERSION_CHECK || batch[i].expectedVersion == RunningVersion(log, batch, i)
  }

  /** Every expected version is waived or equal to the version its stream has at that point of the batch. */
  predicate Admissible(log: seq<Event>, batch: seq<AppendEvent>) {
    forall i :: 0 <= i < |batch| ==> ItemAdmissible(log, batch, i)
  }

  /** The event that item i of a batch becomes. */
  function StampItem(log: seq<Event>, key: string, batch: seq<AppendEvent>, i: nat): Event
    requires i < |batch|
  {
    Event(|log| + i + 1, batch[i].stream, RunningVersion(log, batch, i) + 1, batch[i].payload, key)
  }

  function Stamp(log: seq<Event>, key: string, batch: seq<AppendEvent>): (es: seq<Event>)
    ensures |es| == |batch|
  {
    seq(|batch|, i requires 0 <= i < |batch| => StampItem(log, key, batch, i))
  }

  /** One Append call as a caller makes it. */
  datatype Call = Call(dedupeKey: string, batch: seq<AppendEvent>)

  datatype AppendOutcome = Appended(events: seq<Event>) | Duplicate(events: seq<Event>) | Conflict

  predicate KeyUsed(st: StoreState, key: string) {
    key != "" && key in st.dedupe
  }

  function Record(st: StoreState, key: string, produced: seq<Event>): StoreState {
    StoreState(st.log + produced, if key == "" then st.dedupe else st.dedupe[key := produced])
  }

  /** What one Append call answers, and the store it leaves. */
  function AppendTo(st: StoreState, key: string, batch: seq<AppendEvent>): (AppendOutcome, StoreState) {
    if KeyUsed(st, key) then (Duplicate(st.dedupe[key]), st)
    else if !Admissible(st.log, batch) then (Conflict, st)
    else
      var produced := Stamp(st.log, key, batch);
      (Appended(produced), Record(st, key, produced))
  }

  // --- The invariant every Append keeps ---

  /** The event at index i is number i + 1 globally, and number version in its own stream. */
  predicate Placed(log: seq<Event>, i: nat)
    requires i < |log|
  {
    log[i].globalSeq == i + 1 && log[i].version == Version(log[..i], log[i].stream) + 1
  }

  predicate ValidLog(log: seq<Event>) {
    forall i :: 0 <= i < |log| ==> Placed(log, i)
  }

  /** Where a non-empty dedupe entry starts in the log. */
  function BlockStart(es: seq<Event>): int {
    if es == [] then 0 else es[0].globalSeq - 1
  }

  /** es is one contiguous block of the log, and it is exactly the events that carry the key. */
  predicate BlockOf(log: seq<Event>, key: string, es: seq<Event>) {
    var a := BlockStart(es);
    && 0 <= a <= |log| - |es|
    && log[a..a + |es|] == es
    && forall i :: 0 <= i < |log| ==> (log[i].dedupeKey == key <==> a <= i < a + |es|)
  }

  predicate ValidDedupe(st: StoreState) {
    && (forall key :: key in st.dedupe ==> key != "" && BlockOf(st.log, key, st.dedupe[key]))
    && (forall i :: 0 <= i < |st.log| ==> st.log[i].dedupeKey == "" || st.log[i].dedupeKey in st.dedupe)
  }

  predicate ValidStore(st: StoreState) {
    ValidLog(st.log) && ValidDedupe(st)
  }

  // --- Streams of a growing log ---

  lemma {:induction false} StreamOfConcat(a: seq<Event>, b: seq<Event>, k: StreamKey)
    ensures StreamOf(a + b, k) == StreamOf(a, k) + StreamOf(b, k)
    decreases |b|
  {
    if b == [] {
      assert a + b == a;
    } else {
      var init := b[..|b| - 1];
      assert (a + b)[..|a + b| - 1] == a + init;
      StreamOfConcat(a, init, k);
    }
  }

  lemma StreamOfOne(e: Event, k: StreamKey)
    ensures StreamOf([e], k) == if e.stream == k then [e] else []
  {
    assert [e][..0] == [];
  }

  /** Appending one event extends its own stream by that event and leaves every other stream alone. */
  lemma StreamOfSnoc(log: seq<Event>, e: Event, k: StreamKey)
    ensures StreamOf(log + [e], k) == StreamOf(log, k) + if e.stream == k then [e] else []
  {
    assert (log + [e])[..|log + [e]| - 1] == log;
  }

  /** The stream of a log's prefix is a prefix of the stream: streams are append-only. */
  lemma StreamGrows(log: seq<Event>, n: nat, k: StreamKey)
    requires n <= |log|
    ensures StreamOf(log[..n], k) <= StreamOf(log, k)
  {
    assert log == log[..n] + log[n..];
    StreamOfConcat(log[..n], log[n..], k);
  }

  /** The key fact of optimistic concurrency: an unchanged version means an unchanged stream. */
  lemma SameVersionSameStream(log: seq<Event>, n: nat, k: StreamKey)
    requires n <= |log| && Version(log[..n], k) == Version(log, k)
    ensures StreamOf(log[..n], k) == StreamOf(log, k)
  {
    StreamGrows(log, n, k);
  }

  /** LoadStream returns versions 1, 2, ..., n, all of the asked stream. */
  lemma {:induction false} StreamVersionsAreDense(log: seq<Event>, k: StreamKey, i: nat)
    requires ValidLog(log) && i < Version(log, k)
    ensures StreamOf(log, k)[i].version == i + 1 && StreamOf(log, k)[i].stream == k
    decreases |log|
  {
    var init := log[..|log| - 1];
    assert ValidLog(init) by {
      forall j | 0 <= j < |init| ensures Placed(init, j) {
        assert Placed(log, j) && init[..j] == log[..j];
      }
    }
    assert Placed(log, |log| - 1);
    if i < Version(init, k) {
      StreamVersionsAreDense(init, k, i);
    }
  }

  // --- What a stamped batch adds ---

  lemma StampPrefix(log: seq<Event>, key: string, batch: seq<AppendEvent>, i: nat)
    requires i <= |batch|
    ensures Stamp(log, key, batch)[..i] == Stamp(log, key, batch[..i])
  {
    forall j | 0 <= j < i
      ensures Stamp(log, key, batch)[j] == Stamp(log, key, batch[..i])[j]
    {
      assert batch[..i][..j] == batch[..j];
    }
  }

  lemma {:induction false} StampCountsPending(log: seq<Event>, key: string, batch: seq<AppendEvent>, k: StreamKey)
    ensures Version(Stamp(log, key, batch), k) == Pending(batch, k)
    decreases |batch|
  {
    if batch != [] {
      var n := |batch| - 1;
      StampPrefix(log, key, batch, n);
      StampCountsPending(log, key, batch[..n], k);
    }
  }

  /** The versions Append assigns are the lengths the streams have just before each event. */
  lemma StampedVersions(log: seq<Event>, key: string, batch: seq<AppendEvent>, i: nat)
    requires i < |batch|
    ensures Version((log + Stamp(log, key, batch))[..|log| + i], batch[i].stream) == RunningVersion(log, batch, i)
  {
    var es := Stamp(log, key, batch);
    assert (log + es)[..|log| + i] == log + es[..i];
    StampPrefix(log, key, batch, i);
    StreamOfConcat(log, es[..i], batch[i].stream);
    StampCountsPending(log, key, batch[..i], batch[i].stream);
  }

  lemma StampKeepsValidLog(log: seq<Event>, key: string, batch: seq<AppendEvent>)
    requires ValidLog(log)
    ensures ValidLog(log + Stamp(log, key, batch))
  {
    var log' := log + Stamp(log, key, batch);
    forall i | 0 <= i < |log'| ensures Placed(log', i) {
      if i < |log| {
        assert Placed(log, i) && log'[..i] == log[..i];
      } else {
        StampedVersions(log, key, batch, i - |log|);
      }
    }
  }

  /** The store invariant is kept by every Append, whatever the batch and whatever it answers. */
  lemma AppendKeepsValidStore(st: StoreState, key: string, batch: seq<AppendEvent>)
    requires ValidStore(st)
    ensures ValidStore(AppendTo(st, key, batch).1)
  {
    if !KeyUsed(st, key) && Admissible(st.log, batch) {
      var es := Stamp(st.log, key, batch);
      var st' := Record(st, key, es);
      StampKeepsValidLog(st.log, key, batch);
      forall k | k in st'.dedupe ensures k != "" && BlockOf(st'.log, k, st'.dedupe[k]) {
        if k == key {
          NewBlock(st, key, batch);
        } else {
          OldBlock(st, key, es, k);
        }
      }
    }
  }

  lemma NewBlock(st: StoreState, key: string, batch: seq<AppendEvent>)
    requires ValidStore(st) && key != "" && key !in st.dedupe
    ensures BlockOf(st.log + Stamp(st.log, key, batch), key, Stamp(st.log, key, batch))
  {
  }

  lemma OldBlock(st: StoreState, key: string, es: seq<Event>, k: string)
    requires ValidStore(st) && k in st.dedupe && k != key
    requires forall i :: 0 <= i < |es| ==> es[i].dedupeKey == key
    ensures BlockOf(st.log + es, k, st.dedupe[k])
  {
    var a := BlockStart(st.dedupe[k]);
    assert BlockOf(st.log, k, st.dedupe[k]);
    assert (st.log + es)[a..a + |st.dedupe[k]|] == st.log[a..a + |st.dedupe[k]|];
  }

  /**
   * An Append that lands under a non-empty key, whatever its batch, makes every later Append under that key a
   * replay of its events that changes nothing; without a key an Append is never taken for a replay.
   */
  lemma AppendTwiceIsOnce(st: StoreState, key: string, batch: seq<AppendEvent>, again: seq<AppendEvent>)
    ensures var (outcome, st') := AppendTo(st, key, batch);
            && (outcome.Appended? && key != "" ==> AppendTo(st', key, again) == (Duplicate(outcome.events), st'))
            && (key == "" ==> !outcome.Duplicate? && !AppendTo(st', key, again).0.Duplicate?)
            && (!outcome.Appended? ==> st' == st)
            && (outcome.Appended? ==> st'.log == st.log + outcome.events)
  {
  }

  /** Two keys' blocks share no event. */
  lemma BlocksAreDisjoint(st: StoreState, k1: string, k2: string, i: nat)
    requires ValidStore(st) && k1 in st.dedupe && k2 in st.dedupe && k1 != k2 && i < |st.log|
    ensures !(st.log[i] in st.dedupe[k1] && st.log[i] in st.dedupe[k2])
  {
    assert BlockOf(st.log, k1, st.dedupe[k1]) && BlockOf(st.log, k2, st.dedupe[k2]);
  }
}
