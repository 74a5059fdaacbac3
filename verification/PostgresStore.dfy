/**
 * The table-backed event store, one Append at a time: it checks and writes item by item inside a
 * transaction over four tables and rolls the tables back on a conflict. Sequence numbers that a
 * rolled-back transaction drew from the BIGSERIAL are lost, so GlobalSeq may have gaps.
 */
module PostgresStore {
  import opened Events
  import opened EventLog
  import opened MemoryStore

  /** Rows of idempotency_key_events. */
  type Links = set<(string, int)>

  /** The event log the rows stand for: same events, numbered without gaps. */
  function Renumbered(rows: seq<Event>): (log: seq<Event>)
    ensures |log| == |rows|
  {
    seq(|rows|, i requires 0 <= i < |rows| => rows[i].(globalSeq := i + 1))
  }

  /** The join of events with idempotency_key_events on one key, ordered by global_seq. */
  function DedupeJoin(rows: seq<Event>, links: Links, key: string): seq<Event> {
    if rows == [] then []
    else
      var last := rows[|rows| - 1];
      DedupeJoin(rows[..|rows| - 1], links, key) + if (key, last.globalSeq) in links then [last] else []
  }

  /** The same join over the renumbered log. */
  function AbstractJoin(rows: seq<Event>, links: Links, key: string): seq<Event> {
    if rows == [] then []
    else
      var last := rows[|rows| - 1];
      AbstractJoin(rows[..|rows| - 1], links, key) +
      if (key, last.globalSeq) in links then [last.(globalSeq := |rows|)] else []
  }

  /** Equal up to the gaps in GlobalSeq. */
  predicate SameUpToSeq(a: seq<Event>, b: seq<Event>) {
    |a| == |b| && forall i :: 0 <= i < |a| ==> a[i].(globalSeq := 0) == b[i].(globalSeq := 0)
  }

  lemma AppendOneMore(before: seq<Event>, produced: seq<Event>, row: Event)
    ensures (before + produced) + [row] == before + (produced + [row])
  {
  }

  lemma SameOneMore(a: seq<Event>, e: Event, b: seq<Event>, i: nat)
    requires i < |b| && SameUpToSeq(a, b[..i]) && e.(globalSeq := 0) == b[i].(globalSeq := 0)
    ensures SameUpToSeq(a + [e], b[..i + 1])
  {
    forall j | 0 <= j <= i ensures (a + [e])[j].(globalSeq := 0) == b[..i + 1][j].(globalSeq := 0) {
      if j < i {
        assert a[j].(globalSeq := 0) == b[..i][j].(globalSeq := 0);
      }
    }
  }

  predicate Agree(a: AppendOutcome, b: AppendOutcome) {
    match (a, b)
    case (Appended(x), Appended(y)) => SameUpToSeq(x, y)
    case (Duplicate(x), Duplicate(y)) => SameUpToSeq(x, y)
    case (Conflict, Conflict) => true
    case _ => false
  }

  /** Every row's number is below all later ones and not above the last number drawn. */
  predicate Increasing(rows: seq<Event>, lastSeq: int) {
    && (forall i, j :: 0 <= i < j < |rows| ==> rows[i].globalSeq < rows[j].globalSeq)
    && (forall i :: 0 <= i < |rows| ==> rows[i].globalSeq <= lastSeq)
  }

  lemma {:induction false} RenumberingKeepsVersions(rows: seq<Event>, k: StreamKey)
    ensures Version(Renumbered(rows), k) == Version(rows, k)
    decreases |rows|
  {
    if rows != [] {
      var init := rows[..|rows| - 1];
      assert Renumbered(rows)[..|init|] == Renumbered(init);
      RenumberingKeepsVersions(init, k);
    }
  }

  lemma {:induction false} JoinsAgree(rows: seq<Event>, links: Links, key: string)
    ensures SameUpToSeq(DedupeJoin(rows, links, key), AbstractJoin(rows, links, key))
    decreases |rows|
  {
    if rows != [] {
      JoinsAgree(rows[..|rows| - 1], links, key);
    }
  }

  /** Linking a sequence number no row has does not change a join. */
  /** The join returns rows of the event table, with the numbers they were given. */
  lemma {:induction false} JoinedAreRows(rows: seq<Event>, links: Links, key: string)
    ensures forall e :: e in DedupeJoin(rows, links, key) ==> e in rows
    decreases |rows|
  {
    if rows != [] {
      JoinedAreRows(rows[..|rows| - 1], links, key);
    }
  }

  lemma {:induction false} JoinFrame(rows: seq<Event>, links: Links, more: Links, key: string)
    requires forall i :: 0 <= i < |rows| ==> (key, rows[i].globalSeq) !in more
    ensures AbstractJoin(rows, links + more, key) == AbstractJoin(rows, links, key)
    decreases |rows|
  {
    if rows != [] {
      JoinFrame(rows[..|rows| - 1], links, more, key);
    }
  }

  lemma JoinSnoc(rows: seq<Event>, row: Event, links: Links, key: string)
    ensures AbstractJoin(rows + [row], links, key) ==
            AbstractJoin(rows, links, key) +
            if (key, row.globalSeq) in links then [row.(globalSeq := |rows| + 1)] else []
  {
    assert (rows + [row])[..|rows + [row]| - 1] == rows;
  }

  lemma {:induction false} UnlinkedJoinIsEmpty(rows: seq<Event>, links: Links, key: string)
    requires forall g :: (key, g) !in links
    ensures AbstractJoin(rows, links, key) == []
    decreases |rows|
  {
    if rows != [] {
      UnlinkedJoinIsEmpty(rows[..|rows| - 1], links, key);
    }
  }

  /** stream_versions holds the current version of every stream; a missing row means 0. */
  ghost predicate VersionsFit(streamVersions: map<StreamKey, int>, rows: seq<Event>) {
    forall k :: RowVersion(streamVersions, k) == Version(rows, k)
  }

  function RowVersion(streamVersions: map<StreamKey, int>, k: StreamKey): int {
    if k in streamVersions then streamVersions[k] else 0
  }

  /** Links lead from reserved keys to sequence numbers already drawn. */
  ghost predicate LinksFit(links: Links, keys: set<string>, lastSeq: int) {
    forall k, g :: (k, g) in links ==> k in keys && g <= lastSeq
  }

  lemma VersionsFitSnoc(streamVersions: map<StreamKey, int>, rows: seq<Event>, row: Event)
    requires VersionsFit(streamVersions, rows)
    ensures VersionsFit(streamVersions[row.stream := Version(rows, row.stream) + 1], rows + [row])
  {
    var after := streamVersions[row.stream := Version(rows, row.stream) + 1];
    forall k ensures RowVersion(after, k) == Version(rows + [row], k) {
      StreamOfSnoc(rows, row, k);
      assert RowVersion(streamVersions, k) == Version(rows, k);
    }
  }

  /** The link rows one inserted event adds. */
  function NewLinks(dedupeKey: string, globalSeq: int): Links {
    if dedupeKey == "" then {} else {(dedupeKey, globalSeq)}
  }

  lemma JoinAfterInsert(rows: seq<Event>, links: Links, dedupeKey: string, row: Event, keys: set<string>, k: string)
    requires Increasing(rows, row.globalSeq - 1) && LinksFit(links, keys, row.globalSeq - 1)
    ensures AbstractJoin(rows + [row], links + NewLinks(dedupeKey, row.globalSeq), k) ==
            AbstractJoin(rows, links, k) +
            if dedupeKey != "" && k == dedupeKey then [row.(globalSeq := |rows| + 1)] else []
  {
    var more := NewLinks(dedupeKey, row.globalSeq);
    JoinFrame(rows, links, more, k);
    JoinSnoc(rows, row, links + more, k);
    assert (k, row.globalSeq) !in links;
  }

  /** From (rows0, links0), one transaction has added exactly these events, all linked to its key if it has one. */
  ghost predicate Added(
    rows0: seq<Event>, links0: Links, rows: seq<Event>, links: Links, dedupeKey: string, es: seq<Event>)
  {
    && Renumbered(rows) == Renumbered(rows0) + es
    && forall k :: AbstractJoin(rows, links, k) ==
                   AbstractJoin(rows0, links0, k) + LinkedPart(dedupeKey, k, es)
  }

  function LinkedPart(dedupeKey: string, k: string, es: seq<Event>): seq<Event> {
    if dedupeKey != "" && k == dedupeKey then es else []
  }

  /** The four tables and the sequence, as one value. */
  datatype Tables = Tables(
    lastSeq: int, rows: seq<Event>, streamVersions: map<StreamKey, int>, keys: set<string>, links: Links)

  ghost predicate Fit(t: Tables) {
    Increasing(t.rows, t.lastSeq) && VersionsFit(t.streamVersions, t.rows) && LinksFit(t.links, t.keys, t.lastSeq)
  }

  /** How far a transaction that started from t0 has come: it has added the events es. */
  ghost predicate Progress(t0: Tables, t: Tables, dedupeKey: string, es: seq<Event>) {
    && Fit(t)
    && t.keys == t0.keys
    && Added(t0.rows, t0.links, t.rows, t.links, dedupeKey, es)
  }

  /** The row one INSERT writes, drawing the next sequence number. */
  function NextRow(t: Tables, dedupeKey: string, e: AppendEvent): Event {
    Event(t.lastSeq + 1, e.stream, Version(t.rows, e.stream) + 1, e.payload, dedupeKey)
  }

  function Inserted(t: Tables, dedupeKey: string, e: AppendEvent): Tables {
    var row := NextRow(t, dedupeKey, e);
    Tables(row.globalSeq, t.rows + [row], t.streamVersions[e.stream := row.version], t.keys,
           t.links + NewLinks(dedupeKey, row.globalSeq))
  }

  lemma InsertKeepsFit(t: Tables, dedupeKey: string, e: AppendEvent)
    requires Fit(t) && (dedupeKey == "" || dedupeKey in t.keys)
    ensures Fit(Inserted(t, dedupeKey, e))
  {
    var t' := Inserted(t, dedupeKey, e);
    assert VersionsFit(t'.streamVersions, t'.rows) by {
      VersionsFitSnoc(t.streamVersions, t.rows, NextRow(t, dedupeKey, e));
    }
    assert LinksFit(t'.links, t'.keys, t'.lastSeq);
    assert Increasing(t'.rows, t'.lastSeq);
  }

  lemma RenumberedOneMore(rows: seq<Event>, row: Event)
    ensures Renumbered(rows + [row]) == Renumbered(rows) + [row.(globalSeq := |rows| + 1)]
  {
  }

  /** What inserting a row does to the events linked to key k. */
  lemma InsertExtendsJoin(t0: Tables, t: Tables, dedupeKey: string, es: seq<Event>, e: AppendEvent, k: string)
    requires Fit(t)
    requires AbstractJoin(t.rows, t.links, k) == AbstractJoin(t0.rows, t0.links, k) + LinkedPart(dedupeKey, k, es)
    ensures var t', numbered := Inserted(t, dedupeKey, e), NextRow(t, dedupeKey, e).(globalSeq := |t.rows| + 1);
            AbstractJoin(t'.rows, t'.links, k) ==
            AbstractJoin(t0.rows, t0.links, k) + LinkedPart(dedupeKey, k, es + [numbered])
  {
    JoinAfterInsert(t.rows, t.links, dedupeKey, NextRow(t, dedupeKey, e), t.keys, k);
  }

  lemma InsertProgresses(t0: Tables, t: Tables, dedupeKey: string, es: seq<Event>, e: AppendEvent)
    requires Progress(t0, t, dedupeKey, es) && (dedupeKey == "" || dedupeKey in t.keys)
    ensures Progress(t0, Inserted(t, dedupeKey, e), dedupeKey,
                     es + [NextRow(t, dedupeKey, e).(globalSeq := |t.rows| + 1)])
  {
    InsertKeepsFit(t, dedupeKey, e);
    RenumberedOneMore(t.rows, NextRow(t, dedupeKey, e));
    var t', numbered := Inserted(t, dedupeKey, e), NextRow(t, dedupeKey, e).(globalSeq := |t.rows| + 1);
    forall k
      ensures AbstractJoin(t'.rows, t'.links, k) ==
              AbstractJoin(t0.rows, t0.links, k) + LinkedPart(dedupeKey, k, es + [numbered])
    {
      InsertExtendsJoin(t0, t, dedupeKey, es, e, k);
    }
  }

  lemma NothingWrittenYet(t0: Tables, dedupeKey: string)
    requires Fit(t0)
    ensures Progress(t0, t0, dedupeKey, [])
  {
    assert Renumbered(t0.rows) + [] == Renumbered(t0.rows);
    forall k ensures AbstractJoin(t0.rows, t0.links, k) ==
                     AbstractJoin(t0.rows, t0.links, k) + LinkedPart(dedupeKey, k, []) {
      assert LinkedPart(dedupeKey, k, []) == [];
    }
  }

  /** INSERT ... ON CONFLICT DO NOTHING only makes the implicit version 0 explicit. */
  lemma EnsuringARowProgresses(t0: Tables, t: Tables, dedupeKey: string, es: seq<Event>, k: StreamKey)
    requires Progress(t0, t, dedupeKey, es) && k !in t.streamVersions
    ensures Progress(t0, t.(streamVersions := t.streamVersions[k := 0]), dedupeKey, es)
  {
    var after := t.streamVersions[k := 0];
    assert RowVersion(t.streamVersions, k) == 0;
    forall k' ensures RowVersion(after, k') == Version(t.rows, k') {
      assert RowVersion(t.streamVersions, k') == Version(t.rows, k');
    }
  }

  /** The abstract store that the tables implement. */
  function AbstractOf(t: Tables): StoreState {
    StoreState(Renumbered(t.rows), map k | k in t.keys :: AbstractJoin(t.rows, t.links, k))
  }

  function Reserve(t: Tables, dedupeKey: string): Tables {
    if dedupeKey == "" then t else t.(keys := t.keys + {dedupeKey})
  }

  /** What the tables stand for once the transaction has added its whole batch. */
  lemma CommittedTables(t0: Tables, t: Tables, dedupeKey: string, es: seq<Event>)
    requires Fit(t0) && dedupeKey !in t0.keys && Progress(Reserve(t0, dedupeKey), t, dedupeKey, es)
    ensures AbstractOf(t) == Record(AbstractOf(t0), dedupeKey, es)
  {
    UnlinkedJoinIsEmpty(t0.rows, t0.links, dedupeKey);
    var a, b := AbstractOf(t).dedupe, Record(AbstractOf(t0), dedupeKey, es).dedupe;
    assert a.Keys == b.Keys;
    forall k | k in a ensures a[k] == b[k] {
      assert AbstractJoin(t.rows, t.links, k) ==
             AbstractJoin(t0.rows, t0.links, k) + LinkedPart(dedupeKey, k, es);
    }
  }

  /** A rolled-back transaction has only used up sequence numbers. */
  lemma RollbackKeepsFit(t: Tables, lastSeq: int)
    requires Fit(t) && lastSeq >= t.lastSeq
    ensures Fit(t.(lastSeq := lastSeq)) && AbstractOf(t.(lastSeq := lastSeq)) == AbstractOf(t)
  {
  }

  class PostgresStore {
    var lastSeq: int                             // the BIGSERIAL; never rolled back
    var rows: seq<Event>                         // events, ordered by global_seq
    var streamVersions: map<StreamKey, int>      // stream_versions
    var idempotencyKeys: set<string>             // idempotency_keys
    var links: Links                             // idempotency_key_events

    function Snapshot(): Tables
      reads this
    {
      Tables(lastSeq, rows, streamVersions, idempotencyKeys, links)
    }

    /** The abstract store the four tables implement. */
    ghost function Abstract(): StoreState
      reads this
    {
      AbstractOf(Snapshot())
    }

    ghost predicate Valid()
      reads this
    {
      Fit(Snapshot()) && ValidStore(Abstract())
    }

    constructor ()
      ensures Valid() && Abstract() == EMPTY_STORE
    {
      lastSeq := 0;
      rows := [];
      streamVersions := map[];
      idempotencyKeys := {};
      links := {};
    }

    method Append(dedupeKey: string, batch: seq<AppendEvent>) returns (r: AppendOutcome)
      requires Valid()
      modifies this
      ensures Valid()
      ensures Agree(r, AppendTo(old(Abstract()), dedupeKey, batch).0)
      ensures Abstract() == AppendTo(old(Abstract()), dedupeKey, batch).1
      ensures r.Conflict? ==> unchanged(`rows, `streamVersions, `idempotencyKeys, `links)
      ensures r.Appended? ==> rows == old(rows) + r.events
      ensures r.Duplicate? ==> unchanged(this) && forall e :: e in r.events ==> e in rows
    {
      // BEGIN
      var saved := Snapshot();
      ghost var before := Abstract();
      if dedupeKey != "" {
        if dedupeKey in idempotencyKeys {
          r := LoadDedupeEvents(dedupeKey);
          return r;
        }
        idempotencyKeys := idempotencyKeys + {dedupeKey};
      }
      assert "" !in before.dedupe;
      assert Snapshot() == Reserve(saved, dedupeKey);
      var ok, produced := WriteBatch(dedupeKey, batch);
      if !ok {
        // ROLLBACK
        rows, streamVersions, idempotencyKeys, links := saved.rows, saved.streamVersions, saved.keys, saved.links;
        RollbackKeepsFit(saved, lastSeq);
        return Conflict;
      }
      // COMMIT
      CommittedTables(saved, Snapshot(), dedupeKey, Stamp(before.log, dedupeKey, batch));
      AppendKeepsValidStore(before, dedupeKey, batch);
      return Appended(produced);
    }

    /** The cached events of a used key, by joining the link and event tables. */
    method LoadDedupeEvents(dedupeKey: string) returns (r: AppendOutcome)
      requires dedupeKey in idempotencyKeys
      ensures r.Duplicate? && Agree(r, Duplicate(Abstract().dedupe[dedupeKey]))
      ensures forall e :: e in r.events ==> e in rows
    {
      JoinedAreRows(rows, links, dedupeKey);
      JoinsAgree(rows, links, dedupeKey);
      return Duplicate(DedupeJoin(rows, links, dedupeKey));
    }

    /** The single pass over the batch: check one item, write it, go on to the next. */
    method WriteBatch(dedupeKey: string, batch: seq<AppendEvent>) returns (ok: bool, produced: seq<Event>)
      requires Fit(Snapshot()) && (dedupeKey == "" || dedupeKey in idempotencyKeys)
      modifies `lastSeq, `rows, `streamVersions, `links
      ensures lastSeq >= old(lastSeq)
      ensures ok <==> Admissible(Renumbered(old(rows)), batch)
      ensures ok ==> Progress(old(Snapshot()), Snapshot(), dedupeKey,
                              Stamp(Renumbered(old(rows)), dedupeKey, batch))
      ensures ok ==> SameUpToSeq(produced, Stamp(Renumbered(old(rows)), dedupeKey, batch))
      ensures ok ==> rows == old(rows) + produced
    {
      ghost var t0 := Snapshot();
      ghost var log := Renumbered(rows);
      ghost var stamped := Stamp(log, dedupeKey, batch);
      produced := [];
      NothingWrittenYet(t0, dedupeKey);
      for i := 0 to |batch|
        invariant lastSeq >= t0.lastSeq
        invariant Progress(t0, Snapshot(), dedupeKey, stamped[..i])
        invariant SameUpToSeq(produced, stamped[..i])
        invariant rows == t0.rows + produced
        invariant forall j :: 0 <= j < i ==> ItemAdmissible(log, batch, j)
      {
        var itemOk, more := WriteItem(dedupeKey, batch, i, produced, t0);
        if !itemOk {
          return false, [];
        }
        produced := more;
      }
      assert stamped[..|batch|] == stamped;
      return true, produced;
    }

    /** One round of the pass: the version check, the writes and the event added to the answer. */
    method WriteItem(
      dedupeKey: string, batch: seq<AppendEvent>, i: nat, produced: seq<Event>, ghost t0: Tables)
      returns (ok: bool, more: seq<Event>)
      requires i < |batch| && (dedupeKey == "" || dedupeKey in idempotencyKeys)
      requires Progress(t0, Snapshot(), dedupeKey, Stamp(Renumbered(t0.rows), dedupeKey, batch)[..i])
      requires SameUpToSeq(produced, Stamp(Renumbered(t0.rows), dedupeKey, batch)[..i])
      requires rows == t0.rows + produced
      modifies `lastSeq, `rows, `streamVersions, `links
      ensures lastSeq >= old(lastSeq)
      ensures ok <==> ItemAdmissible(Renumbered(t0.rows), batch, i)
      ensures ok ==> Progress(t0, Snapshot(), dedupeKey, Stamp(Renumbered(t0.rows), dedupeKey, batch)[..i + 1])
      ensures ok ==> SameUpToSeq(more, Stamp(Renumbered(t0.rows), dedupeKey, batch)[..i + 1])
      ensures ok ==> rows == t0.rows + more
    {
      CurrentIsRunningVersion(rows, Renumbered(t0.rows), dedupeKey, batch, i);
      var current := LockStreamRow(
        batch[i].stream, t0, dedupeKey, Stamp(Renumbered(t0.rows), dedupeKey, batch)[..i]);
      if batch[i].expectedVersion != NO_VERSION_CHECK && batch[i].expectedVersion != current {
        return false, [];
      }
      ItemProgresses(t0, Snapshot(), dedupeKey, batch, i);
      var row := InsertEvent(dedupeKey, batch[i], current + 1);
      SameOneMore(produced, row, Stamp(Renumbered(t0.rows), dedupeKey, batch), i);
      AppendOneMore(t0.rows, produced, row);
      return true, produced + [row];
    }

    /** INSERT ... ON CONFLICT DO NOTHING, then SELECT version ... FOR UPDATE. */
    method LockStreamRow(k: StreamKey, ghost t0: Tables, ghost dedupeKey: string, ghost es: seq<Event>)
      returns (current: int)
      requires Progress(t0, Snapshot(), dedupeKey, es)
      modifies `streamVersions
      ensures Progress(t0, Snapshot(), dedupeKey, es)
      ensures current == Version(rows, k)
    {
      if k !in streamVersions {
        EnsuringARowProgresses(t0, Snapshot(), dedupeKey, es, k);
        streamVersions := streamVersions[k := 0];
      }
      assert RowVersion(streamVersions, k) == Version(rows, k);
      return streamVersions[k];
    }

    /** Insert the event row, bump the stream's row and link the event to its dedupe key. */
    method InsertEvent(dedupeKey: string, e: AppendEvent, newVersion: int) returns (row: Event)
      requires newVersion == Version(rows, e.stream) + 1
      modifies `lastSeq, `rows, `streamVersions, `links
      ensures row == NextRow(old(Snapshot()), dedupeKey, e)
      ensures Snapshot() == Inserted(old(Snapshot()), dedupeKey, e)
    {
      lastSeq := lastSeq + 1;
      row := Event(lastSeq, e.stream, newVersion, e.payload, dedupeKey);
      rows := rows + [row];
      streamVersions := streamVersions[e.stream := newVersion];
      if dedupeKey != "" {
        links := links + {(dedupeKey, lastSeq)};
      }
    }
  }

  /** The row lock reads the running version: the stream's length plus the batch's earlier items. */
  lemma CurrentIsRunningVersion(
    rows: seq<Event>, log: seq<Event>, key: string, batch: seq<AppendEvent>, i: nat)
    requires i < |batch| && Renumbered(rows) == log + Stamp(log, key, batch)[..i]
    ensures Version(rows, batch[i].stream) == RunningVersion(log, batch, i)
  {
    var es := Stamp(log, key, batch);
    StampedVersions(log, key, batch, i);
    assert (log + es)[..|log| + i] == log + es[..i];
    RenumberingKeepsVersions(rows, batch[i].stream);
  }

  /** Inserting item i takes the transaction from the first i stamped events to the first i + 1. */
  lemma ItemProgresses(t0: Tables, t: Tables, dedupeKey: string, batch: seq<AppendEvent>, i: nat)
    requires i < |batch| && (dedupeKey == "" || dedupeKey in t.keys)
    requires Progress(t0, t, dedupeKey, Stamp(Renumbered(t0.rows), dedupeKey, batch)[..i])
    ensures Progress(t0, Inserted(t, dedupeKey, batch[i]), dedupeKey,
                     Stamp(Renumbered(t0.rows), dedupeKey, batch)[..i + 1])
    ensures NextRow(t, dedupeKey, batch[i]).(globalSeq := 0) ==
            Stamp(Renumbered(t0.rows), dedupeKey, batch)[i].(globalSeq := 0)
  {
    NextRowIsStamped(t0, t, dedupeKey, batch, i);
    var stamped := Stamp(Renumbered(t0.rows), dedupeKey, batch);
    InsertProgresses(t0, t, dedupeKey, stamped[..i], batch[i]);
    assert stamped[..i + 1] == stamped[..i] + [stamped[i]];
  }

  lemma NextRowIsStamped(t0: Tables, t: Tables, dedupeKey: string, batch: seq<AppendEvent>, i: nat)
    requires i < |batch|
    requires Renumbered(t.rows) == Renumbered(t0.rows) + Stamp(Renumbered(t0.rows), dedupeKey, batch)[..i]
    ensures NextRow(t, dedupeKey, batch[i]).(globalSeq := |t.rows| + 1) ==
            Stamp(Renumbered(t0.rows), dedupeKey, batch)[i]
  {
    CurrentIsRunningVersion(t.rows, Renumbered(t0.rows), dedupeKey, batch, i);
    assert |t.rows| == |Renumbered(t.rows)| == |t0.rows| + i;
  }

  /** The two stores, given any serial sequence of Append calls, agree on every answer and on the result. */
  method RunBoth(calls: seq<Call>)
    returns (memory: MemoryStore, postgres: PostgresStore, answers: seq<(AppendOutcome, AppendOutcome)>)
    ensures |answers| == |calls|
    ensures forall i :: 0 <= i < |answers| ==> Agree(answers[i].1, answers[i].0)
    ensures memory.Valid() && postgres.Valid()
    ensures postgres.Abstract() == memory.State()
    ensures forall k :: Version(postgres.rows, k) == Version(memory.events, k)
    ensures postgres.idempotencyKeys == memory.dedupe.Keys
  {
    memory := new MemoryStore();
    postgres := new PostgresStore();
    answers := [];
    for i := 0 to |calls|
      invariant |answers| == i
      invariant forall j :: 0 <= j < i ==> Agree(answers[j].1, answers[j].0)
      invariant fresh(memory) && fresh(postgres)
      invariant memory.Valid() && postgres.Valid() && postgres.Abstract() == memory.State()
    {
      var a := memory.Append(calls[i].dedupeKey, calls[i].batch);
      var b := postgres.Append(calls[i].dedupeKey, calls[i].batch);
      answers := answers + [(a, b)];
    }
    forall k ensures Version(postgres.rows, k) == Version(memory.events, k) {
      RenumberingKeepsVersions(postgres.rows, k);
    }
    assert postgres.idempotencyKeys == postgres.Abstract().dedupe.Keys;
  }
}
