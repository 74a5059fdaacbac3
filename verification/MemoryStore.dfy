/** The in-process event store: fields updated in place, one method call per critical section. */
module MemoryStore {
  import opened Events
  import opened EventLog

  class MemoryStore {
    var globalSeq: int
    var events: seq<Event>
    var versions: map<StreamKey, int>
    var dedupe: map<string, seq<Event>>

    function State(): StoreState
      reads this
    {
      StoreState(events, dedupe)
    }

    /** A Go map read: a missing stream is at version 0. */
    function CurrentVersion(k: StreamKey): int
      reads this
    {
      if k in versions then versions[k] else 0
    }

    /** The sequence counter and the version map describe the log. */
    ghost predicate VersionsAgree()
      reads this
    {
      globalSeq == |events| && forall k :: CurrentVersion(k) == Version(events, k)
    }

    ghost predicate Valid()
      reads this
    {
      ValidStore(State()) && VersionsAgree()
    }

    constructor ()
      ensures Valid() && State() == EMPTY_STORE
    {
      globalSeq := 0;
      events := [];
      versions := map[];
      dedupe := map[];
    }

    /** First pass of Append: check every expected version against a running copy, writing nothing. */
    method Validate(batch: seq<AppendEvent>) returns (ok: bool)
      requires Valid()
      ensures ok <==> Admissible(events, batch)
    {
      var pending: map<StreamKey, int> := map[];
      for i := 0 to |batch|
        invariant forall j :: 0 <= j < i ==> ItemAdmissible(events, batch, j)
        invariant forall k :: (if k in pending then pending[k] else CurrentVersion(k)) ==
                              Version(events, k) + Pending(batch[..i], k)
      {
        var key := batch[i].stream;
        var cur := if key in pending then pending[key] else CurrentVersion(key);
        assert batch[..i + 1][..i] == batch[..i];
        if batch[i].expectedVersion != NO_VERSION_CHECK && batch[i].expectedVersion != cur {
          assert !ItemAdmissible(events, batch, i);
          return false;
        }
        pending := pending[key := cur + 1];
      }
      return true;
    }

    method Append(dedupeKey: string, batch: seq<AppendEvent>) returns (r: AppendOutcome)
      requires Valid()
      modifies this
      ensures Valid()
      ensures (r, State()) == AppendTo(old(State()), dedupeKey, batch)
    {
      if dedupeKey != "" {
        if dedupeKey in dedupe {
          return Duplicate(dedupe[dedupeKey]);
        }
      }
      var ok := Validate(batch);
      if !ok {
        return Conflict;
      }
      ghost var before := State();
      var produced := Write(dedupeKey, batch);
      if dedupeKey != "" {
        dedupe := dedupe[dedupeKey := produced];
      }
      AppendKeepsValidStore(before, dedupeKey, batch);
      return Appended(produced);
    }

    /** Second pass of Append: write the whole batch, which the first pass has accepted. */
    method Write(dedupeKey: string, batch: seq<AppendEvent>) returns (produced: seq<Event>)
      requires VersionsAgree()
      modifies `globalSeq, `events, `versions
      ensures VersionsAgree()
      ensures produced == Stamp(old(events), dedupeKey, batch)
      ensures events == old(events) + produced
    {
      ghost var stamped := Stamp(events, dedupeKey, batch);
      produced := [];
      for i := 0 to |batch|
        invariant VersionsAgree()
        invariant produced == stamped[..i]
        invariant events == old(events) + stamped[..i]
      {
        NextIsStamped(old(events), dedupeKey, batch, i, events);
        var ev := WriteOne(dedupeKey, batch[i]);
        produced := produced + [ev];
      }
    }

    method WriteOne(dedupeKey: string, e: AppendEvent) returns (ev: Event)
      requires VersionsAgree()
      modifies `globalSeq, `events, `versions
      ensures VersionsAgree()
      ensures ev == Event(|old(events)| + 1, e.stream, Version(old(events), e.stream) + 1, e.payload, dedupeKey)
      ensures events == old(events) + [ev]
    {
      var key := e.stream;
      assert CurrentVersion(key) == Version(events, key);
      versions := versions[key := CurrentVersion(key) + 1];
      globalSeq := globalSeq + 1;
      ev := Event(globalSeq, key, versions[key], e.payload, dedupeKey);
      events := events + [ev];
      forall k ensures CurrentVersion(k) == Version(events, k) {
        StreamOfSnoc(old(events), ev, k);
        assert old(CurrentVersion(k)) == Version(old(events), k);
      }
    }

    method LookupDedupe(dedupeKey: string) returns (found: bool, prior: seq<Event>)
      ensures found <==> KeyUsed(State(), dedupeKey)
      ensures found ==> prior == State().dedupe[dedupeKey]
    {
      if dedupeKey == "" || dedupeKey !in dedupe {
        return false, [];
      }
      return true, dedupe[dedupeKey];
    }

    method LoadStream(k: StreamKey) returns (out: seq<Event>)
      requires Valid()
      ensures out == StreamOf(events, k)
      ensures forall i :: 0 <= i < |out| ==> out[i].version == i + 1 && out[i].stream == k
    {
      out := [];
      for i := 0 to |events|
        invariant out == StreamOf(events[..i], k)
      {
        assert events[..i + 1] == events[..i] + [events[i]];
        StreamOfSnoc(events[..i], events[i], k);
        if events[i].stream == k {
          out := out + [events[i]];
        }
      }
      assert events[..|events|] == events;
      forall i | 0 <= i < |out| ensures out[i].version == i + 1 && out[i].stream == k {
        StreamVersionsAreDense(events, k, i);
      }
    }

    /** Up to `limit` events after a global sequence number; a limit that is not positive means all of them. */
    method LoadSince(afterGlobalSeq: int, limit: int) returns (out: seq<Event>)
      requires Valid()
      ensures out == PageOf(events, afterGlobalSeq, limit)
    {
      out := [];
      var i := 0;
      while i < |events|
        invariant 0 <= i <= |events|
        invariant out == Since(events[..i], afterGlobalSeq)
        invariant limit > 0 ==> |out| < limit
      {
        SinceOneMore(events, i, afterGlobalSeq);
        if events[i].globalSeq > afterGlobalSeq {
          out := out + [events[i]];
          if limit > 0 && |out| >= limit {
            FullPage(events, afterGlobalSeq, limit, out);
            return;
          }
        }
        i := i + 1;
      }
      assert events[..i] == events;
    }

    method LatestGlobalSeq() returns (seqNo: int)
      requires Valid()
      ensures seqNo == |events|
    {
      return globalSeq;
    }
  }

  /** The event written after the first i stamped ones is the next stamped one. */
  lemma NextIsStamped(log: seq<Event>, key: string, batch: seq<AppendEvent>, i: nat, now: seq<Event>)
    requires i < |batch| && now == log + Stamp(log, key, batch)[..i]
    ensures var stamped, e := Stamp(log, key, batch), batch[i];
            && stamped[i] == Event(|now| + 1, e.stream, Version(now, e.stream) + 1, e.payload, key)
            && stamped[..i + 1] == stamped[..i] + [stamped[i]]
            && now + [stamped[i]] == log + stamped[..i + 1]
  {
    StampedVersions(log, key, batch, i);
    assert (log + Stamp(log, key, batch))[..|log| + i] == now;
  }

  /** The log's events with a global sequence number above n, when the i-th event is number i + 1. */
  function Since(log: seq<Event>, n: int): seq<Event> {
    if n <= 0 then log else if n <= |log| then log[n..] else []
  }

  /** Scanning one more event, and what has been scanned is a prefix of the whole. */
  lemma SinceOneMore(log: seq<Event>, i: nat, n: int)
    requires ValidLog(log) && i < |log|
    ensures Since(log[..i + 1], n) == Since(log[..i], n) + if log[i].globalSeq > n then [log[i]] else []
    ensures Since(log[..i + 1], n) <= Since(log, n)
  {
    assert Placed(log, i);
    assert log[..i + 1] == log[..i] + [log[i]];
    if 0 < n <= i {
      assert log[..i + 1][n..] == log[..i][n..] + [log[i]];
    } else if n > i {
      assert Since(log[..i + 1], n) == [] == Since(log[..i], n);
    }
  }

  /** One page of LoadSince: the first `limit` of them, or all when the limit is not positive. */
  function PageOf(log: seq<Event>, n: int, limit: int): seq<Event> {
    var rest := Since(log, n);
    if limit > 0 && limit < |rest| then rest[..limit] else rest
  }

  lemma FullPage(log: seq<Event>, n: int, limit: int, page: seq<Event>)
    requires page <= Since(log, n) && |page| == limit > 0
    ensures page == PageOf(log, n, limit)
  {
  }

  /** A page is the next stretch of the log, it is empty only at the end, and a short page is the last one. */
  lemma PageIsNextStretch(log: seq<Event>, n: nat, limit: int)
    ensures var page := PageOf(log, n, limit);
            && (page == [] <==> n >= |log|)
            && (n <= |log| ==> |page| <= |log| - n && page == log[n..n + |page|])
            && (n <= |log| && |page| < limit ==> n + |page| == |log|)
  {
  }
}
