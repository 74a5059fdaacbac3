/**
 * The command service as the source writes it: methods that call the store, decide, and retry in a loop.
 * `rounds` stands for the other clients: before the service's n-th store call they append rounds[n].
 */
module Service {
  import opened Events
  import opened Aggregates
  import opened EventLog
  import opened MemoryStore
  import opened Commands
  import opened Protocol
  import opened Interference
  import opened Alone
  import opened Effects

  // --- One store call of the client machine at a time ---

  lemma LookupIs(cfg: Config, cmd: Command, st: StoreState)
    requires !cmd.SameAccount()
    ensures NextPc(cfg, Client(cmd, Start, 0), st) ==
            if KeyUsed(st, cmd.dedupeKey) then
              Done(Replayed(ReplayedVersion(st.dedupe[cmd.dedupeKey], cmd.Primary())), |st.log|)
            else Loading(0)
  {
  }

  lemma LoadIs(cfg: Config, cmd: Command, t: nat, st: StoreState)
    requires !cmd.Transfer?
    ensures NextPc(cfg, Client(cmd, Loading(t), 0), st) ==
            match DecideSingle(cfg, cmd, st.log)
            case Success(a) => Appending(t, a, |st.log|, |st.log|)
            case Failure(o) => Done(o, |st.log|)
  {
  }

  lemma LoadFirstIs(cfg: Config, cmd: Command, t: nat, st: StoreState)
    requires cmd.Transfer?
    ensures NextPc(cfg, Client(cmd, Loading(t), 0), st) ==
            match FoldAccount(cfg.arith, StreamOf(st.log, cmd.Primary()))
            case Success(from) => LoadingLast(t, from, |st.log|)
            case Failure(err) => Done(LoadFailed(err), |st.log|)
  {
  }

  lemma LoadLastIs(cfg: Config, cmd: Command, t: nat, from: AccountState, r: nat, st: StoreState, to: AccountState)
    requires cmd.Transfer? && FoldAccount(cfg.arith, StreamOf(st.log, cmd.Last())) == Success(to)
    ensures NextPc(cfg, Client(cmd, LoadingLast(t, from, r), 0), st) ==
            match DecideTransfer(cmd, from, to)
            case Success(a) => Appending(t, a, r, |st.log|)
            case Failure(o) => Done(o, r)
  {
  }

  lemma LoadLastFails(cfg: Config, cmd: Command, t: nat, from: AccountState, r: nat, st: StoreState)
    requires cmd.Transfer? && FoldAccount(cfg.arith, StreamOf(st.log, cmd.Last())).Failure?
    ensures NextPc(cfg, Client(cmd, LoadingLast(t, from, r), 0), st) ==
            Done(LoadFailed(FoldAccount(cfg.arith, StreamOf(st.log, cmd.Last())).error), r)
  {
  }

  lemma AppendIs(cfg: Config, cmd: Command, pc: Pc, st: StoreState)
    requires pc.Appending?
    ensures NextPc(cfg, Client(cmd, pc, 0), st) ==
            match AppendTo(st, cmd.dedupeKey, pc.decided.batch).0
            case Appended(es) => Done(Applied(FirstVersion(es)), |st.log|)
            case Duplicate(es) => Done(Replayed(ReplayedVersion(es, cmd.Primary())), |st.log|)
            case Conflict =>
              if pc.attempt < PlanOf(cfg, cmd).maxAttempts - 1 then Loading(pc.attempt + 1)
              else Done(Conflicted, |st.log|)
    ensures NextStore(Client(cmd, pc, 0), st) == AppendTo(st, cmd.dedupeKey, pc.decided.batch).1
  {
  }

  /** The version of the last cached event of the command's stream, found by walking the events. */
  method DuplicateResult(events: seq<Event>, k: StreamKey) returns (newVersion: int)
    ensures newVersion == ReplayedVersion(events, k)
    ensures (forall j :: 0 <= j < |events| ==> events[j].stream != k) ==> newVersion == 0
    ensures forall j :: IsLastOf(events, k, j) ==> newVersion == events[j].version
  {
    newVersion := 0;
    for i := 0 to |events|
      invariant newVersion == ReplayedVersion(events[..i], k)
      invariant (forall j :: 0 <= j < i ==> events[j].stream != k) ==> newVersion == 0
    {
      assert events[..i + 1][..i] == events[..i];
      if events[i].stream == k {
        newVersion := events[i].version;
      }
    }
    assert events[..|events|] == events;
    forall j | IsLastOf(events, k, j) ensures newVersion == events[j].version {
      ReplayedVersionIsLast(events, k, j);
    }
  }

  class Service {
    const store: MemoryStore
    const cfg: Config

    constructor (store: MemoryStore, cfg: Config)
      ensures this.store == store && this.cfg == cfg
    {
      this.store := store;
      this.cfg := cfg;
    }

    /** What the other clients append while this one is between two store calls. */
    method Meanwhile(calls: seq<Call>)
      requires store.Valid()
      modifies store
      ensures store.Valid() && store.State() == Interfered(old(store.State()), calls)
    {
      for i := 0 to |calls|
        invariant store.Valid() && store.State() == Interfered(old(store.State()), calls[..i])
      {
        assert calls[..i + 1] == calls[..i] + [calls[i]];
        OneMoreCall(old(store.State()), calls[..i], calls[i]);
        var _ := store.Append(calls[i].dedupeKey, calls[i].batch);
      }
      assert calls[..|calls|] == calls;
    }

    method LoadAccount(account: string) returns (r: Result<AccountState, FoldError>)
      requires store.Valid()
      ensures r == FoldAccount(cfg.arith, StreamOf(store.State().log, AccountKey(account)))
    {
      var events := store.LoadStream(AccountKey(account));
      r := ReplayAccount(cfg.arith, events);
    }

    method LoadInventory(item: string) returns (r: Result<InventoryState, FoldError>)
      requires store.Valid()
      ensures r == FoldInventory(cfg.arith, StreamOf(store.State().log, ItemKey(item)))
    {
      var events := store.LoadStream(ItemKey(item));
      r := ReplayInventory(cfg.arith, events);
    }

    /** The lookup every command starts with; None means it has to do its work. */
    method LookupPrior(cmd: Command, rounds: seq<seq<Call>>) returns (prior: Option<Outcome>)
      requires store.Valid() && !cmd.SameAccount()
      modifies store
      ensures store.Valid()
      ensures prior.Some? ==> Answers(cfg, cmd, old(store.State()), rounds, 1, prior.value, store.State())
      ensures prior.None? ==> At(cfg, cmd, old(store.State()), rounds, 1, Loading(0), store.State())
    {
      NextAt(cfg, cmd, store.State(), rounds, 0, Start, store.State());
      Meanwhile(RoundAt(rounds, 0));
      LookupIs(cfg, cmd, store.State());
      if cmd.dedupeKey != "" {
        var found, events := store.LookupDedupe(cmd.dedupeKey);
        if found {
          var v := DuplicateResult(events, cmd.Primary());
          return Some(Replayed(v));
        }
      }
      return None;
    }

    /** Load the command's stream, fold it and decide. */
    method Decide(cmd: Command) returns (r: Result<Attempt, Outcome>)
      requires store.Valid() && !cmd.Transfer?
      ensures r == DecideSingle(cfg, cmd, store.State().log)
    {
      if cmd.OnAccount() {
        var current := LoadAccount(cmd.account);
        if current.Failure? {
          return Failure(LoadFailed(current.error));
        }
        var decided := DecideAccount(cmd, current.value);
        return AttemptOn(cfg, cmd, current.value.version, decided);
      } else {
        var current := LoadInventory(cmd.item);
        if current.Failure? {
          return Failure(LoadFailed(current.error));
        }
        var decided := DecideItem(cfg.arith, cmd, current.value);
        return AttemptOn(cfg, cmd, current.value.version, decided);
      }
    }

    /** The first half of an attempt: a batch of one item to append, or the refusal. */
    method LoadAndDecide(
      cmd: Command, ghost attempt: nat, ghost st0: StoreState, rounds: seq<seq<Call>>, calls: nat)
      returns (decided: Result<Attempt, Outcome>)
      requires store.Valid() && !cmd.Transfer?
      requires At(cfg, cmd, st0, rounds, calls, Loading(attempt), store.State())
      modifies store
      ensures store.Valid()
      ensures decided.Success? ==>
                var now := |store.State().log|;
                At(cfg, cmd, st0, rounds, calls + 1, Appending(attempt, decided.value, now, now), store.State())
      ensures decided.Failure? ==>
                Answers(cfg, cmd, st0, rounds, calls + 1, decided.error, store.State())
    {
      NextAt(cfg, cmd, st0, rounds, calls, Loading(attempt), store.State());
      Meanwhile(RoundAt(rounds, calls));
      LoadIs(cfg, cmd, attempt, store.State());
      decided := Decide(cmd);
    }

    /** One Append and the answer it stands for; None means a version conflict with attempts left. */
    method TryAppend(
      cmd: Command, attempt: nat, a: Attempt, ghost r: nat, ghost rl: nat,
      ghost st0: StoreState, rounds: seq<seq<Call>>, calls: nat) returns (answer: Option<Outcome>)
      requires store.Valid()
      requires At(cfg, cmd, st0, rounds, calls, Appending(attempt, a, r, rl), store.State())
      modifies store
      ensures store.Valid()
      ensures answer.Some? ==> Answers(cfg, cmd, st0, rounds, calls + 1, answer.value, store.State())
      ensures answer.None? ==>
                && attempt < PlanOf(cfg, cmd).maxAttempts - 1
                && At(cfg, cmd, st0, rounds, calls + 1, Loading(attempt + 1), store.State())
    {
      NextAt(cfg, cmd, st0, rounds, calls, Appending(attempt, a, r, rl), store.State());
      Meanwhile(RoundAt(rounds, calls));
      AppendIs(cfg, cmd, Appending(attempt, a, r, rl), store.State());
      var appended := store.Append(cmd.dedupeKey, a.batch);
      match appended {
        case Appended(es) =>
          return Some(Applied(FirstVersion(es)));
        case Duplicate(es) =>
          var v := DuplicateResult(es, cmd.Primary());
          return Some(Replayed(v));
        case Conflict =>
          return if attempt < PlanOf(cfg, cmd).maxAttempts - 1 then None else Some(Conflicted);
      }
    }

    /** One attempt of a command on one stream; None means a version conflict with attempts left. */
    method OneStreamAttempt(
      cmd: Command, attempt: nat, ghost st0: StoreState, rounds: seq<seq<Call>>, before: nat)
      returns (answer: Option<Outcome>, calls: nat)
      requires store.Valid() && !cmd.Transfer?
      requires At(cfg, cmd, st0, rounds, before, Loading(attempt), store.State())
      modifies store
      ensures store.Valid() && calls <= before + 2
      ensures answer.Some? ==> Answers(cfg, cmd, st0, rounds, calls, answer.value, store.State())
      ensures answer.None? ==>
                && attempt < PlanOf(cfg, cmd).maxAttempts - 1
                && At(cfg, cmd, st0, rounds, calls, Loading(attempt + 1), store.State())
    {
      var decided := LoadAndDecide(cmd, attempt, st0, rounds, before);
      if decided.Failure? {
        return Some(decided.error), before + 1;
      }
      ghost var now := |store.State().log|;
      answer := TryAppend(cmd, attempt, decided.value, now, now, st0, rounds, before + 1);
      calls := before + 2;
    }

    /** OpenAccount, Deposit, Withdraw, AdjustInventory, ReserveStock and ReleaseStock. */
    method OneStream(cmd: Command, rounds: seq<seq<Call>>) returns (outcome: Outcome, calls: nat)
      requires store.Valid() && !cmd.Transfer?
      modifies store
      ensures store.Valid()
      ensures Answers(cfg, cmd, old(store.State()), rounds, calls, outcome, store.State())
      ensures calls <= 1 + 2 * if PlanOf(cfg, cmd).pinned then 1 else MaxRetries(cfg) + 1
    {
      ghost var st0 := store.State();
      var prior := LookupPrior(cmd, rounds);
      if prior.Some? {
        return prior.value, 1;
      }
      calls := 1;
      var plan := PlanOf(cfg, cmd);
      for attempt := 0 to plan.maxAttempts
        invariant store.Valid() && calls <= 1 + 2 * attempt
        invariant attempt < plan.maxAttempts ==> At(cfg, cmd, st0, rounds, calls, Loading(attempt), store.State())
        invariant attempt == plan.maxAttempts ==> Answers(cfg, cmd, st0, rounds, calls, Conflicted, store.State())
      {
        var answer;
        answer, calls := OneStreamAttempt(cmd, attempt, st0, rounds, calls);
        if answer.Some? {
          return answer.value, calls;
        }
      }
      return Conflicted, calls;
    }

    /** The first third of a transfer's attempt: load the sender. */
    method LoadFirst(cmd: Command, ghost attempt: nat, ghost st0: StoreState, rounds: seq<seq<Call>>, calls: nat)
      returns (from: Result<AccountState, Outcome>)
      requires store.Valid() && cmd.Transfer?
      requires At(cfg, cmd, st0, rounds, calls, Loading(attempt), store.State())
      modifies store
      ensures store.Valid()
      ensures from.Success? ==>
                At(cfg, cmd, st0, rounds, calls + 1, LoadingLast(attempt, from.value, |store.State().log|),
                   store.State())
      ensures from.Failure? ==>
                Answers(cfg, cmd, st0, rounds, calls + 1, from.error, store.State())
    {
      NextAt(cfg, cmd, st0, rounds, calls, Loading(attempt), store.State());
      Meanwhile(RoundAt(rounds, calls));
      LoadFirstIs(cfg, cmd, attempt, store.State());
      var loaded := LoadAccount(cmd.fromAccount);
      return if loaded.Success? then Success(loaded.value) else Failure(LoadFailed(loaded.error));
    }

    /** The second third of a transfer's attempt: load the receiver, then both decisions. */
    method LoadLastAndDecide(
      cmd: Command, ghost attempt: nat, from: AccountState, ghost r: nat,
      ghost st0: StoreState, rounds: seq<seq<Call>>, calls: nat) returns (decided: Result<Attempt, Outcome>)
      requires store.Valid() && cmd.Transfer?
      requires At(cfg, cmd, st0, rounds, calls, LoadingLast(attempt, from, r), store.State())
      modifies store
      ensures store.Valid()
      ensures decided.Success? ==>
                At(cfg, cmd, st0, rounds, calls + 1, Appending(attempt, decided.value, r, |store.State().log|),
                   store.State())
      ensures decided.Failure? ==>
                Answers(cfg, cmd, st0, rounds, calls + 1, decided.error, store.State())
    {
      NextAt(cfg, cmd, st0, rounds, calls, LoadingLast(attempt, from, r), store.State());
      Meanwhile(RoundAt(rounds, calls));
      var to := LoadAccount(cmd.toAccount);
      if to.Failure? {
        LoadLastFails(cfg, cmd, attempt, from, r, store.State());
        return Failure(LoadFailed(to.error));
      }
      LoadLastIs(cfg, cmd, attempt, from, r, store.State(), to.value);
      return DecideTransfer(cmd, from, to.value);
    }

    /** A transfer's two loads, at different times, and its two decisions. */
    method LoadBothAndDecide(
      cmd: Command, ghost attempt: nat, ghost st0: StoreState, rounds: seq<seq<Call>>, before: nat)
      returns (decided: Result<Attempt, Outcome>, calls: nat, ghost r: nat)
      requires store.Valid() && cmd.Transfer?
      requires At(cfg, cmd, st0, rounds, before, Loading(attempt), store.State())
      modifies store
      ensures store.Valid() && calls <= before + 2
      ensures decided.Success? ==>
                At(cfg, cmd, st0, rounds, calls, Appending(attempt, decided.value, r, |store.State().log|),
                   store.State())
      ensures decided.Failure? ==> Answers(cfg, cmd, st0, rounds, calls, decided.error, store.State())
    {
      r := 0;
      var from := LoadFirst(cmd, attempt, st0, rounds, before);
      if from.Failure? {
        return Failure(from.error), before + 1, r;
      }
      r := |store.State().log|;
      decided := LoadLastAndDecide(cmd, attempt, from.value, r, st0, rounds, before + 1);
      calls := before + 2;
    }

    /** One attempt of a transfer; None means a version conflict with attempts left. */
    method TransferAttempt(
      cmd: Command, attempt: nat, ghost st0: StoreState, rounds: seq<seq<Call>>, before: nat)
      returns (answer: Option<Outcome>, calls: nat)
      requires store.Valid() && cmd.Transfer?
      requires At(cfg, cmd, st0, rounds, before, Loading(attempt), store.State())
      modifies store
      ensures store.Valid() && calls <= before + 3
      ensures answer.Some? ==> Answers(cfg, cmd, st0, rounds, calls, answer.value, store.State())
      ensures answer.None? ==>
                && attempt < MaxRetries(cfg)
                && At(cfg, cmd, st0, rounds, calls, Loading(attempt + 1), store.State())
    {
      ghost var r;
      var decided;
      decided, calls, r := LoadBothAndDecide(cmd, attempt, st0, rounds, before);
      if decided.Failure? {
        return Some(decided.error), calls;
      }
      answer := TryAppend(cmd, attempt, decided.value, r, |store.State().log|, st0, rounds, calls);
      calls := calls + 1;
    }

    /** Transfer: retried as a whole, with both loads, until it lands, is refused or runs out of attempts. */
    method Transfer(cmd: Command, rounds: seq<seq<Call>>) returns (outcome: Outcome, calls: nat)
      requires store.Valid() && cmd.Transfer?
      modifies store
      ensures store.Valid()
      ensures Answers(cfg, cmd, old(store.State()), rounds, calls, outcome, store.State())
      ensures calls <= 1 + 3 * (MaxRetries(cfg) + 1)
    {
      ghost var st0 := store.State();
      if cmd.fromAccount == cmd.toAccount {
        NextAt(cfg, cmd, st0, rounds, 0, Start, st0);
        Meanwhile(RoundAt(rounds, 0));
        return Rejected(SameAccountTransfer), 1;
      }
      var prior := LookupPrior(cmd, rounds);
      if prior.Some? {
        return prior.value, 1;
      }
      calls := 1;
      var attempt := 0;
      while true
        invariant store.Valid() && 0 <= attempt <= MaxRetries(cfg) && calls <= 1 + 3 * attempt
        invariant At(cfg, cmd, st0, rounds, calls, Loading(attempt), store.State())
        decreases MaxRetries(cfg) - attempt
      {
        var answer;
        answer, calls := TransferAttempt(cmd, attempt, st0, rounds, calls);
        if answer.Some? {
          return answer.value, calls;
        }
        attempt := attempt + 1;
      }
    }

    /**
     * Any of the seven commands: whatever the others append between its store calls, it answers as the
     * client of the protocol does, within a bounded number of store calls; and if they append nothing it
     * is one step of the atomic ledger.
     */
    method Execute(cmd: Command, rounds: seq<seq<Call>>) returns (outcome: Outcome, calls: nat)
      requires store.Valid()
      modifies store
      ensures store.Valid()
      ensures Answers(cfg, cmd, old(store.State()), rounds, calls, outcome, store.State())
      ensures calls <= 1 + 3 * (MaxRetries(cfg) + 1)
      ensures rounds == [] ==> (outcome, store.State()) == Atomic(cfg, cmd, old(store.State()))
    {
      ghost var st0 := store.State();
      if cmd.Transfer? {
        outcome, calls := Transfer(cmd, rounds);
      } else {
        outcome, calls := OneStream(cmd, rounds);
      }
      if rounds == [] {
        UndisturbedIsAtomic(cfg, cmd, st0, calls, outcome, store.State());
      }
    }
  }
}
