/** The seven commands of the ledger service and what one attempt of each decides to append. */
module Commands {
  import opened Events
  import opened Int64
  import opened Aggregates
  import opened EventLog

  const DEFAULT_MAX_RETRIES: int := 8

  datatype Command =
    | OpenAccount(account: string, initialBalanceCents: int, dedupeKey: string)
    | Deposit(account: string, amountCents: int, dedupeKey: string, expectedVersion: int)
    | Withdraw(account: string, amountCents: int, dedupeKey: string, expectedVersion: int)
    | Transfer(fromAccount: string, toAccount: string, amountCents: int, dedupeKey: string)
    | AdjustInventory(item: string, delta: int, dedupeKey: string, expectedVersion: int)
    | ReserveStock(item: string, quantity: int, dedupeKey: string, expectedVersion: int)
    | ReleaseStock(item: string, quantity: int, dedupeKey: string, expectedVersion: int)
  {
    predicate OnAccount() {
      OpenAccount? || Deposit? || Withdraw? || Transfer?
    }

    /** The stream whose version a result reports. */
    function Primary(): StreamKey {
      match this
      case Transfer(from, _, _, _) => AccountKey(from)
      case OpenAccount(a, _, _) => AccountKey(a)
      case Deposit(a, _, _, _) => AccountKey(a)
      case Withdraw(a, _, _, _) => AccountKey(a)
      case AdjustInventory(i, _, _, _) => ItemKey(i)
      case ReserveStock(i, _, _, _) => ItemKey(i)
      case ReleaseStock(i, _, _, _) => ItemKey(i)
    }

    /** The last stream the command writes: the receiving account of a transfer, else the primary one. */
    function Last(): StreamKey {
      if Transfer? then AccountKey(toAccount) else Primary()
    }

    predicate SameAccount() {
      Transfer? && fromAccount == toAccount
    }

    predicate Touches(k: StreamKey) {
      k == Primary() || k == Last()
    }

    /** The version the caller asks for; OpenAccount always asks for a stream that does not exist. */
    function RequestedVersion(): int {
      match this
      case OpenAccount(_, _, _) => STREAM_DOES_NOT_EXIST
      case Transfer(_, _, _, _) => NO_VERSION_CHECK
      case Deposit(_, _, _, v) => v
      case Withdraw(_, _, _, v) => v
      case AdjustInventory(_, _, _, v) => v
      case ReserveStock(_, _, _, v) => v
      case ReleaseStock(_, _, _, v) => v
    }

    /** How many events the command appends. */
    function Size(): nat {
      if Transfer? then 2 else 1
    }

    /** The payload the command writes first. */
    function FirstPayload(): Payload {
      match this
      case OpenAccount(_, b, _) => AccountOpened(b)
      case Deposit(_, a, _, _) => FundsDeposited(a)
      case Withdraw(_, a, _, _) => FundsWithdrawn(a)
      case Transfer(_, _, a, _) => FundsWithdrawn(a)
      case AdjustInventory(_, d, _, _) => InventoryAdjusted(d)
      case ReserveStock(_, q, _, _) => StockReserved(q)
      case ReleaseStock(_, q, _, _) => StockReleased(q)
    }

    /** The payload the command writes last. */
    function LastPayload(): Payload {
      if Transfer? then FundsDeposited(amountCents) else FirstPayload()
    }
  }

  datatype Config = Config(configuredRetries: int, arith: Arith)

  function MaxRetries(cfg: Config): int {
    if cfg.configuredRetries <= 0 then DEFAULT_MAX_RETRIES else cfg.configuredRetries
  }

  datatype VersionPlan = VersionPlan(pinned: bool, pinnedValue: int, maxAttempts: int)

  function PlanVersion(cfg: Config, requested: int): VersionPlan {
    if requested == NO_VERSION_CHECK then VersionPlan(false, 0, MaxRetries(cfg) + 1)
    else VersionPlan(true, requested, 1)
  }

  function PlanOf(cfg: Config, cmd: Command): VersionPlan {
    PlanVersion(cfg, cmd.RequestedVersion())
  }

  function ExpectedVersionFor(plan: VersionPlan, current: int): int {
    if plan.pinned then plan.pinnedValue else current
  }

  /** How a command can end. */
  datatype Outcome =
    | Applied(newVersion: int)
    | Replayed(newVersion: int)
    | Rejected(error: LedgerError)
    | Conflicted
    | LoadFailed(foldError: FoldError)

  /** A decided attempt: the version loaded from the primary stream, and the batch to append. */
  datatype Attempt = Attempt(loadedVersion: int, batch: seq<AppendEvent>)

  function DecideAccount(cmd: Command, st: AccountState): Result<Payload, LedgerError>
    requires cmd.OpenAccount? || cmd.Deposit? || cmd.Withdraw?
  {
    match cmd
    case OpenAccount(_, b, _) => DecideOpenAccount(st, b)
    case Deposit(_, a, _, _) => DecideDeposit(st, a)
    case Withdraw(_, a, _, _) => DecideWithdraw(st, a)
  }

  function DecideItem(arith: Arith, cmd: Command, st: InventoryState): Result<Payload, LedgerError>
    requires !cmd.OnAccount()
  {
    match cmd
    case AdjustInventory(_, d, _, _) => DecideAdjustInventory(arith, st, d)
    case ReserveStock(_, q, _, _) => DecideReserveStock(st, q)
    case ReleaseStock(_, q, _, _) => DecideReleaseStock(st, q)
  }

  function AttemptOn(
    cfg: Config, cmd: Command, version: int, decided: Result<Payload, LedgerError>): Result<Attempt, Outcome>
  {
    match decided
    case Success(p) =>
      Success(Attempt(version, [AppendEvent(cmd.Primary(), p, ExpectedVersionFor(PlanOf(cfg, cmd), version))]))
    case Failure(err) => Failure(Rejected(err))
  }

  /** Load, fold and decide for a command on one stream. */
  function DecideSingle(cfg: Config, cmd: Command, log: seq<Event>): Result<Attempt, Outcome>
    requires !cmd.Transfer?
  {
    var events := StreamOf(log, cmd.Primary());
    if cmd.OnAccount() then
      match FoldAccount(cfg.arith, events)
      case Success(st) => AttemptOn(cfg, cmd, st.version, DecideAccount(cmd, st))
      case Failure(err) => Failure(LoadFailed(err))
    else
      match FoldInventory(cfg.arith, events)
      case Success(st) => AttemptOn(cfg, cmd, st.version, DecideItem(cfg.arith, cmd, st))
      case Failure(err) => Failure(LoadFailed(err))
  }

  /** Decide a transfer from the two loaded states: the withdrawal first, then the deposit. */
  function DecideTransfer(cmd: Command, from: AccountState, to: AccountState): Result<Attempt, Outcome>
    requires cmd.Transfer?
  {
    match DecideWithdraw(from, cmd.amountCents)
    case Failure(err) => Failure(Rejected(err))
    case Success(w) =>
      match DecideDeposit(to, cmd.amountCents)
      case Failure(err) => Failure(Rejected(err))
      case Success(d) =>
        Success(Attempt(from.version, [AppendEvent(cmd.Primary(), w, from.version),
                                       AppendEvent(cmd.Last(), d, to.version)]))
  }

  /** What one attempt decides when it reads the primary stream in logA and the last one in logB. */
  function Planned(cfg: Config, cmd: Command, logA: seq<Event>, logB: seq<Event>): Result<Attempt, Outcome> {
    if !cmd.Transfer? then DecideSingle(cfg, cmd, logA)
    else
      match FoldAccount(cfg.arith, StreamOf(logA, cmd.Primary()))
      case Failure(err) => Failure(LoadFailed(err))
      case Success(from) =>
        match FoldAccount(cfg.arith, StreamOf(logB, cmd.Last()))
        case Failure(err) => Failure(LoadFailed(err))
        case Success(to) => DecideTransfer(cmd, from, to)
  }

  /** The atomic ledger's decision: every read from one and the same log. */
  function Intent(cfg: Config, cmd: Command, log: seq<Event>): Result<Attempt, Outcome> {
    if cmd.SameAccount() then Failure(Rejected(SameAccountTransfer)) else Planned(cfg, cmd, log, log)
  }

  /** The version a replayed result reports: that of the last cached event of the stream, 0 if there is none. */
  function ReplayedVersion(es: seq<Event>, k: StreamKey): int {
    if es == [] then 0
    else if es[|es| - 1].stream == k then es[|es| - 1].version
    else ReplayedVersion(es[..|es| - 1], k)
  }

  function FirstVersion(es: seq<Event>): int {
    if es == [] then 0 else es[0].version
  }

  /**
   * The atomic ledger: a whole command as one indivisible step on the store, with no retry loop and no
   * loaded copy that could go stale.
   */
  function Atomic(cfg: Config, cmd: Command, st: StoreState): (Outcome, StoreState) {
    if cmd.SameAccount() then (Rejected(SameAccountTransfer), st)
    else if KeyUsed(st, cmd.dedupeKey) then
      (Replayed(ReplayedVersion(st.dedupe[cmd.dedupeKey], cmd.Primary())), st)
    else
      match Intent(cfg, cmd, st.log)
      case Failure(o) => (o, st)
      case Success(a) =>
        match AppendTo(st, cmd.dedupeKey, a.batch).0
        case Appended(es) => (Applied(FirstVersion(es)), AppendTo(st, cmd.dedupeKey, a.batch).1)
        case Duplicate(es) => (Replayed(ReplayedVersion(es, cmd.Primary())), st)
        case Conflict => (Conflicted, st)
  }
}
