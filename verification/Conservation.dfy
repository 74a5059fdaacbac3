/** Money is conserved: the sum of all balances is what came in from outside minus what went out. */
module Conservation {
  import opened Events
  import opened Int64
  import opened Aggregates
  import opened EventLog
  import opened Commands
  import opened Protocol
  import opened ClientInvariant
  import opened History
  import opened Solvency
  import opened Contention

  /** An account's folded balance; an account without events has none. */
  function BalanceOf(log: seq<Event>, account: string): int {
    match FoldAccount(Exact, StreamOf(log, AccountKey(account)))
    case Success(st) => st.balanceCents
    case Failure(_) => 0
  }

  function AccountsOf(log: seq<Event>): set<string> {
    set e | e in log && e.stream.kind.Account? :: e.stream.id
  }

  ghost function SumOfBalances(log: seq<Event>, accounts: set<string>): int {
    if accounts == {} then 0
    else
      var a :| a in accounts;
      BalanceOf(log, a) + SumOfBalances(log, accounts - {a})
  }

  /** The total over every account that has events. */
  ghost function TotalBalance(log: seq<Event>): int {
    SumOfBalances(log, AccountsOf(log))
  }

  /** The sum of all credits and debits in the log, ignoring which account they go to. */
  function NetCredits(log: seq<Event>): int {
    if log == [] then 0
    else
      var e := log[|log| - 1];
      NetCredits(log[..|log| - 1]) + if e.stream.kind.Account? then Credit(e.payload) else 0
  }

  lemma {:induction false} SumPick(log: seq<Event>, accounts: set<string>, x: string)
    requires x in accounts
    ensures SumOfBalances(log, accounts) == BalanceOf(log, x) + SumOfBalances(log, accounts - {x})
    decreases |accounts|
  {
    var a :| a in accounts && SumOfBalances(log, accounts) == BalanceOf(log, a) + SumOfBalances(log, accounts - {a});
    if a != x {
      SumPick(log, accounts - {a}, x);
      SumPick(log, accounts - {x}, a);
      assert accounts - {a} - {x} == accounts - {x} - {a};
    }
  }

  lemma {:induction false} SumFrame(log: seq<Event>, log': seq<Event>, accounts: set<string>)
    requires forall a :: a in accounts ==> BalanceOf(log', a) == BalanceOf(log, a)
    ensures SumOfBalances(log', accounts) == SumOfBalances(log, accounts)
    decreases |accounts|
  {
    if accounts != {} {
      var a :| a in accounts && SumOfBalances(log, accounts) == BalanceOf(log, a) + SumOfBalances(log, accounts - {a});
      SumFrame(log, log', accounts - {a});
      SumPick(log', accounts, a);
    }
  }

  lemma ShapeOfPrefix(log: seq<Event>, n: nat)
    requires LogShape(log) && n <= |log|
    ensures LogShape(log[..n])
  {
    forall k ensures StreamShape(k, StreamOf(log[..n], k)) {
      assert StreamShape(k, StreamOf(log, k));
      StreamGrows(log, n, k);
    }
  }

  /** Under the shape invariant an account's balance is the sum of its own credits. */
  lemma BalanceIsCredits(log: seq<Event>, account: string)
    requires LogShape(log)
    ensures BalanceOf(log, account) == Credits(StreamOf(log, AccountKey(account)))
  {
    assert StreamShape(AccountKey(account), StreamOf(log, AccountKey(account)));
    AccountShapeFolds(Exact, StreamOf(log, AccountKey(account)));
  }

  lemma {:induction false} NoAccountNoStream(log: seq<Event>, account: string)
    requires account !in AccountsOf(log)
    ensures StreamOf(log, AccountKey(account)) == []
  {
    NoEventsNoStream(log, AccountKey(account));
  }

  lemma BalanceAfterEvent(log: seq<Event>, e: Event, account: string)
    requires LogShape(log) && LogShape(log + [e])
    ensures BalanceOf(log + [e], account) ==
            BalanceOf(log, account) + if e.stream == AccountKey(account) then Credit(e.payload) else 0
  {
    BalanceIsCredits(log, account);
    BalanceIsCredits(log + [e], account);
    StreamOfSnoc(log, e, AccountKey(account));
    var events := StreamOf(log, AccountKey(account));
    if e.stream == AccountKey(account) {
      assert (events + [e])[..|events|] == events;
    } else {
      assert events + [] == events;
    }
  }

  lemma BalancesAfterEvent(log: seq<Event>, e: Event)
    requires LogShape(log) && LogShape(log + [e])
    ensures forall a :: BalanceOf(log + [e], a) ==
                        BalanceOf(log, a) + if e.stream == AccountKey(a) then Credit(e.payload) else 0
  {
    forall a
      ensures BalanceOf(log + [e], a) ==
              BalanceOf(log, a) + if e.stream == AccountKey(a) then Credit(e.payload) else 0
    {
      BalanceAfterEvent(log, e, a);
    }
  }

  lemma TotalAfterAccountEvent(log: seq<Event>, e: Event)
    requires LogShape(log) && LogShape(log + [e]) && e.stream.kind.Account?
    ensures TotalBalance(log + [e]) == TotalBalance(log) + Credit(e.payload)
  {
    var log', x := log + [e], e.stream.id;
    var others := AccountsOf(log) - {x};
    BalancesAfterEvent(log, e);
    assert e.stream == AccountKey(x);
    assert AccountsOf(log') == AccountsOf(log) + {x};
    assert AccountsOf(log') - {x} == others;
    SumPick(log', AccountsOf(log'), x);
    SumFrame(log, log', others);
    TotalWithoutAccount(log, x);
  }

  /** Taking one account out of the sum; an account that has no events yet counts nothing. */
  lemma TotalWithoutAccount(log: seq<Event>, x: string)
    ensures TotalBalance(log) == BalanceOf(log, x) + SumOfBalances(log, AccountsOf(log) - {x})
  {
    if x in AccountsOf(log) {
      SumPick(log, AccountsOf(log), x);
    } else {
      NoAccountNoStream(log, x);
      assert AccountsOf(log) - {x} == AccountsOf(log);
    }
  }

  lemma TotalAfterEvent(log: seq<Event>, e: Event)
    requires LogShape(log) && LogShape(log + [e])
    ensures TotalBalance(log + [e]) == TotalBalance(log) + if e.stream.kind.Account? then Credit(e.payload) else 0
  {
    if e.stream.kind.Account? {
      TotalAfterAccountEvent(log, e);
    } else {
      BalancesAfterEvent(log, e);
      assert AccountsOf(log + [e]) == AccountsOf(log);
      SumFrame(log, log + [e], AccountsOf(log));
    }
  }

  /** The total over accounts is the net of the log, so it can be followed event by event. */
  lemma {:induction false} TotalIsNet(log: seq<Event>)
    requires LogShape(log)
    ensures TotalBalance(log) == NetCredits(log)
    decreases |log|
  {
    if log == [] {
      assert AccountsOf(log) == {};
    } else {
      var n := |log| - 1;
      ShapeOfPrefix(log, n);
      TotalIsNet(log[..n]);
      assert log == log[..n] + [log[n]];
      TotalAfterEvent(log[..n], log[n]);
    }
  }

  // --- Following the total through a run ---

  /** What a command moves across the ledger's border: a transfer moves nothing. */
  function External(cmd: Command): int {
    match cmd
    case OpenAccount(_, b, _) => b
    case Deposit(_, a, _, _) => a
    case Withdraw(_, a, _, _) => -a
    case _ => 0
  }

  function ExternalFlow(hist: seq<Commit>): int {
    if hist == [] then 0 else ExternalFlow(hist[..|hist| - 1]) + External(hist[|hist| - 1].cmd)
  }

  lemma NetOfOneMore(log: seq<Event>, n: nat)
    requires n < |log|
    ensures NetCredits(log[..n + 1]) ==
            NetCredits(log[..n]) + if log[n].stream.kind.Account? then Credit(log[n].payload) else 0
  {
    assert log[..n + 1][..n] == log[..n];
  }

  /** A block adds its command's external flow; half way through a transfer the amount is missing. */
  lemma NetOfBlock(log: seq<Event>, cmd: Command, at: nat)
    requires BlockIs(log, cmd, at)
    ensures NetCredits(log[..at + cmd.Size()]) == NetCredits(log[..at]) + External(cmd)
    ensures cmd.Transfer? ==> NetCredits(log[..at + 1]) == NetCredits(log[..at]) - cmd.amountCents
  {
    NetOfOneMore(log, at);
    if cmd.Transfer? {
      NetOfOneMore(log, at + 1);
    }
  }

  /** What the history says about the log alone: its blocks, in order, fill it from n0 to the end. */
  predicate Filled(n0: nat, log: seq<Event>, hist: seq<Commit>) {
    BlocksIn(log, hist) && Adjacent(n0, log, hist)
  }

  predicate BlocksIn(log: seq<Event>, hist: seq<Commit>) {
    forall j :: 0 <= j < |hist| ==> BlockIs(log, hist[j].cmd, hist[j].at) && Sane(hist[j].cmd)
  }

  predicate Adjacent(n0: nat, log: seq<Event>, hist: seq<Commit>) {
    && StartAt(log, hist, 0) == n0
    && forall j :: 0 <= j < |hist| ==> FollowedAt(log, hist, j)
  }

  /** Block j ends where the next one starts. */
  predicate FollowedAt(log: seq<Event>, hist: seq<Commit>, j: nat)
    requires j < |hist|
  {
    StartAt(log, hist, j + 1) == hist[j].at + hist[j].cmd.Size()
  }

  function StartAt(log: seq<Event>, hist: seq<Commit>, j: nat): nat {
    if j < |hist| then hist[j].at else |log|
  }

  lemma RunIsFilled(cfg: Config, st0: StoreState, cmds: seq<Command>, schedule: seq<nat>)
    requires ValidStore(st0)
    ensures var s := Run(cfg, Init(st0, cmds), schedule);
            Filled(|st0.log|, s.store.log, s.hist) && st0.log <= s.store.log
  {
    RunKeepsInv(cfg, st0, cmds, schedule);
    TiledIsFilled(st0, Run(cfg, Init(st0, cmds), schedule));
  }

  lemma TiledIsFilled(st0: StoreState, s: Sys)
    requires CommitsOk(s) && Tiled(st0, s)
    ensures Filled(|st0.log|, s.store.log, s.hist)
  {
    forall j | 0 <= j < |s.hist|
      ensures BlockIs(s.store.log, s.hist[j].cmd, s.hist[j].at) && Sane(s.hist[j].cmd)
      ensures FollowedAt(s.store.log, s.hist, j)
    {
      assert CommitOk(s, s.hist[j]);
      assert Followed(s, j);
    }
    assert StartOf(s, 0) == |st0.log|;
  }

  lemma {:induction false} NetAtBlock(n0: nat, log: seq<Event>, hist: seq<Commit>, m: nat)
    requires Filled(n0, log, hist) && m <= |hist|
    ensures n0 <= StartAt(log, hist, m) <= |log|
    ensures NetCredits(log[..StartAt(log, hist, m)]) == NetCredits(log[..n0]) + ExternalFlow(hist[..m])
    decreases m
  {
    if m > 0 {
      NetAtBlock(n0, log, hist, m - 1);
      assert BlockIs(log, hist[m - 1].cmd, hist[m - 1].at);
      assert FollowedAt(log, hist, m - 1);
      NetOfBlock(log, hist[m - 1].cmd, hist[m - 1].at);
      assert hist[..m][..m - 1] == hist[..m - 1];
    }
  }

  /** Point c is the start of block m, or, when split, lies between the two legs of transfer m. */
  predicate LiesAt(log: seq<Event>, hist: seq<Commit>, c: nat, m: nat, split: bool) {
    if split then m < |hist| && hist[m].cmd.Transfer? && c == hist[m].at + 1
    else m <= |hist| && c == StartAt(log, hist, m)
  }

  /** Any point of the log beyond the start is either between two blocks or between a transfer's two legs. */
  lemma {:induction false} PointInLog(n0: nat, log: seq<Event>, hist: seq<Commit>, c: nat, top: nat)
    returns (m: nat, split: bool)
    requires Adjacent(n0, log, hist) && n0 <= c && top <= |hist| && c <= StartAt(log, hist, top)
    ensures LiesAt(log, hist, c, m, split)
    decreases top
  {
    if c == StartAt(log, hist, top) {
      m, split := top, false;
    } else if c <= StartAt(log, hist, top - 1) {
      m, split := PointInLog(n0, log, hist, c, top - 1);
    } else {
      InsideBlock(n0, log, hist, c, top - 1);
      m, split := top - 1, true;
    }
  }

  /** Only a transfer's block has an inside. */
  lemma InsideBlock(n0: nat, log: seq<Event>, hist: seq<Commit>, c: nat, m: nat)
    requires Adjacent(n0, log, hist) && m < |hist|
    requires StartAt(log, hist, m) < c < StartAt(log, hist, m + 1)
    ensures LiesAt(log, hist, c, m, true)
  {
    assert FollowedAt(log, hist, m);
  }

  /** The amount of the transfer that point c cuts in two, if there is one. */
  function InFlight(hist: seq<Commit>, m: nat, split: bool): int {
    if split && m < |hist| && hist[m].cmd.Transfer? then hist[m].cmd.amountCents else 0
  }

  /** The external flow of the first m commits. */
  function FlowBefore(hist: seq<Commit>, m: nat): int {
    if m <= |hist| then ExternalFlow(hist[..m]) else 0
  }

  lemma NetAtPoint(n0: nat, log: seq<Event>, hist: seq<Commit>, c: nat) returns (m: nat, split: bool)
    requires Filled(n0, log, hist) && n0 <= c <= |log|
    ensures LiesAt(log, hist, c, m, split)
    ensures split ==> InFlight(hist, m, split) > 0
    ensures NetCredits(log[..c]) == NetCredits(log[..n0]) + FlowBefore(hist, m) - InFlight(hist, m, split)
  {
    m, split := PointInLog(n0, log, hist, c, |hist|);
    NetAtBlock(n0, log, hist, m);
    if split {
      assert BlockIs(log, hist[m].cmd, hist[m].at) && Sane(hist[m].cmd);
      NetOfBlock(log, hist[m].cmd, hist[m].at);
    }
  }

  /**
   * Conservation at every point c of the log of every run: the sum of all balances is the starting total
   * plus the external flow of the commands committed before c, short by exactly the amount of a transfer
   * that c cuts in two, and never in excess.
   */
  lemma ConservedAtEveryPoint(
    cfg: Config, st0: StoreState, cmds: seq<Command>, schedule: seq<nat>, c: nat) returns (m: nat, split: bool)
    requires ValidStore(st0) && LogShape(st0.log)
    requires |st0.log| <= c <= |Run(cfg, Init(st0, cmds), schedule).store.log|
    ensures var s := Run(cfg, Init(st0, cmds), schedule);
            && LiesAt(s.store.log, s.hist, c, m, split)
            && (split ==> InFlight(s.hist, m, split) > 0)
            && TotalBalance(s.store.log[..c]) ==
               TotalBalance(st0.log) + FlowBefore(s.hist, m) - InFlight(s.hist, m, split)
  {
    var s := Run(cfg, Init(st0, cmds), schedule);
    RunIsFilled(cfg, st0, cmds, schedule);
    RunKeepsShape(cfg, st0, cmds, schedule);
    ShapeOfPrefix(s.store.log, c);
    TotalIsNet(s.store.log[..c]);
    TotalIsNet(st0.log);
    assert s.store.log[..|st0.log|] == st0.log;
    m, split := NetAtPoint(|st0.log|, s.store.log, s.hist, c);
  }

  /** Over a whole run: final total = initial total + external deposits - external withdrawals. */
  lemma MoneyIsConserved(cfg: Config, st0: StoreState, cmds: seq<Command>, schedule: seq<nat>)
    requires ValidStore(st0) && LogShape(st0.log)
    ensures var s := Run(cfg, Init(st0, cmds), schedule);
            TotalBalance(s.store.log) == TotalBalance(st0.log) + ExternalFlow(s.hist)
  {
    var s := Run(cfg, Init(st0, cmds), schedule);
    RunIsFilled(cfg, st0, cmds, schedule);
    RunKeepsShape(cfg, st0, cmds, schedule);
    TotalIsNet(s.store.log);
    TotalIsNet(st0.log);
    NetAtBlock(|st0.log|, s.store.log, s.hist, |s.hist|);
    assert s.hist[..|s.hist|] == s.hist;
    assert s.store.log[..|s.store.log|] == s.store.log && s.store.log[..|st0.log|] == st0.log;
  }

  /** Event e of the log was written by the command of some client other than i. */
  predicate WrittenByOther(hist: seq<Commit>, e: nat, i: nat) {
    exists j :: 0 <= j < |hist| && hist[j].client != i && hist[j].at <= e < hist[j].at + hist[j].cmd.Size()
  }

  lemma NothingWritten(st0: StoreState, s: Sys, i: nat, e: nat)
    requires CommitsOk(s) && Tiled(st0, s) && i < |s.clients| && !IsApplied(s.clients[i])
    requires |st0.log| <= e < |s.store.log|
    ensures WrittenByOther(s.hist, e, i)
  {
    var j := EventInBlock(st0, s, e, |s.hist|);
    assert CommitOk(s, s.hist[j]);
  }

  /**
   * A transfer that answers Applied has both legs in the log, next to each other. A transfer that does not, or
   * has not yet, has written nothing: every event since the start was written by somebody else's command.
   */
  lemma TransferIsAllOrNothing(
    cfg: Config, st0: StoreState, cmds: seq<Command>, schedule: seq<nat>, i: nat)
    requires ValidStore(st0) && i < |cmds| && cmds[i].Transfer?
    ensures var s := Run(cfg, Init(st0, cmds), schedule);
            && i < |s.clients|
            && (IsApplied(s.clients[i]) ==>
                  BlockIs(s.store.log, cmds[i], s.clients[i].pc.readAt) && cmds[i].Primary() != cmds[i].Last())
            && (!IsApplied(s.clients[i]) ==>
                  forall e :: |st0.log| <= e < |s.store.log| ==> WrittenByOther(s.hist, e, i))
  {
    var s := Run(cfg, Init(st0, cmds), schedule);
    RunKeepsInv(cfg, st0, cmds, schedule);
    RunExtends(cfg, Init(st0, cmds), schedule, 0);
    if IsApplied(s.clients[i]) {
      assert InHist(s.hist, i);
      var j :| 0 <= j < |s.hist| && s.hist[j].client == i;
      assert CommitOk(s, s.hist[j]);
    } else {
      forall e | |st0.log| <= e < |s.store.log| ensures WrittenByOther(s.hist, e, i) {
        NothingWritten(st0, s, i, e);
      }
    }
  }
}
