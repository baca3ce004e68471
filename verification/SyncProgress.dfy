/** Progress of a catalogue sync over several marketplaces at once. */
module SyncProgress {
  import opened Decimal
  import Locks
  import opened Wrappers

  /** In the order of their names. */
  datatype Marketplace = DE | ES | FR | IT | UK | US

  const BY_NAME: seq<Marketplace> := [DE, ES, FR, IT, UK, US]
  const EU_MARKETPLACES: seq<Marketplace> := [DE, ES, FR, IT, UK]

  function Only(markets: seq<Marketplace>, market: Marketplace): seq<Marketplace> {
    if markets == [] then []
    else (if markets[0] == market then [market] else []) + Only(markets[1..], market)
  }

  function Sorted(markets: seq<Marketplace>, names: seq<Marketplace>): seq<Marketplace> {
    if names == [] then [] else Only(markets, names[0]) + Sorted(markets, names[1..])
  }

  /** The marketplaces asked for, or all European ones, sorted by name; a repeated one stays repeated. */
  function Selected(markets: seq<Marketplace>): seq<Marketplace> {
    Sorted(if markets == [] then EU_MARKETPLACES else markets, BY_NAME)
  }

  datatype Status = Pending | Running | Completed | Failed | Skipped

  predicate IsTerminal(status: Status) {
    status.Completed? || status.Failed? || status.Skipped?
  }

  type OutcomeStatus = s: Status | IsTerminal(s) witness Completed

  datatype RunStatus = InProgress | RunCompleted | RunFailed

  datatype Entry = Entry(market: Marketplace, status: Status, rowCount: Option<nat>, error: Option<string>)

  datatype Outcome = Outcome(market: Marketplace, status: OutcomeStatus, rowCount: nat, error: Option<string>)

  /** The first entry of the marketplace, or the number of entries. */
  function FirstOf(entries: seq<Entry>, market: Marketplace): (i: nat)
    ensures i <= |entries| && (forall k :: 0 <= k < i ==> entries[k].market != market)
    ensures i < |entries| ==> entries[i].market == market
  {
    if entries == [] || entries[0].market == market then 0 else FirstOf(entries[1..], market) + 1
  }

  function Started(entries: seq<Entry>, market: Marketplace): (after: seq<Entry>)
    ensures |after| == |entries|
  {
    var i := FirstOf(entries, market);
    if i < |entries| then entries[i := entries[i].(status := Running)] else entries
  }

  /** A row count of zero is shown as none. */
  function Settled(entry: Entry, outcome: Outcome): Entry {
    var rowCount := if outcome.rowCount == 0 then None else Some(outcome.rowCount);
    entry.(status := outcome.status, rowCount := rowCount, error := outcome.error)
  }

  function Ended(entries: seq<Entry>, outcome: Outcome): (after: seq<Entry>)
    ensures |after| == |entries|
  {
    var i := FirstOf(entries, outcome.market);
    if i < |entries| then entries[i := Settled(entries[i], outcome)] else entries
  }

  predicate IsOpen(entry: Entry) {
    entry.status.Pending? || entry.status.Running?
  }

  function Aborted(entry: Entry, error: string): Entry {
    if IsOpen(entry) then entry.(status := Failed, error := Some(error)) else entry
  }

  function AllAborted(entries: seq<Entry>, error: string): (after: seq<Entry>)
    ensures |after| == |entries| && forall k :: 0 <= k < |entries| ==> after[k] == Aborted(entries[k], error)
  {
    seq(|entries|, k requires 0 <= k < |entries| => Aborted(entries[k], error))
  }

  function FailedCount(outcomes: seq<Outcome>): nat {
    if outcomes == [] then 0
    else FailedCount(outcomes[..|outcomes| - 1]) + if outcomes[|outcomes| - 1].status.Failed? then 1 else 0
  }

  predicate AnyFailed(outcomes: seq<Outcome>) {
    exists k :: 0 <= k < |outcomes| && outcomes[k].status.Failed?
  }

  function CompletedCount(entries: seq<Entry>): nat {
    if entries == [] then 0
    else CompletedCount(entries[..|entries| - 1]) + if IsTerminal(entries[|entries| - 1].status) then 1 else 0
  }

  function Entries(markets: seq<Marketplace>): (entries: seq<Entry>)
    ensures |entries| == |markets|
    ensures forall k :: 0 <= k < |markets| ==> entries[k] == Entry(markets[k], Pending, None, None)
  {
    seq(|markets|, k requires 0 <= k < |markets| => Entry(markets[k], Pending, None, None))
  }

  class CatalogSyncRunState {
    var status: RunStatus
    var entries: seq<Entry>
    var error: Option<string>

    constructor (markets: seq<Marketplace>)
      ensures status.InProgress? && entries == Entries(markets) && error.None?
    {
      status, entries, error := InProgress, Entries(markets), None;
    }

    method CountCompleted() returns (count: nat)
      ensures count == CompletedCount(entries)
    {
      count := 0;
      for i := 0 to |entries|
        invariant count == CompletedCount(entries[..i])
      {
        assert entries[..i + 1][..i] == entries[..i];
        if IsTerminal(entries[i].status) {
          count := count + 1;
        }
      }
      assert entries[..|entries|] == entries;
    }

    method OnMarketplaceStarted(market: Marketplace)
      modifies this
      ensures entries == Started(old(entries), market) && status == old(status) && error == old(error)
    {
      for i := 0 to |entries|
        invariant entries == old(entries) && status == old(status) && error == old(error)
        invariant forall k :: 0 <= k < i ==> entries[k].market != market
      {
        if entries[i].market == market {
          entries := entries[i := entries[i].(status := Running)];
          break;
        }
      }
    }

    method OnMarketplaceComplete(outcome: Outcome)
      modifies this
      ensures entries == Ended(old(entries), outcome) && status == old(status) && error == old(error)
    {
      for i := 0 to |entries|
        invariant entries == old(entries) && status == old(status) && error == old(error)
        invariant forall k :: 0 <= k < i ==> entries[k].market != outcome.market
      {
        if entries[i].market != outcome.market {
          continue;
        }
        var rowCount := if outcome.rowCount == 0 then None else Some(outcome.rowCount);
        entries := entries[i := entries[i].(status := outcome.status, rowCount := rowCount, error := outcome.error)];
        break;
      }
    }

    method FinalizeState(outcomes: seq<Outcome>)
      modifies this
      ensures status == (if AnyFailed(outcomes) then RunFailed else RunCompleted) && entries == old(entries)
      ensures error == if AnyFailed(outcomes) then Some(Dec(FailedCount(outcomes)) + " marketplace(s) failed")
                       else old(error)
    {
      var failed: nat := 0;
      for i := 0 to |outcomes|
        invariant status == old(status) && entries == old(entries) && error == old(error)
        invariant failed == FailedCount(outcomes[..i])
        invariant failed > 0 <==> exists k :: 0 <= k < i && outcomes[k].status.Failed?
      {
        assert outcomes[..i + 1][..i] == outcomes[..i];
        if outcomes[i].status.Failed? {
          failed := failed + 1;
        }
      }
      assert outcomes[..|outcomes|] == outcomes;
      status := if failed > 0 then RunFailed else RunCompleted;
      if failed > 0 {
        error := Some(Dec(failed) + " marketplace(s) failed");
      }
    }

    method FailState(exc: string)
      modifies this
      ensures status.RunFailed? && error == Some(exc) && entries == AllAborted(old(entries), exc)
    {
      status, error := RunFailed, Some(exc);
      for i := 0 to |entries|
        invariant status.RunFailed? && error == Some(exc) && |entries| == |old(entries)|
        invariant forall k :: 0 <= k < i ==> entries[k] == Aborted(old(entries)[k], exc)
        invariant forall k :: i <= k < |entries| ==> entries[k] == old(entries)[k]
      {
        if entries[i].status.Pending? || entries[i].status.Running? {
          entries := entries[i := entries[i].(status := Failed, error := Some(exc))];
        }
      }
    }
  }

  const CATALOG_SYNC_LOCK_TTL: nat := 3600

  function LockName(brandId: int): string {
    "catalog_sync_brand:" + Dec(brandId)
  }

  function LockHolder(startedBy: string): string {
    "web_admin:" + startedBy
  }

  /** How the task group of a run ends: with its outcomes, or with an exception. */
  datatype RunEnd = Outcomes(outcomes: seq<Outcome>) | Exception(text: string)

  class CatalogSyncManager {
    const locks: Locks.LocksRepository
    var states: map<string, CatalogSyncRunState>

    constructor (locks: Locks.LocksRepository)
      ensures this.locks == locks && states == map[]
    {
      this.locks := locks;
      states := map[];
    }

    /** Starts a run unless one is going on for the brand or someone holds its lease; the lease is then the run's. */
    method Start(brand: string, brandId: int, startedBy: string, markets: seq<Marketplace>, clock: real)
      returns (started: bool)
      modifies this, locks
      ensures started <==> !old(brand in states && states[brand].status.InProgress?)
                           && ("catalog_sync_brand:" + Dec(brandId) in old(locks.rows) ==>
                                 old(locks.rows)["catalog_sync_brand:" + Dec(brandId)].until <= clock.Floor)
      ensures !started ==> states == old(states) && locks.rows == old(locks.rows)
      ensures started ==>
                && brand in states && fresh(states[brand]) && states == old(states)[brand := states[brand]]
                && states[brand].status.InProgress? && states[brand].entries == Entries(Selected(markets))
                && locks.rows == old(locks.rows)["catalog_sync_brand:" + Dec(brandId) :=
                                   Locks.Lease("web_admin:" + startedBy, clock.Floor + 3600)]
    {
      if brand in states && states[brand].status.InProgress? {
        return false;
      }
      var result := locks.AcquireLock(LockName(brandId), LockHolder(startedBy), CATALOG_SYNC_LOCK_TTL, clock);
      if result.HeldBy? {
        return false;
      }
      var state := new CatalogSyncRunState(Selected(markets));
      states := states[brand := state];
      return true;
    }

    /** The end of a run: its state is settled, and then its own lease released, however it ended. */
    method EndRun(brand: string, brandId: int, startedBy: string, end: RunEnd)
      requires brand in states
      modifies locks, states[brand]
      ensures locks.rows
           == Locks.Release(old(locks.rows), "catalog_sync_brand:" + Dec(brandId), "web_admin:" + startedBy)
      ensures end.Outcomes? ==>
                && states[brand].status == (if AnyFailed(end.outcomes) then RunFailed else RunCompleted)
                && states[brand].entries == old(states[brand].entries)
      ensures end.Exception? ==>
                && states[brand].status.RunFailed? && states[brand].error == Some(end.text)
                && states[brand].entries == AllAborted(old(states[brand].entries), end.text)
    {
      match end {
        case Outcomes(outcomes) => states[brand].FinalizeState(outcomes);
        case Exception(text) => states[brand].FailState(text);
      }
      locks.ReleaseLock(LockName(brandId), LockHolder(startedBy));
    }
  }

  /* ---------- One run: a task per marketplace, in any interleaving ---------- */

  datatype Task = Waiting | Underway | Done(outcome: Outcome)

  datatype State = State(run: RunStatus, entries: seq<Entry>, tasks: seq<Task>, outcomes: seq<Outcome>)

  /** `Raise` is an exception out of a task, which cancels the others; `Finish` is the normal end. */
  datatype Event =
    | StartMarket(task: nat)
    | CompleteMarket(task: nat, status: OutcomeStatus, rowCount: nat, error: Option<string>)
    | Raise(exc: string)
    | Finish

  function Begin(markets: seq<Marketplace>): State {
    State(InProgress, Entries(markets), seq(|markets|, _ => Waiting), [])
  }

  predicate AllDone(tasks: seq<Task>) {
    forall k :: 0 <= k < |tasks| ==> tasks[k].Done?
  }

  function Apply(markets: seq<Marketplace>, s: State, e: Event): State {
    if !s.run.InProgress? || |s.tasks| != |markets| then s
    else
      match e
      case StartMarket(k) =>
        if k >= |s.tasks| || !s.tasks[k].Waiting? then s
        else s.(entries := Started(s.entries, markets[k]), tasks := s.tasks[k := Underway])
      case CompleteMarket(k, status, rowCount, error) =>
        if k >= |s.tasks| || !s.tasks[k].Underway? then s
        else
          var outcome := Outcome(markets[k], status, rowCount, error);
          s.(entries := Ended(s.entries, outcome), tasks := s.tasks[k := Done(outcome)], outcomes :=
              s.outcomes + [outcome])
      case Raise(exc) =>
        if Underway !in s.tasks then s
        else s.(run := RunFailed, entries := AllAborted(s.entries, exc))
      case Finish =>
        if !AllDone(s.tasks) then s
        else s.(run := if AnyFailed(s.outcomes) then RunFailed else RunCompleted)
  }

  function Exec(markets: seq<Marketplace>, s: State, es: seq<Event>): State
    decreases |es|
  {
    if es == [] then s else Apply(markets, Exec(markets, s, es[..|es| - 1]), es[|es| - 1])
  }

  ghost predicate Distinct(markets: seq<Marketplace>) {
    forall a, b :: 0 <= a < b < |markets| ==> markets[a] != markets[b]
  }

  ghost predicate SameMarkets(markets: seq<Marketplace>, s: State) {
    && |s.entries| == |s.tasks| == |markets|
    && forall k :: 0 <= k < |markets| ==> s.entries[k].market == markets[k]
  }

  lemma {:induction false} ExecSameMarkets(markets: seq<Marketplace>, es: seq<Event>)
    ensures SameMarkets(markets, Exec(markets, Begin(markets), es))
    decreases |es|
  {
    if es != [] {
      ExecSameMarkets(markets, es[..|es| - 1]);
    }
  }

  /* ---------- The marketplaces of a run ---------- */

  lemma {:induction false} OnlyCounts(markets: seq<Marketplace>, market: Marketplace, other: Marketplace)
    ensures multiset(Only(markets, market))[other] == if other == market then multiset(markets)[other] else 0
  {
    if markets != [] {
      OnlyCounts(markets[1..], market, other);
      var head := if markets[0] == market then [market] else [];
      assert markets == [markets[0]] + markets[1..];
      assert multiset(markets)[other] == multiset([markets[0]])[other] + multiset(markets[1..])[other];
      assert Only(markets, market) == head + Only(markets[1..], market);
      assert multiset(Only(markets, market))[other] ==
          multiset(head)[other] + multiset(Only(markets[1..], market))[other];
    }
  }

  lemma {:induction false} SortedCounts(markets: seq<Marketplace>, names: seq<Marketplace>, market: Marketplace)
    requires Distinct(names)
    ensures multiset(Sorted(markets, names))[market] == if market in names then multiset(markets)[market] else 0
  {
    if names != [] {
      OnlyCounts(markets, names[0], market);
      assert forall a, b :: 0 <= a < b < |names[1..]| ==>
          names[1..][a] == names[a + 1] && names[1..][b] == names[b + 1];
      SortedCounts(markets, names[1..], market);
      assert market in names <==> market == names[0] || market in names[1..];
      assert market == names[0] ==> forall k :: 0 <= k < |names[1..]| ==> names[1..][k] == names[k + 1] != market;
    }
  }

  lemma {:induction false} DistinctCounts(markets: seq<Marketplace>)
    ensures Distinct(markets) <==> forall m :: multiset(markets)[m] <= 1
  {
    if markets != [] {
      var head, tail := markets[0], markets[1..];
      DistinctCounts(tail);
      assert markets == [head] + tail;
      assert forall m :: multiset(markets)[m] == multiset(tail)[m] + if m == head then 1 else 0;
      assert Distinct(markets) <==> Distinct(tail) && head !in tail by {
        assert forall k :: 0 <= k < |tail| ==> tail[k] == markets[k + 1];
        if Distinct(tail) && head !in tail {
          forall a, b | 0 <= a < b < |markets|
            ensures markets[a] != markets[b]
          {
            assert markets[b] == tail[b - 1];
            assert a > 0 ==> markets[a] == tail[a - 1];
          }
        }
      }
      assert head in tail <==> multiset(tail)[head] > 0;
      assert head !in tail ==> multiset(tail)[head] == 0;
    }
  }

  lemma SortedSame(markets: seq<Marketplace>)
    ensures multiset(Sorted(markets, BY_NAME)) == multiset(markets)
  {
    forall market
      ensures multiset(Sorted(markets, BY_NAME))[market] == multiset(markets)[market]
    {
      AllNamed(market);
      SortedCounts(markets, BY_NAME, market);
    }
  }

  lemma EuropeDistinct()
    ensures Distinct(EU_MARKETPLACES)
  {
    var names := EU_MARKETPLACES;
    assert names[0] == DE && names[1] == ES && names[2] == FR && names[3] == IT && names[4] == UK;
  }

  /** A run's list has a repetition exactly if the marketplaces asked for have one; each is in it as often as asked. */
  lemma {:induction false} SelectedAsAsked(markets: seq<Marketplace>)
    ensures Distinct(Selected(markets)) <==> Distinct(markets)
    ensures multiset(Selected(markets)) == multiset(if markets == [] then EU_MARKETPLACES else markets)
  {
    var asked := if markets == [] then EU_MARKETPLACES else markets;
    SortedSame(asked);
    SameCountsDistinct(Sorted(asked, BY_NAME), asked);
    EuropeDistinct();
  }

  lemma AllNamed(market: Marketplace)
    ensures market in BY_NAME && Distinct(BY_NAME)
  {
    var names := BY_NAME;
    assert names[0] == DE && names[1] == ES && names[2] == FR && names[3] == IT && names[4] == UK && names[5] == US;
  }

  lemma SameCountsDistinct(a: seq<Marketplace>, b: seq<Marketplace>)
    requires multiset(a) == multiset(b)
    ensures Distinct(a) <==> Distinct(b)
  {
    DistinctCounts(a);
    DistinctCounts(b);
  }

  /* ---------- Statuses only move forward ---------- */

  /** Pending, then running, then one terminal status for good. */
  predicate CanBecome(before: Status, after: Status) {
    before == after || before.Pending? || (before.Running? && IsTerminal(after))
  }

  ghost predicate Forward(s: State, t: State) {
    && |s.entries| == |t.entries|
    && forall k :: 0 <= k < |s.entries| ==> CanBecome(s.entries[k].status, t.entries[k].status)
  }

  /** While the run goes on, each entry shows where its task is, and in the end its outcome. */
  ghost predicate InStep(s: State) {
    && |s.entries| == |s.tasks|
    && forall k :: 0 <= k < |s.entries| ==>
         match s.tasks[k]
         case Waiting => s.entries[k].status.Pending?
         case Underway => s.entries[k].status.Running?
         case Done(outcome) => s.entries[k] == Settled(s.entries[k], outcome) && s.entries[k].market == outcome.market
  }

  lemma FirstOfDistinct(markets: seq<Marketplace>, s: State, k: nat)
    requires Distinct(markets) && SameMarkets(markets, s) && k < |markets|
    ensures FirstOf(s.entries, markets[k]) == k
  {
    assert s.entries[k].market == markets[k];
    assert markets[FirstOf(s.entries, markets[k])] == markets[k];
  }

  lemma ApplyForward(markets: seq<Marketplace>, s: State, e: Event)
    requires Distinct(markets) && SameMarkets(markets, s) && (s.run.InProgress? ==> InStep(s))
    ensures Forward(s, Apply(markets, s, e)) && SameMarkets(markets, Apply(markets, s, e))
    ensures Apply(markets, s, e).run.InProgress? ==> InStep(Apply(markets, s, e))
  {
    match e
    case StartMarket(k) =>
      if k < |markets| {
        FirstOfDistinct(markets, s, k);
      }
    case CompleteMarket(k, _, _, _) =>
      if k < |markets| {
        FirstOfDistinct(markets, s, k);
      }
    case _ =>
  }

  lemma {:induction false} ExecForward(markets: seq<Marketplace>, s: State, es: seq<Event>)
    requires Distinct(markets) && SameMarkets(markets, s) && (s.run.InProgress? ==> InStep(s))
    ensures var t := Exec(markets, s, es);
            Forward(s, t) && SameMarkets(markets, t) && (t.run.InProgress? ==> InStep(t))
    decreases |es|
  {
    if es != [] {
      ExecForward(markets, s, es[..|es| - 1]);
      ApplyForward(markets, Exec(markets, s, es[..|es| - 1]), es[|es| - 1]);
    }
  }

  lemma {:induction false} CountForward(before: seq<Entry>, after: seq<Entry>)
    requires |before| == |after| && forall k :: 0 <= k < |before| ==> CanBecome(before[k].status, after[k].status)
    ensures CompletedCount(before) <= CompletedCount(after) <= |after|
  {
    if before != [] {
      CountForward(before[..|before| - 1], after[..|after| - 1]);
    }
  }

  /** In every interleaving, statuses move forward only and the completed count neither falls nor passes the total. */
  lemma ProgressForward(markets: seq<Marketplace>, es: seq<Event>, fs: seq<Event>)
    requires Distinct(markets)
    ensures var s := Exec(markets, Begin(markets), es);
            var t := Exec(markets, s, fs);
            Forward(s, t) && CompletedCount(s.entries) <= CompletedCount(t.entries) <= |markets|
  {
    ExecForward(markets, Begin(markets), es);
    var s := Exec(markets, Begin(markets), es);
    ExecForward(markets, s, fs);
    CountForward(s.entries, Exec(markets, s, fs).entries);
  }

  lemma ExecMore(markets: seq<Marketplace>, s: State, es: seq<Event>, e: Event)
    ensures Exec(markets, s, es + [e]) == Apply(markets, Exec(markets, s, es), e)
  {
    assert (es + [e])[..|es|] == es;
  }

  lemma {:induction false} SameFirst(before: seq<Entry>, after: seq<Entry>, market: Marketplace)
    requires |before| == |after| && forall k :: 0 <= k < |before| ==> before[k].market == after[k].market
    ensures FirstOf(before, market) == FirstOf(after, market)
  {
    if before != [] && before[0].market != market {
      SameFirst(before[1..], after[1..], market);
    }
  }

  /** One task from start to end. */
  function Round(k: nat): seq<Event> {
    [StartMarket(k), CompleteMarket(k, Completed, 1, None)]
  }

  lemma RoundApplied(markets: seq<Marketplace>, s: State, k: nat)
    requires s.run.InProgress? && SameMarkets(markets, s) && k < |markets| && s.tasks[k].Waiting?
    ensures var outcome := Outcome(markets[k], Completed, 1, None);
            Apply(markets, Apply(markets, s, StartMarket(k)), Round(k)[1])
              == State(InProgress, Ended(Started(s.entries, markets[k]), outcome), s.tasks[k := Done(outcome)],
                  s.outcomes + [outcome])
  {
    var outcome := Outcome(markets[k], Completed, 1, None);
    assert s.tasks[k := Underway][k := Done(outcome)] == s.tasks[k := Done(outcome)];
  }

  lemma RoundDone(markets: seq<Marketplace>, es: seq<Event>, k: nat) returns (t: State)
    requires var s := Exec(markets, Begin(markets), es);
             s.run.InProgress? && SameMarkets(markets, s) && k < |markets| && s.tasks[k].Waiting?
    ensures var s := Exec(markets, Begin(markets), es);
            var outcome := Outcome(markets[k], Completed, 1, None);
            && t == Exec(markets, Begin(markets), es + Round(k))
            && t == State(InProgress, Ended(Started(s.entries, markets[k]), outcome), s.tasks[k := Done(outcome)],
                s.outcomes + [outcome])
  {
    t := Exec(markets, Begin(markets), es + Round(k));
    ExecMore(markets, Begin(markets), es, StartMarket(k));
    ExecMore(markets, Begin(markets), es + [StartMarket(k)], Round(k)[1]);
    assert es + [StartMarket(k)] + [Round(k)[1]] == es + Round(k);
    RoundApplied(markets, Exec(markets, Begin(markets), es), k);
  }

  lemma FirstCompleted(entries: seq<Entry>, k: nat, outcome: Outcome)
    requires k < |entries| && entries[k].market == outcome.market && outcome.status.Completed?
    ensures var after := Ended(Started(entries, outcome.market), outcome);
            var f := FirstOf(entries, outcome.market);
            f <= k && after[f].status.Completed? && FirstOf(after, outcome.market) == f
  {
    var started := Started(entries, outcome.market);
    SameFirst(entries, started, outcome.market);
    SameFirst(started, Ended(started, outcome), outcome.market);
  }

  /** A marketplace listed twice: its first entry is completed and then set running again. */
  lemma {:induction false} RepeatedMarketGoesBack(markets: seq<Marketplace>, a: nat, b: nat)
    requires a < b < |markets| && markets[a] == markets[b]
    ensures exists es, fs :: var s := Exec(markets, Begin(markets), es); !Forward(s, Exec(markets, s, fs))
  {
    var s := RoundDone(markets, [], a);
    var es := [] + Round(a);
    FirstCompleted(Begin(markets).entries, a, Outcome(markets[a], Completed, 1, None));
    var f := FirstOf(s.entries, markets[b]);
    var fs := [] + [StartMarket(b)];
    ExecMore(markets, s, [], StartMarket(b));
    var t := Exec(markets, s, fs);
    assert s.entries[f].status.Completed? && t.entries[f].status.Running?;
    assert !Forward(s, t);
  }

  /** Statuses move forward in every run if and only if no marketplace is listed twice. */
  lemma ForwardIff(markets: seq<Marketplace>)
    ensures (forall es, fs :: var s := Exec(markets, Begin(markets), es); Forward(s, Exec(markets, s, fs))) <==>
          Distinct(markets)
  {
    if Distinct(markets) {
      forall es, fs
        ensures var s := Exec(markets, Begin(markets), es); Forward(s, Exec(markets, s, fs))
      {
        ProgressForward(markets, es, fs);
      }
    } else {
      var a, b :| 0 <= a < b < |markets| && markets[a] == markets[b];
      RepeatedMarketGoesBack(markets, a, b);
    }
  }

  /* ---------- What a finished run shows ---------- */

  ghost predicate NoneOpen(s: State) {
    forall k :: 0 <= k < |s.entries| ==> !IsOpen(s.entries[k])
  }

  ghost predicate SomeFailed(s: State) {
    exists k :: 0 <= k < |s.entries| && s.entries[k].status.Failed?
  }

  ghost predicate OutcomesRecorded(s: State) {
    forall outcome :: outcome in s.outcomes <==> Done(outcome) in s.tasks
  }

  ghost predicate Consistent(s: State) {
    && (s.run.InProgress? ==> InStep(s) && OutcomesRecorded(s))
    && (!s.run.InProgress? ==> NoneOpen(s) && (s.run.RunFailed? <==> SomeFailed(s)))
  }

  lemma RaiseConsistent(markets: seq<Marketplace>, s: State, exc: string)
    requires SameMarkets(markets, s) && Consistent(s)
    ensures Consistent(Apply(markets, s, Raise(exc)))
  {
    var t := Apply(markets, s, Raise(exc));
    if s.run.InProgress? && Underway in s.tasks {
      var k :| 0 <= k < |s.tasks| && s.tasks[k] == Underway;
      assert t.entries[k].status.Failed?;
    }
  }

  lemma FinishConsistent(markets: seq<Marketplace>, s: State)
    requires SameMarkets(markets, s) && Consistent(s)
    ensures Consistent(Apply(markets, s, Finish))
  {
    var t := Apply(markets, s, Finish);
    if t != s {
      if AnyFailed(s.outcomes) {
        var i :| 0 <= i < |s.outcomes| && s.outcomes[i].status.Failed?;
        assert s.outcomes[i] in s.outcomes;
        var k :| 0 <= k < |s.tasks| && s.tasks[k] == Done(s.outcomes[i]);
        assert s.entries[k].status.Failed?;
      }
      if SomeFailed(s) {
        var k :| 0 <= k < |s.entries| && s.entries[k].status.Failed?;
        assert s.tasks[k].Done? && s.tasks[k] in s.tasks;
        assert s.tasks[k].outcome in s.outcomes;
        assert AnyFailed(s.outcomes);
      }
    }
  }

  lemma CompleteConsistent(markets: seq<Marketplace>, s: State, k: nat, e: Event)
    requires Distinct(markets) && SameMarkets(markets, s) && Consistent(s)
    requires e.CompleteMarket? && e.task == k < |markets| && s.run.InProgress? && s.tasks[k].Underway?
    ensures Consistent(Apply(markets, s, e))
  {
    FirstOfDistinct(markets, s, k);
    var t := Apply(markets, s, e);
    var added := Outcome(markets[k], e.status, e.rowCount, e.error);
    assert t.tasks[k] == Done(added);
    forall outcome
      ensures Done(outcome) in t.tasks <==> Done(outcome) in s.tasks || outcome == added
    {
      if Done(outcome) in s.tasks {
        var i :| 0 <= i < |s.tasks| && s.tasks[i] == Done(outcome);
        assert t.tasks[i] == Done(outcome);
      }
    }
  }

  lemma StartConsistent(markets: seq<Marketplace>, s: State, k: nat)
    requires Distinct(markets) && SameMarkets(markets, s) && Consistent(s)
    requires k < |markets| && s.run.InProgress? && s.tasks[k].Waiting?
    ensures Consistent(Apply(markets, s, StartMarket(k)))
  {
    FirstOfDistinct(markets, s, k);
    var t := Apply(markets, s, StartMarket(k));
    forall outcome
      ensures Done(outcome) in t.tasks <==> Done(outcome) in s.tasks
    {
      if Done(outcome) in s.tasks {
        var i :| 0 <= i < |s.tasks| && s.tasks[i] == Done(outcome);
        assert t.tasks[i] == Done(outcome);
      }
    }
  }

  lemma {:induction false} ExecConsistent(markets: seq<Marketplace>, es: seq<Event>)
    requires Distinct(markets)
    ensures SameMarkets(markets, Exec(markets, Begin(markets), es)) && Consistent(Exec(markets, Begin(markets), es))
    decreases |es|
  {
    ExecSameMarkets(markets, es);
    if es != [] {
      var front, e := es[..|es| - 1], es[|es| - 1];
      ExecConsistent(markets, front);
      var s := Exec(markets, Begin(markets), front);
      match e
      case StartMarket(k) =>
        if s.run.InProgress? && k < |markets| && s.tasks[k].Waiting? {
          StartConsistent(markets, s, k);
        }
      case CompleteMarket(k, _, _, _) =>
        if s.run.InProgress? && k < |markets| && s.tasks[k].Underway? {
          CompleteConsistent(markets, s, k, e);
        }
      case Raise(exc) => RaiseConsistent(markets, s, exc);
      case Finish => FinishConsistent(markets, s);
    }
  }

  /**
    However a run of distinct marketplaces ends, no entry is left open, and the run failed if and only if some
    marketplace did.
   */
  lemma FinishedRun(markets: seq<Marketplace>, es: seq<Event>)
    requires Distinct(markets) && !Exec(markets, Begin(markets), es).run.InProgress?
    ensures var s := Exec(markets, Begin(markets), es);
            && NoneOpen(s) && CompletedCount(s.entries) == |markets|
            && (s.run.RunFailed? <==> SomeFailed(s))
  {
    ExecConsistent(markets, es);
    AllTerminal(Exec(markets, Begin(markets), es).entries);
  }

  lemma {:induction false} AllTerminal(entries: seq<Entry>)
    requires forall k :: 0 <= k < |entries| ==> !IsOpen(entries[k])
    ensures CompletedCount(entries) == |entries|
  {
    if entries != [] {
      AllTerminal(entries[..|entries| - 1]);
    }
  }

  /** An exception leaves no entry open, repeated marketplaces or not. */
  lemma ExceptionClosesAll(markets: seq<Marketplace>, es: seq<Event>, exc: string)
    requires Exec(markets, Begin(markets), es).run.InProgress? && Underway in Exec(markets, Begin(markets), es).tasks
    ensures var t := Exec(markets, Begin(markets), es + [Raise(exc)]);
            t.run.RunFailed? && NoneOpen(t) && CompletedCount(t.entries) == |markets|
  {
    ExecSameMarkets(markets, es);
    ExecMore(markets, Begin(markets), es, Raise(exc));
    RaiseCloses(markets, Exec(markets, Begin(markets), es), exc);
  }

  lemma RaiseCloses(markets: seq<Marketplace>, s: State, exc: string)
    requires SameMarkets(markets, s) && s.run.InProgress? && Underway in s.tasks
    ensures var t := Apply(markets, s, Raise(exc));
            t.run.RunFailed? && NoneOpen(t) && CompletedCount(t.entries) == |markets|
  {
    AllTerminal(AllAborted(s.entries, exc));
  }

  /* ---------- A marketplace listed twice ---------- */

  /** Only the first entry of a marketplace is ever updated, short of an exception. */
  lemma {:induction false} LaterEntryStaysPending(markets: seq<Marketplace>, es: seq<Event>, a: nat, b: nat)
    requires a < b < |markets| && markets[a] == markets[b]
    requires forall e :: e in es ==> !e.Raise?
    ensures SameMarkets(markets, Exec(markets, Begin(markets), es))
    ensures Exec(markets, Begin(markets), es).entries[b].status.Pending?
    decreases |es|
  {
    ExecSameMarkets(markets, es);
    if es != [] {
      var front, e := es[..|es| - 1], es[|es| - 1];
      assert e in es;
      LaterEntryStaysPending(markets, front, a, b);
      var s := Exec(markets, Begin(markets), front);
      assert s.entries[a].market == s.entries[b].market;
      assert forall market :: FirstOf(s.entries, market) != b;
    }
  }

  function Rounds(n: nat): (es: seq<Event>)
    ensures forall e :: e in es ==> !e.Raise?
  {
    if n == 0 then [] else Rounds(n - 1) + Round(n - 1)
  }

  lemma {:induction false} RoundsRun(markets: seq<Marketplace>, n: nat) returns (s: State)
    requires n <= |markets|
    ensures s == Exec(markets, Begin(markets), Rounds(n)) && s.run.InProgress? && |s.tasks| == |markets|
    ensures forall k :: 0 <= k < |markets| ==> if k < n then s.tasks[k].Done? else s.tasks[k].Waiting?
  {
    if n == 0 {
      s := Begin(markets);
    } else {
      s := RoundsRun(markets, n - 1);
      ExecSameMarkets(markets, Rounds(n - 1));
      s := RoundDone(markets, Rounds(n - 1), n - 1);
    }
  }

  /** All tasks in turn, then the normal end. */
  lemma FullRun(markets: seq<Marketplace>) returns (es: seq<Event>)
    ensures !Exec(markets, Begin(markets), es).run.InProgress?
    ensures forall e :: e in es ==> !e.Raise?
  {
    var rounds := Rounds(|markets|);
    var done := RoundsRun(markets, |markets|);
    assert AllDone(done.tasks);
    ExecMore(markets, Begin(markets), rounds, Finish);
    es := rounds + [Finish];
  }

  lemma RepeatedMarketStaysOpen(markets: seq<Marketplace>, a: nat, b: nat)
    requires a < b < |markets| && markets[a] == markets[b]
    ensures exists es :: var s := Exec(markets, Begin(markets), es); !s.run.InProgress? && !NoneOpen(s)
  {
    var es := FullRun(markets);
    LaterEntryStaysPending(markets, es, a, b);
    var s := Exec(markets, Begin(markets), es);
    assert IsOpen(s.entries[b]);
    assert !NoneOpen(s);
  }

  /** Every finished run leaves no entry open if and only if no marketplace is listed twice. */
  lemma NoneOpenIff(markets: seq<Marketplace>)
    ensures (forall es :: var s := Exec(markets, Begin(markets), es); s.run.InProgress? || NoneOpen(s)) <==>
          Distinct(markets)
  {
    if Distinct(markets) {
      forall es
        ensures var s := Exec(markets, Begin(markets), es); s.run.InProgress? || NoneOpen(s)
      {
        ExecConsistent(markets, es);
      }
    } else {
      var a, b :| 0 <= a < b < |markets| && markets[a] == markets[b];
      RepeatedMarketStaysOpen(markets, a, b);
    }
  }
}
