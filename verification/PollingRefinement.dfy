/** Incremental polling finds, over any number of cycles, exactly what one full scan of the last snapshot would find. */
module PollingRefinement {
  import opened Poller
  import opened PollingRuns
  import opened Wrappers

  /** The snapshot holds this comment under this ticket id. */
  ghost predicate Has(snapshot: seq<Ticket>, ticket: int, c: Comment) {
    exists t :: t in snapshot && t.id == ticket && c in t.comments
  }

  /** The ticket's comment would be inserted, under this key, by a scan from `since`. */
  ghost predicate Yields(t: Ticket, c: Comment, since: int, key: EventKey) {
    c in t.comments && since < c.created && key == CommentKey(t.id, c.id)
  }

  /** One full scan of the snapshot from `since` would insert this comment event. */
  ghost predicate Scanned(snapshot: seq<Ticket>, since: int, key: EventKey) {
    exists t, c :: t in snapshot && Yields(t, c, since, key)
  }

  /**
    A consistent, fully paged snapshot taken at `at`: its times lie in the past, and tracked tickets are listed as
    ours.
   */
  ghost predicate Consistent(snapshot: seq<Ticket>, brand: int, at: int, tracked: set<int>) {
    forall t :: t in snapshot ==>
      && (t.updated.Some? ==> t.updated.value <= at)
      && (forall c :: c in t.comments ==> c.created <= at)
      && (t.id in tracked ==>
            t.brand == brand && t.status in ALL && t.updated.Some? && forall c :: c in t.comments ==>
                c.created <= t.updated.value)
  }

  /** Between two snapshots tracked comments stay, and what is new was created after the first was taken. */
  ghost predicate Later(before: seq<Ticket>, beforeAt: int, after: seq<Ticket>, tracked: set<int>) {
    && (forall t, c :: t in before && t.id in tracked && c in t.comments ==> Has(after, t.id, c))
    && (forall t, c :: t in after && t.id in tracked && c in t.comments ==>
        beforeAt < c.created || Has(before, t.id, c))
  }

  /**
    The assumptions: the snapshot is taken no earlier than the poller reads its clock, and is consistent; and a tracked
    ticket is stored and observed when visited.
   */
  ghost predicate Assumed(s: State, e: Event, tracked: set<int>) {
    && (e.Start? && Enabled(s, e) ==>
          && e.clock <= e.at && Consistent(e.snapshot, s.brand, e.at, tracked)
          && (s.since.Some? ==> s.lastAt <= e.at && Later(s.last, s.lastAt, e.snapshot, tracked)))
    && (e.Step? && s.core.control.Reading? && s.core.control.todo != [] && s.core.control.todo[0].id in tracked ==>
          var id := s.core.control.todo[0].id;
          id in s.core.db.tickets && s.core.db.tickets[id].observing)
  }

  ghost predicate AssumedRun(s: State, es: seq<Event>, tracked: set<int>)
    decreases |es|
  {
    es == [] || (Assumed(s, es[0], tracked) && AssumedRun(Apply(s, es[0]), es[1..], tracked))
  }

  ghost predicate TrackedComment(key: EventKey, tracked: set<int>) {
    key.CommentKey? && key.ticket in tracked
  }

  /** Nothing of a tracked ticket is in the table but what others put there or the scan of the last snapshot yields. */
  ghost predicate NothingExtra(db: Db, others: set<EventKey>, last: seq<Ticket>, since: Option<int>,
        tracked: set<int>) {
    forall key :: key in db.events && TrackedComment(key, tracked) && key !in others ==>
      since.Some? && Scanned(last, since.value, key)
  }

  ghost predicate NothingMissing(db: Db, last: seq<Ticket>, since: int, tracked: set<int>) {
    forall key :: TrackedComment(key, tracked) && Scanned(last, since, key) ==> key in db.events
  }

  /** What holds of the committed tables at every moment. */
  ghost predicate Settled(s: State, tracked: set<int>) {
    && (s.since.Some? <==> s.core.db.eventsCp.Some?)
    && (s.since.Some? ==> s.since.value <= s.core.db.eventsCp.value <= s.lastAt)
    && NothingExtra(s.core.db, s.others, s.last, s.since, tracked)
    && (s.since.Some? ==> NothingMissing(s.core.db, s.last, s.since.value, tracked))
  }

  /** All comments of the ticket that this cycle is to find are inserted, in its transaction or before. */
  ghost predicate Covered(c: Core, t: Ticket, from: int) {
    forall m :: m in t.comments && from < m.created ==> Known(c, CommentKey(t.id, m.id))
  }

  ghost predicate ItemOf(item: Item, t: Ticket, from: int, at: int) {
    && item.created <= at
    && (item.key.CommentKey? ==> exists m :: Yields(t, m, from, item.key))
  }

  ghost predicate StillDue(c: Core, t: Ticket, from: int, items: seq<Item>) {
    forall m :: m in t.comments && from < m.created ==>
      Known(c, CommentKey(t.id, m.id)) || exists k :: 0 <= k < |items| && items[k].key == CommentKey(t.id, m.id)
  }

  /**
    How far the events phase has got: visited tracked tickets are covered, the current one but for its remaining
    items.
   */
  ghost predicate Progress(c: Core, cy: Cycle, tracked: set<int>) {
    match c.control
    case Idle => true
    case Scanning(_, _, _, _) => true
    case Reading(todo, _, seen) =>
      && seen <= cy.at && (forall t :: t in todo ==> t in cy.snapshot)
      && (forall t :: t in cy.snapshot && t.id in tracked ==> t in todo || Covered(c, t, cy.eventsFrom))
    case Handling(todo, _, seen, ticket, items, _) =>
      && seen <= cy.at && (forall t :: t in todo ==> t in cy.snapshot)
      && ticket in cy.snapshot
      && (forall k :: 0 <= k < |items| ==> ItemOf(items[k], ticket, cy.eventsFrom, cy.at))
      && (forall t :: t in cy.snapshot && t.id in tracked ==> t in todo || t == ticket || Covered(c, t, cy.eventsFrom))
      && (ticket.id in tracked ==> StillDue(c, ticket, cy.eventsFrom, items))
      && (c.control.stage != Insert && items != [] ==> Known(c, items[0].key))
    case Finished =>
      && (forall t :: t in cy.snapshot && t.id in tracked ==> Covered(c, t, cy.eventsFrom))
      && c.tx.eventsCp.Some? && c.tx.eventsCp.value <= cy.at
  }

  ghost predicate WritesScanned(tx: Tx, cy: Cycle, tracked: set<int>) {
    forall key :: key in tx.events && TrackedComment(key, tracked) ==> Scanned(cy.snapshot, cy.eventsFrom, key)
  }

  /** What holds of the running cycle. */
  ghost predicate OnTrack(s: State, tracked: set<int>) {
    s.core.control.Idle? ||
    (&& s.cycle.brand == s.brand
     && Consistent(s.cycle.snapshot, s.brand, s.cycle.at, tracked)
     && (s.since.Some? ==> s.lastAt <= s.cycle.at && Later(s.last, s.lastAt, s.cycle.snapshot, tracked))
     && (s.since.None? ==> s.cycle.eventsFrom <= s.cycle.at)
     && WritesScanned(s.core.tx, s.cycle, tracked)
     && Progress(s.core, s.cycle, tracked))
  }

  ghost predicate Inv(s: State, tracked: set<int>) {
    Settled(s, tracked) && OnTrack(s, tracked) && Advancing(s.core, s.cycle) &&
        (s.core.control.Idle? ==> s.core.tx == NO_WRITES)
  }

  /* ---------- One statement of the cycle ---------- */

  lemma CommentItemsDue(t: Ticket, comments: seq<Comment>, newIds: set<int>, from: int, m: Comment)
    requires m in comments && from < m.created
    ensures exists k :: 0 <= k < |CommentItems(t, comments, newIds, from)|
              && CommentItems(t, comments, newIds, from)[k].key == CommentKey(t.id, m.id)
  {
    var items := CommentItems(t, comments, newIds, from);
    if m == comments[0] {
      assert items[0].key == CommentKey(t.id, m.id);
    } else {
      CommentItemsDue(t, comments[1..], newIds, from, m);
      var rest := CommentItems(t, comments[1..], newIds, from);
      var k :| 0 <= k < |rest| && rest[k].key == CommentKey(t.id, m.id);
      assert items[k + |items| - |rest|] == rest[k];
    }
  }

  lemma {:induction false} CommentItemsOf(t: Ticket, comments: seq<Comment>, newIds: set<int>, from: int, at: int)
    requires forall m :: m in comments ==> m in t.comments && m.created <= at
    ensures forall k :: 0 <= k < |CommentItems(t, comments, newIds, from)| ==>
              ItemOf(CommentItems(t, comments, newIds, from)[k], t, from, at)
  {
    if comments != [] {
      CommentItemsOf(t, comments[1..], newIds, from, at);
      if from < comments[0].created {
        assert Yields(t, comments[0], from, CommentKey(t.id, comments[0].id));
      }
    }
  }

  /** Visiting a stored, observed ticket lists every comment it has that is newer than the events checkpoint. */
  lemma ItemsDue(c: Core, t: Ticket, stored: Status, newIds: set<int>, from: int, at: int)
    requires t.updated.Some? ==> t.updated.value <= at
    requires forall m :: m in t.comments ==> m.created <= at
    ensures StillDue(c, t, from, Items(t, stored, newIds, from))
    ensures forall k :: 0 <= k < |Items(t, stored, newIds, from)| ==>
          ItemOf(Items(t, stored, newIds, from)[k], t, from, at)
  {
    var status, comments, items :=
        StatusItems(t, stored), CommentItems(t, t.comments, newIds, from), Items(t, stored, newIds, from);
    CommentItemsOf(t, t.comments, newIds, from, at);
    forall m | m in t.comments && from < m.created
      ensures exists k :: 0 <= k < |items| && items[k].key == CommentKey(t.id, m.id)
    {
      CommentItemsDue(t, t.comments, newIds, from, m);
      var k :| 0 <= k < |comments| && comments[k].key == CommentKey(t.id, m.id);
      assert items[k + |status|] == comments[k];
    }
  }

  lemma KnownGrows(c: Core, cy: Cycle)
    ensures forall key :: Known(c, key) ==> Known(MicroStep(c, cy), key)
  {
  }

  lemma CoveredGrows(c: Core, after: Core, t: Ticket, from: int)
    requires Covered(c, t, from) && forall key :: Known(c, key) ==> Known(after, key)
    ensures Covered(after, t, from)
  {
  }

  /** A tracked ticket that the events phase does not select has nothing new. */
  lemma UnselectedCovered(c: Core, cy: Cycle, t: Ticket, tracked: set<int>)
    requires Consistent(cy.snapshot, cy.brand, cy.at, tracked)
    requires t in cy.snapshot && t.id in tracked && !Selects(t, cy.brand, cy.eventsFrom, ALL)
    ensures Covered(c, t, cy.eventsFrom)
  {
  }

  lemma ScanningStep(c: Core, cy: Cycle, tracked: set<int>)
    requires Consistent(cy.snapshot, cy.brand, cy.at, tracked) && cy.eventsFrom <= cy.at && c.control.Scanning?
    ensures Progress(MicroStep(c, cy), cy, tracked)
  {
    var after := MicroStep(c, cy);
    if after.control.Reading? {
      forall t | t in cy.snapshot && t.id in tracked && t !in after.control.todo
        ensures Covered(after, t, cy.eventsFrom)
      {
        UnselectedCovered(after, cy, t, tracked);
      }
    }
  }

  lemma ReadingStep(c: Core, cy: Cycle, tracked: set<int>)
    requires Consistent(cy.snapshot, cy.brand, cy.at, tracked) && Progress(c, cy, tracked) && c.control.Reading?
    requires c.control.todo != [] && c.control.todo[0].id in tracked ==>
               c.control.todo[0].id in c.db.tickets && c.db.tickets[c.control.todo[0].id].observing
    ensures Progress(MicroStep(c, cy), cy, tracked)
  {
    var after := MicroStep(c, cy);
    KnownGrows(c, cy);
    if c.control.todo != [] {
      var t := c.control.todo[0];
      assert t in cy.snapshot;
      if after.control.Handling? {
        ItemsDue(after, t, c.db.tickets[t.id].status, c.control.newIds, cy.eventsFrom, cy.at);
      }
    }
    forall t | t in cy.snapshot && t.id in tracked && Covered(c, t, cy.eventsFrom)
      ensures Covered(after, t, cy.eventsFrom)
    {
      CoveredGrows(c, after, t, cy.eventsFrom);
    }
  }

  lemma DueShrinks(c: Core, after: Core, t: Ticket, from: int, items: seq<Item>)
    requires StillDue(c, t, from, items) && forall key :: Known(c, key) ==> Known(after, key)
    ensures StillDue(after, t, from, items)
    ensures items != [] && Known(after, items[0].key) ==> StillDue(after, t, from, items[1..])
    ensures items == [] ==> Covered(after, t, from)
  {
    if items != [] && Known(after, items[0].key) {
      forall m | m in t.comments && from < m.created && !Known(after, CommentKey(t.id, m.id))
        ensures exists k :: 0 <= k < |items[1..]| && items[1..][k].key == CommentKey(t.id, m.id)
      {
        var k :| 0 <= k < |items| && items[k].key == CommentKey(t.id, m.id);
        assert items[1..][k - 1] == items[k];
      }
    }
  }

  lemma HandlingStep(c: Core, cy: Cycle, tracked: set<int>)
    requires Progress(c, cy, tracked) && c.control.Handling?
    ensures Progress(MicroStep(c, cy), cy, tracked)
  {
    var after, t := MicroStep(c, cy), c.control.ticket;
    KnownGrows(c, cy);
    if t.id in tracked {
      DueShrinks(c, after, t, cy.eventsFrom, c.control.items);
    }
    forall u | u in cy.snapshot && u.id in tracked && Covered(c, u, cy.eventsFrom)
      ensures Covered(after, u, cy.eventsFrom)
    {
      CoveredGrows(c, after, u, cy.eventsFrom);
    }
  }

  lemma WritesStep(c: Core, cy: Cycle, tracked: set<int>)
    requires Progress(c, cy, tracked) && WritesScanned(c.tx, cy, tracked)
    ensures WritesScanned(MicroStep(c, cy).tx, cy, tracked)
  {
    if c.control.Handling? && c.control.items != [] && c.control.items[0].key.CommentKey? {
      var m :| Yields(c.control.ticket, m, cy.eventsFrom, c.control.items[0].key);
      assert Scanned(cy.snapshot, cy.eventsFrom, c.control.items[0].key);
    }
  }

  lemma MicroKeeps(c: Core, cy: Cycle, tracked: set<int>)
    requires Consistent(cy.snapshot, cy.brand, cy.at, tracked) && cy.eventsFrom <= cy.at
    requires Progress(c, cy, tracked) && WritesScanned(c.tx, cy, tracked)
    requires c.control.Reading? && c.control.todo != [] && c.control.todo[0].id in tracked ==>
               c.control.todo[0].id in c.db.tickets && c.db.tickets[c.control.todo[0].id].observing
    ensures Progress(MicroStep(c, cy), cy, tracked) && WritesScanned(MicroStep(c, cy).tx, cy, tracked)
    ensures MicroStep(c, cy).db.events == c.db.events && MicroStep(c, cy).db.eventsCp == c.db.eventsCp
  {
    WritesStep(c, cy, tracked);
    if c.control.Scanning? {
      ScanningStep(c, cy, tracked);
    } else if c.control.Reading? {
      ReadingStep(c, cy, tracked);
    } else if c.control.Handling? {
      HandlingStep(c, cy, tracked);
    }
  }

  /* ---------- Committing a cycle ---------- */

  /** A comment the older scan yields is in the newer snapshot too. */
  lemma ScanKept(before: seq<Ticket>, beforeAt: int, after: seq<Ticket>, tracked: set<int>, since: int, key: EventKey)
    requires Later(before, beforeAt, after, tracked) && TrackedComment(key, tracked) && Scanned(before, since, key)
    ensures Scanned(after, since, key)
  {
    var t, m :| t in before && Yields(t, m, since, key);
    assert Has(after, t.id, m);
    var u :| u in after && u.id == t.id && m in u.comments;
    assert Yields(u, m, since, key);
  }

  /** What the newer scan yields was yielded by the older one, unless it is later than the older snapshot. */
  lemma ScanSplit(before: seq<Ticket>, beforeAt: int, after: seq<Ticket>, tracked: set<int>, since: int,
        from: int, key: EventKey)
    requires Later(before, beforeAt, after, tracked) && TrackedComment(key, tracked) && Scanned(after, since, key)
    requires since <= from <= beforeAt
    ensures Scanned(before, since, key) || Scanned(after, from, key)
  {
    var t, m :| t in after && Yields(t, m, since, key);
    if from < m.created {
      assert Yields(t, m, from, key);
    } else {
      assert Has(before, t.id, m);
      var u :| u in before && u.id == t.id && m in u.comments;
      assert Yields(u, m, since, key);
    }
  }

  lemma CoveredScan(c: Core, cy: Cycle, tracked: set<int>, key: EventKey)
    requires Progress(c, cy, tracked) && c.control.Finished?
    requires TrackedComment(key, tracked) && Scanned(cy.snapshot, cy.eventsFrom, key)
    ensures Known(c, key)
  {
    var t, m :| t in cy.snapshot && Yields(t, m, cy.eventsFrom, key);
    assert Covered(c, t, cy.eventsFrom);
  }

  lemma CommitMissesNothing(s: State, tracked: set<int>, key: EventKey)
    requires Inv(s, tracked) && s.core.control.Finished? && TrackedComment(key, tracked)
    requires Scanned(s.cycle.snapshot, if s.since.Some? then s.since.value else s.cycle.eventsFrom, key)
    ensures Known(s.core, key)
  {
    if s.since.Some? {
      ScanSplit(s.last, s.lastAt, s.cycle.snapshot, tracked, s.since.value, s.cycle.eventsFrom, key);
      if Scanned(s.last, s.since.value, key) {
        assert NothingMissing(s.core.db, s.last, s.since.value, tracked);
      } else {
        CoveredScan(s.core, s.cycle, tracked, key);
      }
    } else {
      CoveredScan(s.core, s.cycle, tracked, key);
    }
  }

  lemma CommitAddsNothing(s: State, tracked: set<int>, key: EventKey)
    requires Inv(s, tracked) && s.core.control.Finished? && TrackedComment(key, tracked)
    requires Known(s.core, key) && key !in s.others
    ensures Scanned(s.cycle.snapshot, if s.since.Some? then s.since.value else s.cycle.eventsFrom, key)
  {
    if key in s.core.db.events {
      assert Scanned(s.last, s.since.value, key);
      ScanKept(s.last, s.lastAt, s.cycle.snapshot, tracked, s.since.value, key);
    } else if s.since.Some? {
      var t, m :| t in s.cycle.snapshot && Yields(t, m, s.cycle.eventsFrom, key);
      assert Yields(t, m, s.since.value, key);
    }
  }

  lemma CommitSettled(s: State, tracked: set<int>)
    requires Inv(s, tracked) && s.core.control.Finished?
    ensures Inv(Apply(s, Commit), tracked)
  {
    var after := Apply(s, Commit);
    forall key | TrackedComment(key, tracked) && Scanned(after.last, after.since.value, key)
      ensures key in after.core.db.events
    {
      CommitMissesNothing(s, tracked, key);
    }
    forall key | key in after.core.db.events && TrackedComment(key, tracked) && key !in after.others
      ensures Scanned(after.last, after.since.value, key)
    {
      CommitAddsNothing(s, tracked, key);
    }
  }

  /* ---------- Every step ---------- */

  lemma StepInv(s: State, tracked: set<int>)
    requires Inv(s, tracked) && Assumed(s, Step, tracked)
    ensures Inv(Apply(s, Step), tracked)
  {
    CheckpointStep(s, Step);
    if !s.core.control.Idle? {
      MicroKeeps(s.core, s.cycle, tracked);
    }
  }

  lemma ProgressGrows(c: Core, after: Core, cy: Cycle, tracked: set<int>)
    requires Progress(c, cy, tracked) && after.control == c.control && after.tx == c.tx
    requires forall key :: Known(c, key) ==> Known(after, key)
    ensures Progress(after, cy, tracked)
  {
    forall t | t in cy.snapshot && Covered(c, t, cy.eventsFrom)
      ensures Covered(after, t, cy.eventsFrom)
    {
      CoveredGrows(c, after, t, cy.eventsFrom);
    }
    if c.control.Handling? && c.control.ticket.id in tracked {
      DueShrinks(c, after, c.control.ticket, cy.eventsFrom, c.control.items);
    }
  }

  lemma OthersInv(s: State, e: Event, tracked: set<int>)
    requires Inv(s, tracked) && (e.InsertEvent? || e.WorkerUpsert? || e.SetObserving? || e.Abort?)
    ensures Inv(Apply(s, e), tracked)
  {
    CheckpointStep(s, e);
    if Enabled(s, e) && !e.Abort? && !s.core.control.Idle? {
      ProgressGrows(s.core, Apply(s, e).core, s.cycle, tracked);
    }
  }

  lemma StartInv(s: State, e: Event, tracked: set<int>)
    requires Inv(s, tracked) && e.Start? && Assumed(s, e, tracked)
    ensures Inv(Apply(s, e), tracked)
  {
    CheckpointStep(s, e);
  }

  lemma EventInv(s: State, e: Event, tracked: set<int>)
    requires Inv(s, tracked) && Assumed(s, e, tracked)
    ensures Inv(Apply(s, e), tracked)
  {
    match e
    case Start(_, _, _) => StartInv(s, e, tracked);
    case Step => StepInv(s, tracked);
    case Commit => if s.core.control.Finished? { CommitSettled(s, tracked); }
    case _ => OthersInv(s, e, tracked);
  }

  lemma {:induction false} RunInv(s: State, es: seq<Event>, tracked: set<int>)
    requires Inv(s, tracked) && AssumedRun(s, es, tracked)
    ensures Inv(Exec(s, es), tracked)
    decreases |es|
  {
    if es != [] {
      EventInv(s, es[0], tracked);
      RunInv(Apply(s, es[0]), es[1..], tracked);
    }
  }

  /**
    After any run of committed and rolled-back cycles, with other writers in between: of the tracked tickets' comments,
    the table holds exactly those that one full scan of the last committed snapshot finds after the point the first
    committed cycle started from, and those that other processes inserted.
   */
  lemma PollingIsOneScan(brand: int, es: seq<Event>, tracked: set<int>, key: EventKey)
    requires AssumedRun(Initial(brand), es, tracked) && TrackedComment(key, tracked)
    requires Exec(Initial(brand), es).since.Some?
    ensures var s := Exec(Initial(brand), es);
            && (Scanned(s.last, s.since.value, key) ==> key in s.core.db.events)
            && (key in s.core.db.events && key !in s.others ==> Scanned(s.last, s.since.value, key))
  {
    RunInv(Initial(brand), es, tracked);
  }
}
