/** What a committed cycle leaves in the tables, and how often a comment's job can be published over all runs. */
module PolledRuns {
  import opened Poller
  import opened PollingRuns
  import opened PolledJobs
  import opened Wrappers

  /* ---------- The tickets checkpoint ---------- */

  /** The latest update among the tickets, or the point itself. */
  ghost predicate Latest(v: int, from: int, tickets: seq<Ticket>) {
    && from <= v
    && (forall t :: t in tickets && t.updated.Some? ==> t.updated.value <= v)
    && (v == from || exists t :: t in tickets && t.updated == Some(v))
  }

  lemma LatestNext(v: int, from: int, tickets: seq<Ticket>)
    requires tickets != []
    requires Latest(v, if tickets[0].updated.Some? then Max(from, tickets[0].updated.value) else from, tickets[1..])
    ensures Latest(v, from, tickets)
  {
    forall t | t in tickets && t.updated.Some?
      ensures t.updated.value <= v
    {
      if t != tickets[0] {
        assert t in tickets[1..];
      }
    }
    assert tickets[0] in tickets;
    if t :| t in tickets[1..] && t.updated == Some(v) {
      assert t in tickets;
    }
  }

  lemma {:induction false} ScannedCheckpoint(c: Core, cy: Cycle)
    requires c.control.Scanning? && c.control.pending.None?
    ensures var after := ScanEnd(c, cy);
            && after.tx == Tx(c.tx.events, after.tx.ticketsCp, c.tx.eventsCp) && after.tx.ticketsCp.Some?
            && Latest(after.tx.ticketsCp.value, c.control.seen, c.control.todo)
            && after.db == c.db.(tickets := after.db.tickets)
            && after.control.Reading? && after.control.seen == cy.eventsFrom
    decreases |c.control.todo|
  {
    if c.control.todo == [] {
      assert ScanEnd(c, cy) == ScanEnd(MicroStep(c, cy), cy) == MicroStep(c, cy);
    } else {
      var next := ScanOne(c, cy);
      ScannedCheckpoint(next, cy);
      LatestNext(ScanEnd(c, cy).tx.ticketsCp.value, c.control.seen, c.control.todo);
    }
  }

  /* ---------- What the second phase leaves alone, and the events checkpoint ---------- */

  /** The latest creation time among the items, or the point itself. */
  ghost predicate LatestItem(v: int, from: int, items: seq<Item>) {
    && from <= v
    && (forall k :: 0 <= k < |items| ==> items[k].created <= v)
    && (v == from || exists k :: 0 <= k < |items| && items[k].created == v)
  }

  lemma LatestItemNext(v: int, from: int, items: seq<Item>)
    requires items != [] && LatestItem(v, Max(items[0].created, from), items[1..])
    ensures LatestItem(v, from, items)
  {
    assert forall k :: 0 < k < |items| ==> items[k] == items[1..][k - 1];
    if k :| 0 <= k < |items[1..]| && items[1..][k].created == v {
      assert items[k + 1].created == v;
    }
  }

  lemma {:induction false} VisitLeaves(c: Core, cy: Cycle)
    requires AtItems(c) && c.control.ticket.id in c.db.tickets && c.db.tickets[c.control.ticket.id].observing
    ensures var after := VisitEnd(c, cy);
            && after.control.Reading? && after.control.todo == c.control.todo
            && LatestItem(after.control.seen, c.control.seen, c.control.items)
            && after.tx == c.tx.(events := after.tx.events) && after.db == c.db.(tickets := after.db.tickets)
            && after.db.tickets.Keys == c.db.tickets.Keys
            && forall id :: id in c.db.tickets ==> after.db.tickets[id].observing == c.db.tickets[id].observing
    decreases |c.control.items|
  {
    if c.control.items == [] {
      assert VisitEnd(c, cy) == VisitEnd(MicroStep(c, cy), cy) == MicroStep(c, cy);
    } else {
      var next := HandleOne(c, cy);
      VisitLeaves(next, cy);
      LatestItemNext(VisitEnd(c, cy).control.seen, c.control.seen, c.control.items);
    }
  }

  /** The time of an event of the ticket: its update, or one of its comments. */
  ghost predicate TimeOf(t: Ticket, v: int) {
    t.updated == Some(v) || exists comment :: comment in t.comments && comment.created == v
  }

  /** The ticket is one of those that are visited for events. */
  ghost predicate Tracked(c: Core, t: Ticket) {
    t.id in c.db.tickets && c.db.tickets[t.id].observing
  }

  ghost predicate LatestEvent(c: Core, v: int, from: int, since: int, tickets: seq<Ticket>) {
    && from <= v
    && (forall t, comment :: t in tickets && Tracked(c, t) && Later(t, comment, since) ==> comment.created <= v)
    && (v == from || exists t :: t in tickets && Tracked(c, t) && TimeOf(t, v))
  }

  lemma {:induction false} ItemOf(t: Ticket, comments: seq<Comment>, newIds: set<int>, from: int,
        comment: Comment) returns (k: nat)
    requires comment in comments && from < comment.created
    ensures var items := CommentItems(t, comments, newIds, from);
            k < |items| && items[k].created == comment.created
    decreases |comments|
  {
    if comments[0] == comment {
      k := 0;
    } else {
      k := ItemOf(t, comments[1..], newIds, from, comment);
      if from < comments[0].created {
        k := k + 1;
      }
    }
  }

  lemma {:induction false} CommentOf(t: Ticket, comments: seq<Comment>, newIds: set<int>, from: int,
        k: nat) returns (comment: Comment)
    requires k < |CommentItems(t, comments, newIds, from)|
    ensures comment in comments && comment.created == CommentItems(t, comments, newIds, from)[k].created
    decreases |comments|
  {
    if from < comments[0].created && k == 0 {
      comment := comments[0];
    } else {
      comment := CommentOf(t, comments[1..], newIds, from, if from < comments[0].created then k - 1 else k);
    }
  }

  lemma ItemTimes(t: Ticket, stored: Status, newIds: set<int>, from: int, v: int, seen: int)
    requires LatestItem(v, seen, Items(t, stored, newIds, from))
    ensures forall comment :: Later(t, comment, from) ==> comment.created <= v
    ensures v == seen || TimeOf(t, v)
  {
    var items, status := Items(t, stored, newIds, from), StatusItems(t, stored);
    var mine := CommentItems(t, t.comments, newIds, from);
    assert forall k :: 0 <= k < |items| ==> items[k] == if k < |status| then status[k] else mine[k - |status|];
    forall comment | Later(t, comment, from)
      ensures comment.created <= v
    {
      var k := ItemOf(t, t.comments, newIds, from, comment);
      assert items[|status| + k].created == comment.created;
    }
    if v != seen {
      var k :| 0 <= k < |items| && items[k].created == v;
      if k >= |status| {
        var comment := CommentOf(t, t.comments, newIds, from, k - |status|);
      }
    }
  }

  lemma LatestEventNext(c: Core, next: Core, v: int, from: int, later: int, since: int, tickets: seq<Ticket>)
    requires tickets != [] && LatestEvent(next, v, later, since, tickets[1..]) && from <= later
    requires forall t :: Tracked(next, t) <==> Tracked(c, t)
    requires forall comment :: Tracked(c, tickets[0]) && Later(tickets[0], comment, since) ==> comment.created <= later
    requires later == from || (Tracked(c, tickets[0]) && TimeOf(tickets[0], later))
    ensures LatestEvent(c, v, from, since, tickets)
  {
    assert tickets[0] in tickets;
    assert forall t :: t in tickets ==> t == tickets[0] || t in tickets[1..];
    if t :| t in tickets[1..] && Tracked(next, t) && TimeOf(t, v) {
      assert t in tickets;
    }
  }

  lemma {:induction false} ReadLeaves(c: Core, cy: Cycle)
    requires c.control.Reading?
    ensures var after := RunOn(c, cy);
            && after.control.Finished? && after.tx == Tx(after.tx.events, c.tx.ticketsCp, after.tx.eventsCp)
            && after.db == c.db.(tickets := after.db.tickets) && after.db.tickets.Keys == c.db.tickets.Keys
            && (forall id :: id in c.db.tickets ==> after.db.tickets[id].observing == c.db.tickets[id].observing)
            && after.tx.eventsCp.Some?
            && LatestEvent(c, after.tx.eventsCp.value, c.control.seen, cy.eventsFrom, c.control.todo)
    decreases |c.control.todo|
  {
    var next := MicroStep(c, cy);
    if c.control.todo == [] {
      assert RunOn(c, cy) == RunOn(next, cy) == next;
    } else {
      var t := c.control.todo[0];
      if t.id in c.db.tickets && c.db.tickets[t.id].observing {
        var handling := next;
        VisitThenRun(handling, cy);
        VisitLeaves(handling, cy);
        next := VisitEnd(handling, cy);
        ItemTimes(t, c.db.tickets[t.id].status, c.control.newIds, cy.eventsFrom, next.control.seen, c.control.seen);
      }
      ReadLeaves(next, cy);
      LatestEventNext(c, next, RunOn(c, cy).tx.eventsCp.value, c.control.seen, next.control.seen, cy.eventsFrom,
        c.control.todo);
    }
  }

  /* ---------- A committed cycle ---------- */

  lemma {:induction false} ExecAppend(s: State, es: seq<Event>, e: Event)
    ensures Exec(s, es + [e]) == Apply(Exec(s, es), e)
    decreases |es|
  {
    if es == [] {
      assert es + [e] == [e] && Exec(Apply(s, e), []) == Apply(s, e);
    } else {
      assert (es + [e])[1..] == es[1..] + [e];
      ExecAppend(Apply(s, es[0]), es[1..], e);
    }
  }

  /** The cycle's own view of the tickets between its two phases: stored before, or new in this cycle. */
  lemma PolledLeaves(c: Core, snapshot: seq<Ticket>, brand: int, clock: int, at: int) returns (mid: Core)
    requires c.control.Idle?
    ensures var cy, after := CycleOf(c.db, snapshot, brand, clock, at), Polled(c, snapshot, brand, clock, at);
            && mid == ScanEnd(Begun(c, cy), cy)
            && after.control.Finished? && after.db == c.db.(tickets := after.db.tickets)
            && after.tx.ticketsCp.Some? && after.tx.eventsCp.Some?
            && Latest(after.tx.ticketsCp.value, cy.ticketsFrom, Selected(snapshot, brand, cy.ticketsFrom, ACTIVE))
            && LatestEvent(mid, after.tx.eventsCp.value, cy.eventsFrom, cy.eventsFrom,
                 Selected(snapshot, brand, cy.eventsFrom, ALL))
            && after.db.tickets.Keys == mid.db.tickets.Keys
            && forall id :: id in mid.db.tickets ==> after.db.tickets[id].observing == mid.db.tickets[id].observing
  {
    var cy := CycleOf(c.db, snapshot, brand, clock, at);
    mid := ScanEnd(Begun(c, cy), cy);
    ScanThenRun(Begun(c, cy), cy);
    ScannedCheckpoint(Begun(c, cy), cy);
    Scanned(Begun(c, cy), cy, 0, InitialReply(0));
    ReadLeaves(mid, cy);
  }

  /** The events of an undisturbed cycle that commits. */
  function CommittedCycle(snapshot: seq<Ticket>, clock: int, at: int, n: nat): seq<Event> {
    [Start(snapshot, clock, at)] + seq(n, _ => Step) + [Commit]
  }

  /** The cycle of `n` steps ends, commits, and is not counted as rolled back. */
  ghost predicate Commits(s: State, snapshot: seq<Ticket>, clock: int, at: int, n: nat) {
    var after := Exec(s, CommittedCycle(snapshot, clock, at, n));
    var polled := Polled(s.core, snapshot, s.brand, clock, at);
    && after.core == Core(Merged(polled.db, polled.tx), NO_WRITES, polled.jobs, Idle)
    && after.brand == s.brand && after.rollbacks == s.rollbacks
  }

  lemma CommitsAt(s: State, snapshot: seq<Ticket>, clock: int, at: int) returns (n: nat)
    requires s.core.control.Idle?
    ensures Commits(s, snapshot, clock, at, n)
  {
    n := UndisturbedPoll(s, snapshot, clock, at);
    var es := [Start(snapshot, clock, at)] + seq(n, _ => Step);
    ExecAppend(s, es, Commit);
    var mid := PolledLeaves(s.core, snapshot, s.brand, clock, at);
    StepsKeep(Apply(s, Start(snapshot, clock, at)), n);
    assert es[1..] == seq(n, _ => Step);
  }

  lemma {:induction false} StepsKeep(s: State, n: nat)
    ensures var after := Exec(s, seq(n, _ => Step)); after.rollbacks == s.rollbacks && after.brand == s.brand
    decreases n
  {
    if n > 0 {
      assert seq(n, _ => Step)[1..] == seq(n - 1, _ => Step);
      StepsKeep(Apply(s, Step), n - 1);
    }
  }

  /**
    A committed cycle: the jobs and rows it published and wrote stay, its events join the table, and the tickets
    checkpoint becomes the latest update of an active ticket it read, or stays where the cycle read from.
   */
  lemma CommittedTickets(s: State, snapshot: seq<Ticket>, clock: int, at: int, n: nat)
    requires s.core.control.Idle? && Commits(s, snapshot, clock, at, n)
    ensures var after := Exec(s, CommittedCycle(snapshot, clock, at, n)).core;
            var polled := Polled(s.core, snapshot, s.brand, clock, at);
            && after.control.Idle? && after.tx == NO_WRITES
            && after.jobs == polled.jobs && after.db.tickets == polled.db.tickets
            && (forall key :: key in after.db.events <==> key in polled.db.events || key in polled.tx.events)
            && after.db.eventsCp == polled.tx.eventsCp && after.db.ticketsCp.Some?
    ensures var v := Exec(s, CommittedCycle(snapshot, clock, at, n)).core.db.ticketsCp.value;
            var from := if s.core.db.ticketsCp.Some? then s.core.db.ticketsCp.value else clock - 300;
            && from <= v
            && (forall t :: t in snapshot && t.brand == s.brand && (t.status == New || t.status == Open)
                         && t.updated.Some?
                  ==> t.updated.value <= v)
            && (v == from
                || exists t :: t in snapshot && t.brand == s.brand && (t.status == New || t.status == Open)
                     && t.updated == Some(v))
  {
    var mid := PolledLeaves(s.core, snapshot, s.brand, clock, at);
    var cy := CycleOf(s.core.db, snapshot, s.brand, clock, at);
    forall t | t in snapshot && t.brand == s.brand && (t.status == New || t.status == Open)
        && t.updated.Some? && cy.ticketsFrom <= t.updated.value
      ensures t in Selected(snapshot, s.brand, cy.ticketsFrom, ACTIVE)
    {
    }
  }

  /**
    The events checkpoint of a committed cycle: no comment the cycle had to handle is later, and it is the point the
    cycle read from, or the time of a comment or update of a ticket stored and observed afterwards.
   */
  lemma CommittedEvents(s: State, snapshot: seq<Ticket>, clock: int, at: int, n: nat)
    requires s.core.control.Idle? && Commits(s, snapshot, clock, at, n)
    ensures var after := Exec(s, CommittedCycle(snapshot, clock, at, n)).core.db;
            var from := if s.core.db.eventsCp.Some? then s.core.db.eventsCp.value else clock - 300;
            && after.eventsCp.Some? && from <= after.eventsCp.value
            && (forall t, comment :: t in snapshot && t.brand == s.brand && t.status != Deleted
                                  && t.updated.Some? && from <= t.updated.value && comment in t.comments
                                  && t.id in after.tickets && after.tickets[t.id].observing
                  ==> comment.created <= after.eventsCp.value)
            && (after.eventsCp.value == from
                || exists t :: t in snapshot && t.brand == s.brand && TimeOf(t, after.eventsCp.value)
                     && t.id in after.tickets && after.tickets[t.id].observing)
  {
    var mid := PolledLeaves(s.core, snapshot, s.brand, clock, at);
    var cy := CycleOf(s.core.db, snapshot, s.brand, clock, at);
    var after := Exec(s, CommittedCycle(snapshot, clock, at, n)).core.db;
    assert forall t :: Tracked(mid, t) <==> t.id in after.tickets && after.tickets[t.id].observing;
    forall t, comment | t in snapshot && t.brand == s.brand && t.status != Deleted
        && t.updated.Some? && cy.eventsFrom <= t.updated.value && comment in t.comments
        && t.id in after.tickets && after.tickets[t.id].observing
      ensures comment.created <= after.eventsCp.value
    {
      assert t in Selected(snapshot, s.brand, cy.eventsFrom, ALL);
      if cy.eventsFrom < comment.created {
        assert Later(t, comment, cy.eventsFrom) && Tracked(mid, t);
      }
    }
  }

  /* ---------- The bound on publishes is reached ---------- */

  /** Nobody disturbs the cycle until, at its very end, it rolls back. */
  function AbortedCycle(snapshot: seq<Ticket>, clock: int, at: int, n: nat): seq<Event> {
    [Start(snapshot, clock, at)] + seq(n, _ => Step) + [Abort]
  }

  /** Of a rolled-back cycle, the jobs and the ticket rows stay, and nothing else. */
  lemma RolledBack(s: State, snapshot: seq<Ticket>, clock: int, at: int) returns (n: nat)
    requires s.core.control.Idle?
    ensures var after := Exec(s, AbortedCycle(snapshot, clock, at, n));
            var polled := Polled(s.core, snapshot, s.brand, clock, at);
            && after.core == Core(s.core.db.(tickets := polled.db.tickets), NO_WRITES, polled.jobs, Idle)
            && after.rollbacks == s.rollbacks + 1 && after.brand == s.brand
  {
    n := UndisturbedPoll(s, snapshot, clock, at);
    var es := [Start(snapshot, clock, at)] + seq(n, _ => Step);
    ExecAppend(s, es, Abort);
    var mid := PolledLeaves(s.core, snapshot, s.brand, clock, at);
    StepsKeep(Apply(s, Start(snapshot, clock, at)), n);
    assert es[1..] == seq(n, _ => Step);
  }

  /** Rows after a cycle: a ticket that was stored, or is active in the snapshot, is stored; observing as before. */
  lemma StoredAfter(c: Core, snapshot: seq<Ticket>, brand: int, clock: int, at: int, id: int)
    requires c.control.Idle?
    ensures var after := Polled(c, snapshot, brand, clock, at);
            var isNew := id !in c.db.tickets && ActiveSince(c, snapshot, brand, clock, id);
            && (id in after.db.tickets <==> id in c.db.tickets || isNew)
            && (id in after.db.tickets ==> after.db.tickets[id].observing == (isNew || c.db.tickets[id].observing))
  {
    var cy := CycleOf(c.db, snapshot, brand, clock, at);
    var mid := PolledLeaves(c, snapshot, brand, clock, at);
    Scanned(Begun(c, cy), cy, id, InitialReply(id));
    ActiveIsSelected(c, snapshot, brand, clock, at, id);
  }

  function Opened(id: int, brand: int): Ticket {
    Ticket(id, brand, Open, Some(1000), [])
  }

  function Said(comment: int): Comment {
    Comment(comment, 1001, true, false, User)
  }

  function Commented(id: int, brand: int, comment: int): Ticket {
    Ticket(id, brand, Open, Some(1001), [Said(comment)])
  }

  /** The ticket is observed, and a comment after time 1000 would be news. */
  ghost predicate Awaits(s: State, id: int, comment: int) {
    && s.core.control.Idle? && id in s.core.db.tickets && s.core.db.tickets[id].observing
    && CommentKey(id, comment) !in s.core.db.events
    && s.core.db.eventsCp.Some? && s.core.db.eventsCp.value <= 1000
  }

  /** A new ticket is stored by a first cycle, before its comment. */
  lemma FirstCycle(brand: int, id: int, comment: int) returns (es: seq<Event>)
    ensures var s := Exec(Initial(brand), es);
            Awaits(s, id, comment) && s.brand == brand && s.rollbacks == 0
            && Times(s.core.jobs, FollowupReply(id, comment)) == 0
  {
    var s, t := Initial(brand), Opened(id, brand);
    var n := CommitsAt(s, [t], 1000, 0);
    es := CommittedCycle([t], 1000, 0, n);
    assert t in [t];
    StoredAfter(s.core, [t], brand, 1000, 0, id);
    CommentJobs(s.core, [t], brand, 1000, 0, id, Said(comment));
    CommittedEvents(s, [t], 1000, 0, n);
    CommittedTickets(s, [t], 1000, 0, n);
  }

  /** One more cycle that sees the comment publishes its job once more, unless the event is known. */
  lemma OnceMore(s: State, id: int, comment: int)
    requires Awaits(s, id, comment)
    ensures var polled := Polled(s.core, [Commented(id, s.brand, comment)], s.brand, 2000, 0);
            && Times(polled.jobs, FollowupReply(id, comment)) == Times(s.core.jobs, FollowupReply(id, comment)) + 1
            && id in polled.db.tickets && polled.db.tickets[id].observing
            && (CommentKey(id, comment) in polled.db.events || CommentKey(id, comment) in polled.tx.events)
  {
    var t := Commented(id, s.brand, comment);
    assert t in [t] && Said(comment) in t.comments;
    CommentJobs(s.core, [t], s.brand, 2000, 0, id, Said(comment));
    StoredAfter(s.core, [t], s.brand, 2000, 0, id);
    assert CommentedSince(s.core, [t], s.brand, 2000, id, Said(comment));
  }

  lemma {:induction false} ExecConcat(s: State, es: seq<Event>, fs: seq<Event>)
    ensures Exec(s, es + fs) == Exec(Exec(s, es), fs)
    decreases |es|
  {
    if es == [] {
      assert es + fs == fs;
    } else {
      assert (es + fs)[1..] == es[1..] + fs;
      ExecConcat(Apply(s, es[0]), es[1..], fs);
    }
  }

  lemma {:induction false} RolledBackTimes(brand: int, id: int, comment: int, r: nat) returns (es: seq<Event>)
    ensures var s := Exec(Initial(brand), es);
            Awaits(s, id, comment) && s.brand == brand && s.rollbacks == r
            && Times(s.core.jobs, FollowupReply(id, comment)) == r
  {
    if r == 0 {
      es := FirstCycle(brand, id, comment);
    } else {
      es := RolledBackTimes(brand, id, comment, r - 1);
      var s, snapshot := Exec(Initial(brand), es), [Commented(id, brand, comment)];
      OnceMore(s, id, comment);
      var n := RolledBack(s, snapshot, 2000, 0);
      ExecConcat(Initial(brand), es, AbortedCycle(snapshot, 2000, 0, n));
      es := es + AbortedCycle(snapshot, 2000, 0, n);
    }
  }

  /**
    The bound on publishes is reached: for every number of rollbacks, some run rolls back that many cycles, stores the
    comment's event with the next, and has published its follow-up once more than it rolled back.
   */
  lemma PublishBoundReached(brand: int, id: int, comment: int, r: nat) returns (es: seq<Event>)
    ensures var s := Exec(Initial(brand), es);
            && s.core.control.Idle? && s.rollbacks == r && CommentKey(id, comment) in s.core.db.events
            && Times(s.core.jobs, FollowupReply(id, comment)) == 1 + r
  {
    es := RolledBackTimes(brand, id, comment, r);
    var s, snapshot := Exec(Initial(brand), es), [Commented(id, brand, comment)];
    OnceMore(s, id, comment);
    var n := CommitsAt(s, snapshot, 2000, 0);
    ExecConcat(Initial(brand), es, CommittedCycle(snapshot, 2000, 0, n));
    es := es + CommittedCycle(snapshot, 2000, 0, n);
  }

  /** Every rollback is the poller's own: there are no more than abort events. */
  lemma {:induction false} RollbacksCounted(s: State, es: seq<Event>)
    ensures Exec(s, es).rollbacks <= s.rollbacks + multiset(es)[Abort]
    decreases |es|
  {
    if es != [] {
      RollbacksCounted(Apply(s, es[0]), es[1..]);
      assert es == [es[0]] + es[1..];
    }
  }

  /* ---------- Other writers ---------- */

  /** The comment's event is committed, and no announcement of it is under way. */
  ghost predicate Settled(s: State, ticket: int, comment: int) {
    && CommentKey(ticket, comment) in s.core.db.events
    && PollingRuns.Pending(s.core, FollowupReply(ticket, comment)) == 0
    && PollingRuns.Pending(s.core, AgentDirective(ticket, comment)) == 0
  }

  ghost predicate SameTimes(s: State, after: State, ticket: int, comment: int) {
    && Times(after.core.jobs, FollowupReply(ticket, comment)) == Times(s.core.jobs, FollowupReply(ticket, comment))
    && Times(after.core.jobs, AgentDirective(ticket, comment)) == Times(s.core.jobs, AgentDirective(ticket, comment))
  }

  lemma SettledMicro(s: State, ticket: int, comment: int)
    requires Fits(s) && Settled(s, ticket, comment)
    ensures var after := s.(core := MicroStep(s.core, s.cycle));
            Settled(after, ticket, comment) && SameTimes(s, after, ticket, comment)
  {
    if s.core.control.Handling? && s.core.control.items != [] {
      assert ItemFits(s.core.control.items[0], s.core.control.ticket.id);
    }
  }

  lemma SettledStep(s: State, e: Event, ticket: int, comment: int)
    requires Fits(s) && Settled(s, ticket, comment)
    ensures Settled(Apply(s, e), ticket, comment) && SameTimes(s, Apply(s, e), ticket, comment)
  {
    if e.Step? {
      SettledMicro(s, ticket, comment);
    }
  }

  lemma {:induction false} SettledRun(s: State, es: seq<Event>, ticket: int, comment: int)
    requires Fits(s) && Settled(s, ticket, comment)
    ensures SameTimes(s, Exec(s, es), ticket, comment)
    decreases |es|
  {
    if es != [] {
      StepFits(s, es[0]);
      SettledStep(s, es[0], ticket, comment);
      SettledRun(Apply(s, es[0]), es[1..], ticket, comment);
    }
  }

  /**
    A comment whose event another process stores first is never announced by the poller, in any further run with any
    rollbacks.
   */
  lemma StoredByOthers(s: State, ticket: int, comment: int, created: int, es: seq<Event>)
    requires Fits(s) && ticket in s.core.db.tickets && CommentKey(ticket, comment) !in s.core.tx.events
    requires PollingRuns.Pending(s.core, FollowupReply(ticket, comment)) == 0
    requires PollingRuns.Pending(s.core, AgentDirective(ticket, comment)) == 0
    ensures SameTimes(s, Exec(s, [InsertEvent(CommentKey(ticket, comment), created)] + es), ticket, comment)
  {
    var insert := InsertEvent(CommentKey(ticket, comment), created);
    ExecConcat(s, [insert], es);
    assert Exec(s, [insert]) == Apply(s, insert) by {
      assert [insert][1..] == [] && Exec(Apply(s, insert), []) == Apply(s, insert);
    }
    StepFits(s, insert);
    SettledRun(Apply(s, insert), es, ticket, comment);
  }

  /**
    A ticket that a worker marks, as a service ticket, while the poller is not visiting it: until it is observed again,
    nothing is inserted or published for it, whatever happens.
   */
  lemma MarkedUnobserved(s: State, ticket: int, status: Status, es: seq<Event>)
    requires Fits(s) && Away(s.core, ticket) && SetObserving(ticket, true) !in es
    ensures var after := Exec(Apply(s, WorkerUpsert(ticket, status)), es);
            && NothingNew(s.core, after.core, ticket)
            && ticket in after.core.db.tickets && !after.core.db.tickets[ticket].observing
  {
    var marked := Apply(s, WorkerUpsert(ticket, status));
    StepFits(s, WorkerUpsert(ticket, status));
    ObservingSticky(marked, es, ticket);
  }

  /** The open transaction inserts no event that is committed already. */
  ghost predicate Inserting(s: State) {
    forall key :: key in s.core.tx.events ==> key !in s.core.db.events
  }

  lemma InsertingStep(s: State, e: Event, key: EventKey)
    requires Inserting(s) && (s.core.control.Idle? ==> s.core.tx == NO_WRITES)
    ensures var after := Apply(s, e);
            && Inserting(after) && (after.core.control.Idle? ==> after.core.tx == NO_WRITES)
            && (key in s.core.db.events ==>
                  key in after.core.db.events && after.core.db.events[key] == s.core.db.events[key])
  {
  }

  /** The table of events is only ever added to: in every run, a committed event keeps the time it was stored with. */
  lemma {:induction false} EventsKept(s: State, es: seq<Event>, key: EventKey)
    requires Inserting(s) && (s.core.control.Idle? ==> s.core.tx == NO_WRITES)
    requires key in s.core.db.events
    ensures key in Exec(s, es).core.db.events
    ensures Exec(s, es).core.db.events[key] == s.core.db.events[key]
    decreases |es|
  {
    if es != [] {
      InsertingStep(s, es[0], key);
      EventsKept(Apply(s, es[0]), es[1..], key);
    }
  }
}
