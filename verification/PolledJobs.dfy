/** Which jobs one undisturbed polling cycle publishes, in terms of the snapshot and the tables it started from. */
module PolledJobs {
  import opened Poller
  import opened PollingRuns
  import opened Wrappers

  ghost predicate Has(tickets: seq<Ticket>, id: int) {
    exists t :: t in tickets && t.id == id
  }

  lemma HasNext(tickets: seq<Ticket>, id: int)
    requires tickets != []
    ensures Has(tickets, id) <==> tickets[0].id == id || Has(tickets[1..], id)
  {
    assert tickets[0] in tickets;
    if t :| t in tickets && t.id == id && t != tickets[0] {
      assert t in tickets[1..];
    }
  }

  /** One more of that job, or none. */
  function If(b: bool): nat {
    if b then 1 else 0
  }

  /* ---------- The first phase ---------- */

  /** The machine when it has left the first phase. */
  function ScanEnd(c: Core, cy: Cycle): Core
    decreases Phase(c.control), Ahead(c.control), Left(c.control)
  {
    if c.control.Scanning? then ScanEnd(MicroStep(c, cy), cy) else c
  }

  lemma {:induction false} ScanThenRun(c: Core, cy: Cycle)
    ensures RunOn(c, cy) == RunOn(ScanEnd(c, cy), cy)
    decreases Phase(c.control), Ahead(c.control), Left(c.control)
  {
    if c.control.Scanning? {
      ScanThenRun(MicroStep(c, cy), cy);
    }
  }

  /** One ticket of the first phase: its row is written, and if it is new its initial reply is published. */
  lemma ScanOne(c: Core, cy: Cycle) returns (next: Core)
    requires c.control.Scanning? && c.control.pending.None? && c.control.todo != []
    ensures ScanEnd(c, cy) == ScanEnd(next, cy)
    ensures var t := c.control.todo[0];
            var isNew := t.id !in c.db.tickets;
            && next.db == c.db.(tickets := c.db.tickets[t.id :=
                 Row(t.status, isNew || c.db.tickets[t.id].observing)])
            && next.tx == c.tx && next.jobs == c.jobs + (if isNew then [InitialReply(t.id)] else [])
            && next.control.Scanning? && next.control.pending.None? && next.control.todo == c.control.todo[1..]
            && next.control.newIds == c.control.newIds + (if isNew then {t.id} else {})
            && next.control.seen == (if t.updated.Some? then Max(c.control.seen, t.updated.value) else c.control.seen)
  {
    next := MicroStep(c, cy);
    if next.control.pending.Some? {
      next := MicroStep(next, cy);
    }
  }

  lemma TimesAppend(jobs: seq<Job>, more: seq<Job>, job: Job)
    ensures Times(jobs + more, job) == Times(jobs, job) + Times(more, job)
  {
  }

  /** What the first phase does about one ticket id, and to the rest of the state. */
  lemma {:induction false} Scanned(c: Core, cy: Cycle, id: int, job: Job)
    requires c.control.Scanning? && c.control.pending.None?
    ensures var after, todo := ScanEnd(c, cy), c.control.todo;
            && after.control.Reading? && after.control.todo == Selected(cy.snapshot, cy.brand, cy.eventsFrom, ALL)
            && after.tx.events == c.tx.events && after.db.events == c.db.events
            && (id in after.control.newIds <==> id in c.control.newIds || (id !in c.db.tickets && Has(todo, id)))
            && (id in after.db.tickets <==> id in c.db.tickets || Has(todo, id))
            && (id in c.db.tickets ==> after.db.tickets[id].observing == c.db.tickets[id].observing)
            && (id in c.db.tickets && !Has(todo, id) ==> after.db.tickets[id] == c.db.tickets[id])
            && (id !in c.db.tickets && Has(todo, id) ==> after.db.tickets[id].observing)
            && (job.ticket == id ==>
                  Times(after.jobs, job)
                    == Times(c.jobs, job) + If(job.InitialReply? && id !in c.db.tickets && Has(todo, id)))
    decreases |c.control.todo|
  {
    if c.control.todo == [] {
      assert ScanEnd(c, cy) == ScanEnd(MicroStep(c, cy), cy) == MicroStep(c, cy);
    } else {
      var next := ScanOne(c, cy);
      HasNext(c.control.todo, id);
      Scanned(next, cy, id, job);
    }
  }

  /* ---------- One visit of the second phase ---------- */

  function VisitEnd(c: Core, cy: Cycle): Core
    decreases Phase(c.control), Ahead(c.control), Left(c.control)
  {
    if c.control.Handling? then VisitEnd(MicroStep(c, cy), cy) else c
  }

  lemma {:induction false} VisitThenRun(c: Core, cy: Cycle)
    ensures RunOn(c, cy) == RunOn(VisitEnd(c, cy), cy)
    decreases Phase(c.control), Ahead(c.control), Left(c.control)
  {
    if c.control.Handling? {
      VisitThenRun(MicroStep(c, cy), cy);
    }
  }

  ghost predicate AtItems(c: Core) {
    c.control.Handling? && c.control.stage.Insert?
  }

  /** One event: stored and announced if its key is unknown; either way the ticket's row is refreshed. */
  lemma HandleOne(c: Core, cy: Cycle) returns (next: Core)
    requires AtItems(c) && c.control.items != []
    ensures VisitEnd(c, cy) == VisitEnd(next, cy)
    ensures var item, t := c.control.items[0], c.control.ticket;
            && next.control == Handling(c.control.todo, c.control.newIds, Max(item.created, c.control.seen), t,
                 c.control.items[1..], Insert)
            && next.db == Upsert(c.db, t.id, t.status, true)
            && (Known(c, item.key) ==> next.tx == c.tx && next.jobs == c.jobs)
            && (!Known(c, item.key) ==>
                  && next.tx == c.tx.(events := c.tx.events[item.key := item.created])
                  && next.jobs == c.jobs + if item.job.Some? then [item.job.value] else [])
  {
    next := MicroStep(c, cy);
    assert VisitEnd(c, cy) == VisitEnd(next, cy);
    if next.control.stage.Announce? {
      assert VisitEnd(next, cy) == VisitEnd(MicroStep(next, cy), cy);
      next := MicroStep(next, cy);
    }
    assert VisitEnd(next, cy) == VisitEnd(MicroStep(next, cy), cy);
    next := MicroStep(next, cy);
  }

  ghost predicate HasKey(items: seq<Item>, key: EventKey) {
    exists k :: 0 <= k < |items| && items[k].key == key
  }

  /** Items of this key announce `given`; no other item announces `job`. */
  ghost predicate Announces(items: seq<Item>, key: EventKey, job: Job, given: Option<Job>) {
    forall k :: 0 <= k < |items| ==>
      && (items[k].key == key ==> items[k].job == given)
      && (items[k].job == Some(job) ==> items[k].key == key)
  }

  lemma HasKeyNext(items: seq<Item>, key: EventKey)
    requires items != []
    ensures HasKey(items, key) <==> items[0].key == key || HasKey(items[1..], key)
  {
    if k :| 0 <= k < |items| && items[k].key == key && k > 0 {
      assert items[1..][k - 1] == items[k];
    }
    if k :| 0 <= k < |items[1..]| && items[1..][k].key == key {
      assert items[k + 1].key == key;
    }
  }

  /** Handling a visit's items: what becomes known, what is published, and what happens to the ticket rows. */
  lemma {:induction false} Visited(c: Core, cy: Cycle, key: EventKey, job: Job, given: Option<Job>)
    requires AtItems(c) && c.control.ticket.id in c.db.tickets && c.db.tickets[c.control.ticket.id].observing
    requires Announces(c.control.items, key, job, given)
    ensures var after, t, items := VisitEnd(c, cy), c.control.ticket, c.control.items;
            && after.control.Reading? && after.control.todo == c.control.todo
            && after.control.newIds == c.control.newIds
            && after.db
                 == c.db.(tickets := if items == [] then c.db.tickets else c.db.tickets[t.id := Row(t.status, true)])
            && (Known(after, key) <==> Known(c, key) || HasKey(items, key))
            && Times(after.jobs, job)
                 == Times(c.jobs, job) + If(!Known(c, key) && HasKey(items, key) && given == Some(job))
    decreases |c.control.items|
  {
    var items := c.control.items;
    if items == [] {
      assert VisitEnd(c, cy) == VisitEnd(MicroStep(c, cy), cy) == MicroStep(c, cy);
    } else {
      var next := HandleOne(c, cy);
      HasKeyNext(items, key);
      assert Announces(items[1..], key, job, given);
      VisitedStep(c, next, key, job, given);
      Visited(next, cy, key, job, given);
    }
  }

  lemma VisitedStep(c: Core, next: Core, key: EventKey, job: Job, given: Option<Job>)
    requires AtItems(c) && c.control.items != [] && Announces(c.control.items, key, job, given)
    requires var item := c.control.items[0];
             && next.db.events == c.db.events
             && (Known(c, item.key) ==> next.tx == c.tx && next.jobs == c.jobs)
             && (!Known(c, item.key) ==>
                   && next.tx == c.tx.(events := c.tx.events[item.key := item.created])
                   && next.jobs == c.jobs + if item.job.Some? then [item.job.value] else [])
    ensures Known(next, key) <==> Known(c, key) || c.control.items[0].key == key
    ensures Times(next.jobs, job)
         == Times(c.jobs, job) + If(!Known(c, key) && c.control.items[0].key == key && given == Some(job))
  {
  }

  /* ---------- The items of a ticket ---------- */

  /** A comment of the ticket, later than the point. */
  ghost predicate Later(t: Ticket, comment: Comment, from: int) {
    comment in t.comments && from < comment.created
  }

  /** The follow-up or directive that a comment asks for, if any. */
  ghost function Asked(ticket: int, comment: Comment, isNew: bool): Option<Job> {
    if comment.public && comment.author == User && !isNew then Some(FollowupReply(ticket, comment.id))
    else if !comment.public && comment.author == Agent && comment.robot then Some(AgentDirective(ticket, comment.id))
    else None
  }

  lemma {:induction false} CommentItemsAre(t: Ticket, comments: seq<Comment>, newIds: set<int>, from: int,
        comment: Comment)
    requires forall c :: c in comments && c.id == comment.id ==> c == comment
    ensures var items, key := CommentItems(t, comments, newIds, from), CommentKey(t.id, comment.id);
            && (HasKey(items, key) <==> comment in comments && from < comment.created)
            && forall k :: 0 <= k < |items| ==>
                 && items[k].key.CommentKey? && items[k].key.ticket == t.id
                 && (items[k].key == key ==> items[k].job == Asked(t.id, comment, t.id in newIds))
                 && (items[k].job.Some? && items[k].job.value.TicketClosed? ==> false)
                 && (items[k].job.Some? ==> JobOf(items[k].job.value, items[k].key))
    decreases |comments|
  {
    if comments != [] {
      CommentItemsAre(t, comments[1..], newIds, from, comment);
      var items := CommentItems(t, comments, newIds, from);
      if comments[0].created > from {
        assert items[1..] == CommentItems(t, comments[1..], newIds, from);
        HasKeyNext(items, CommentKey(t.id, comment.id));
      }
    }
  }

  ghost predicate AsksFor(job: Job, ticket: int, comment: int) {
    job == FollowupReply(ticket, comment) || job == AgentDirective(ticket, comment)
  }

  /** In this list, the ticket's comments of that id are this very comment. */
  ghost predicate Agrees(tickets: seq<Ticket>, ticket: int, comment: Comment) {
    forall t, c :: t in tickets && t.id == ticket && c in t.comments && c.id == comment.id ==> c == comment
  }

  lemma ItemsOfComment(t: Ticket, stored: Status, newIds: set<int>, from: int, ticket: int, comment: Comment, job: Job)
    requires Agrees([t], ticket, comment) && AsksFor(job, ticket, comment.id)
    ensures var items, key := Items(t, stored, newIds, from), CommentKey(ticket, comment.id);
            && (HasKey(items, key) <==> t.id == ticket && Later(t, comment, from))
            && Announces(items, key, job, Asked(ticket, comment, ticket in newIds))
  {
    var items, key := Items(t, stored, newIds, from), CommentKey(ticket, comment.id);
    var status, mine := StatusItems(t, stored), CommentItems(t, t.comments, newIds, from);
    if t.id == ticket {
      assert t in [t];
      CommentItemsAre(t, t.comments, newIds, from, comment);
    } else {
      CommentItemsFit(t, t.comments, newIds, from);
    }
    assert forall k :: 0 <= k < |items| ==> items[k] == if k < |status| then status[k] else mine[k - |status|];
    if k :| 0 <= k < |mine| && mine[k].key == key {
      assert items[|status| + k].key == key;
    }
  }

  /** One ticket of the second phase, for one comment. */
  lemma ReadOne(c: Core, cy: Cycle, ticket: int, comment: Comment, job: Job) returns (next: Core)
    requires c.control.Reading? && c.control.todo != []
    requires Agrees([c.control.todo[0]], ticket, comment) && AsksFor(job, ticket, comment.id)
    ensures RunOn(c, cy) == RunOn(next, cy)
    ensures next.control.Reading? && next.control.todo == c.control.todo[1..]
    ensures next.control.newIds == c.control.newIds
    ensures forall id :: id in next.db.tickets <==> id in c.db.tickets
    ensures forall id :: id in c.db.tickets ==> next.db.tickets[id].observing == c.db.tickets[id].observing
    ensures var t, key := c.control.todo[0], CommentKey(ticket, comment.id);
            var here := t.id == ticket && ticket in c.db.tickets && c.db.tickets[ticket].observing
              && Later(t, comment, cy.eventsFrom);
            && (Known(next, key) <==> Known(c, key) || here)
            && Times(next.jobs, job)
                 == Times(c.jobs, job)
                    + If(!Known(c, key) && here && Asked(ticket, comment, ticket in c.control.newIds) == Some(job))
  {
    var t := c.control.todo[0];
    next := MicroStep(c, cy);
    if t.id in c.db.tickets && c.db.tickets[t.id].observing {
      ItemsOfComment(t, c.db.tickets[t.id].status, c.control.newIds, cy.eventsFrom, ticket, comment, job);
      VisitThenRun(next, cy);
      Visited(next, cy, CommentKey(ticket, comment.id), job, Asked(ticket, comment, ticket in c.control.newIds));
      next := VisitEnd(next, cy);
    }
  }

  /** Some ticket of the list is this one and has the comment, later than the point. */
  ghost predicate Due(tickets: seq<Ticket>, ticket: int, comment: Comment, from: int) {
    exists t :: t in tickets && t.id == ticket && Later(t, comment, from)
  }

  lemma DueNext(tickets: seq<Ticket>, ticket: int, comment: Comment, from: int)
    requires tickets != []
    ensures Due(tickets, ticket, comment, from)
       <==> (tickets[0].id == ticket && Later(tickets[0], comment, from)) || Due(tickets[1..], ticket, comment, from)
    ensures Agrees(tickets, ticket, comment) ==>
              Agrees([tickets[0]], ticket, comment) && Agrees(tickets[1..], ticket, comment)
  {
    assert tickets[0] in tickets;
    if t :| t in tickets && t.id == ticket && Later(t, comment, from) && t != tickets[0] {
      assert t in tickets[1..];
    }
  }

  /** The second phase, for one comment. */
  lemma {:induction false} ReadComments(c: Core, cy: Cycle, ticket: int, comment: Comment, job: Job)
    requires c.control.Reading? && Agrees(c.control.todo, ticket, comment) && AsksFor(job, ticket, comment.id)
    ensures var after, key := RunOn(c, cy), CommentKey(ticket, comment.id);
            var seen := ticket in c.db.tickets && c.db.tickets[ticket].observing
              && Due(c.control.todo, ticket, comment, cy.eventsFrom);
            && (Known(after, key) <==> Known(c, key) || seen)
            && Times(after.jobs, job)
                 == Times(c.jobs, job)
                    + If(!Known(c, key) && seen && Asked(ticket, comment, ticket in c.control.newIds) == Some(job))
    decreases |c.control.todo|
  {
    if c.control.todo == [] {
      assert RunOn(c, cy) == RunOn(MicroStep(c, cy), cy) == MicroStep(c, cy);
    } else {
      DueNext(c.control.todo, ticket, comment, cy.eventsFrom);
      var next := ReadOne(c, cy, ticket, comment, job);
      ReadComments(next, cy, ticket, comment, job);
    }
  }

  /* ---------- Status changes ---------- */

  function ClosedJob(t: Ticket): Option<Job> {
    if t.status == Solved || t.status == Closed then Some(TicketClosed(t.id)) else None
  }

  lemma ItemsOfStatus(t: Ticket, stored: Status, newIds: set<int>, from: int, ticket: Ticket)
    requires ticket.updated.Some? && (t.id == ticket.id ==> t == ticket)
    ensures var items, key := Items(t, stored, newIds, from), StatusKey(ticket.id, ticket.updated.value);
            && (HasKey(items, key) <==> t == ticket && stored != ticket.status)
            && Announces(items, key, TicketClosed(ticket.id), ClosedJob(ticket))
  {
    var items, status := Items(t, stored, newIds, from), StatusItems(t, stored);
    var mine := CommentItems(t, t.comments, newIds, from);
    CommentJobsOnly(t, t.comments, newIds, from);
    assert forall k :: 0 <= k < |items| ==> items[k] == if k < |status| then status[k] else mine[k - |status|];
    if t == ticket && stored != ticket.status {
      assert items[0].key == StatusKey(ticket.id, ticket.updated.value);
    }
  }

  lemma {:induction false} CommentJobsOnly(t: Ticket, comments: seq<Comment>, newIds: set<int>, from: int)
    ensures forall item :: item in CommentItems(t, comments, newIds, from) ==>
              && item.key.CommentKey? && item.key.ticket == t.id
              && (item.job.Some? ==> item.job.value.FollowupReply? || item.job.value.AgentDirective?)
    decreases |comments|
  {
    if comments != [] {
      CommentJobsOnly(t, comments[1..], newIds, from);
    }
  }

  /** One ticket of the second phase, for one ticket's status. */
  lemma ReadOneStatus(c: Core, cy: Cycle, ticket: Ticket) returns (next: Core)
    requires c.control.Reading? && c.control.todo != [] && ticket.updated.Some?
    requires c.control.todo[0].id == ticket.id ==> c.control.todo[0] == ticket
    ensures RunOn(c, cy) == RunOn(next, cy)
    ensures next.control.Reading? && next.control.todo == c.control.todo[1..]
    ensures ticket.id in next.db.tickets <==> ticket.id in c.db.tickets
    ensures ticket.id in c.db.tickets ==>
              && next.db.tickets[ticket.id].observing == c.db.tickets[ticket.id].observing
              && next.db.tickets[ticket.id].status
                 == if c.control.todo[0] == ticket then ticket.status else c.db.tickets[ticket.id].status
    ensures var key := StatusKey(ticket.id, ticket.updated.value);
            var here := ticket.id in c.db.tickets && c.db.tickets[ticket.id].observing
              && c.control.todo[0] == ticket && c.db.tickets[ticket.id].status != ticket.status;
            && (Known(next, key) <==> Known(c, key) || here)
            && Times(next.jobs, TicketClosed(ticket.id))
                 == Times(c.jobs, TicketClosed(ticket.id)) + If(!Known(c, key) && here && ClosedJob(ticket).Some?)
  {
    var t := c.control.todo[0];
    next := MicroStep(c, cy);
    if t.id in c.db.tickets && c.db.tickets[t.id].observing {
      ItemsOfStatus(t, c.db.tickets[t.id].status, c.control.newIds, cy.eventsFrom, ticket);
      VisitThenRun(next, cy);
      Visited(next, cy, StatusKey(ticket.id, ticket.updated.value), TicketClosed(ticket.id), ClosedJob(ticket));
      next := VisitEnd(next, cy);
    }
  }

  /** The second phase, for one ticket's status. */
  lemma {:induction false} ReadStatus(c: Core, cy: Cycle, ticket: Ticket)
    requires c.control.Reading? && ticket.updated.Some?
    requires forall t :: t in c.control.todo && t.id == ticket.id ==> t == ticket
    ensures var after, key := RunOn(c, cy), StatusKey(ticket.id, ticket.updated.value);
            var seen := ticket.id in c.db.tickets && c.db.tickets[ticket.id].observing
              && ticket in c.control.todo && c.db.tickets[ticket.id].status != ticket.status;
            && (Known(after, key) <==> Known(c, key) || seen)
            && Times(after.jobs, TicketClosed(ticket.id))
                 == Times(c.jobs, TicketClosed(ticket.id)) + If(!Known(c, key) && seen && ClosedJob(ticket).Some?)
    decreases |c.control.todo|
  {
    if c.control.todo == [] {
      assert RunOn(c, cy) == RunOn(MicroStep(c, cy), cy) == MicroStep(c, cy);
    } else {
      assert c.control.todo[0] in c.control.todo;
      assert ticket in c.control.todo <==> c.control.todo[0] == ticket || ticket in c.control.todo[1..];
      var next := ReadOneStatus(c, cy, ticket);
      ReadStatus(next, cy, ticket);
    }
  }

  lemma NoInitialItem(t: Ticket, stored: Status, newIds: set<int>, from: int, ticket: int)
    ensures Announces(Items(t, stored, newIds, from), CommentKey(t.id + 1, 0), InitialReply(ticket), None)
  {
    CommentItemsFit(t, t.comments, newIds, from);
    var items, status := Items(t, stored, newIds, from), StatusItems(t, stored);
    var mine := CommentItems(t, t.comments, newIds, from);
    assert forall k :: 0 <= k < |items| ==> items[k] == if k < |status| then status[k] else mine[k - |status|];
  }

  /** The second phase publishes no initial replies. */
  lemma {:induction false} ReadInitial(c: Core, cy: Cycle, ticket: int)
    requires c.control.Reading?
    ensures Times(RunOn(c, cy).jobs, InitialReply(ticket)) == Times(c.jobs, InitialReply(ticket))
    decreases |c.control.todo|
  {
    var next := MicroStep(c, cy);
    if c.control.todo == [] {
      assert RunOn(c, cy) == RunOn(next, cy) == next;
    } else {
      var t := c.control.todo[0];
      if t.id in c.db.tickets && c.db.tickets[t.id].observing {
        NoInitialItem(t, c.db.tickets[t.id].status, c.control.newIds, cy.eventsFrom, ticket);
        VisitThenRun(next, cy);
        Visited(next, cy, CommentKey(t.id + 1, 0), InitialReply(ticket), None);
        next := VisitEnd(next, cy);
      }
      ReadInitial(next, cy, ticket);
    }
  }

  /* ---------- A whole cycle ---------- */

  /** What `PollOnce` leaves to commit, and what an undisturbed cycle of the machine comes to. */
  function Polled(c: Core, snapshot: seq<Ticket>, brand: int, clock: int, at: int): Core {
    var cy := CycleOf(c.db, snapshot, brand, clock, at);
    RunOn(Begun(c, cy), cy)
  }

  /** The ticket is in the snapshot as new or open, of the brand, and updated since the tickets checkpoint. */
  ghost predicate ActiveSince(c: Core, snapshot: seq<Ticket>, brand: int, clock: int, id: int) {
    var from := if c.db.ticketsCp.Some? then c.db.ticketsCp.value else clock - 300;
    exists t :: t in snapshot && t.id == id && t.brand == brand && (t.status == New || t.status == Open)
      && t.updated.Some? && from <= t.updated.value
  }

  lemma ActiveIsSelected(c: Core, snapshot: seq<Ticket>, brand: int, clock: int, at: int, id: int)
    ensures Has(Selected(snapshot, brand, CycleOf(c.db, snapshot, brand, clock, at).ticketsFrom, ACTIVE), id)
       <==> ActiveSince(c, snapshot, brand, clock, id)
  {
    var cy := CycleOf(c.db, snapshot, brand, clock, at);
    if ActiveSince(c, snapshot, brand, clock, id) {
      var t :| t in snapshot && t.id == id && t.brand == brand && (t.status == New || t.status == Open)
        && t.updated.Some? && cy.ticketsFrom <= t.updated.value;
      assert t in Selected(cy.snapshot, cy.brand, cy.ticketsFrom, ACTIVE);
    }
  }

  /** The state between the two phases, for one ticket id. */
  lemma Between(c: Core, snapshot: seq<Ticket>, brand: int, clock: int, at: int, id: int, job: Job) returns (mid: Core)
    requires job.ticket == id
    ensures var cy := CycleOf(c.db, snapshot, brand, clock, at);
            && Polled(c, snapshot, brand, clock, at) == RunOn(mid, cy)
            && mid.control.Reading? && mid.control.todo == Selected(snapshot, brand, cy.eventsFrom, ALL)
    ensures var isNew := id !in c.db.tickets && ActiveSince(c, snapshot, brand, clock, id);
            && mid.tx.events == map[] && mid.db.events == c.db.events
            && (id in mid.control.newIds <==> isNew)
            && (id in mid.db.tickets <==> id in c.db.tickets || isNew)
            && (id in mid.db.tickets ==> mid.db.tickets[id].observing == (isNew || c.db.tickets[id].observing))
            && (id in c.db.tickets && !ActiveSince(c, snapshot, brand, clock, id) ==>
                  mid.db.tickets[id] == c.db.tickets[id])
            && Times(mid.jobs, job) == Times(c.jobs, job) + If(job.InitialReply? && isNew)
  {
    var cy := CycleOf(c.db, snapshot, brand, clock, at);
    mid := ScanEnd(Begun(c, cy), cy);
    ScanThenRun(Begun(c, cy), cy);
    Scanned(Begun(c, cy), cy, id, job);
    ActiveIsSelected(c, snapshot, brand, clock, at, id);
  }

  /** A cycle publishes one initial reply for each active ticket that was not stored before, and no other. */
  lemma InitialReplies(c: Core, snapshot: seq<Ticket>, brand: int, clock: int, at: int, id: int)
    ensures var from := if c.db.ticketsCp.Some? then c.db.ticketsCp.value else clock - 300;
            Times(Polled(c, snapshot, brand, clock, at).jobs, InitialReply(id))
              == Times(c.jobs, InitialReply(id))
                 + if id !in c.db.tickets
                      && exists t :: t in snapshot && t.id == id && t.brand == brand
                           && (t.status == New || t.status == Open) && t.updated.Some? && from <= t.updated.value
                   then 1 else 0
  {
    var mid := Between(c, snapshot, brand, clock, at, id, InitialReply(id));
    ReadInitial(mid, CycleOf(c.db, snapshot, brand, clock, at), id);
  }

  /**
    The comment is in the snapshot on that ticket of the brand, not deleted and updated since the events checkpoint,
    and was made after that checkpoint.
   */
  ghost predicate CommentedSince(c: Core, snapshot: seq<Ticket>, brand: int, clock: int, ticket: int,
      comment: Comment)
  {
    var from := if c.db.eventsCp.Some? then c.db.eventsCp.value else clock - 300;
    exists t :: t in snapshot && t.id == ticket && t.brand == brand && t.status != Deleted
      && t.updated.Some? && from <= t.updated.value && comment in t.comments && from < comment.created
  }

  lemma CommentedIsDue(c: Core, snapshot: seq<Ticket>, brand: int, clock: int, at: int, ticket: int, comment: Comment)
    ensures var from := CycleOf(c.db, snapshot, brand, clock, at).eventsFrom;
            (Due(Selected(snapshot, brand, from, ALL), ticket, comment, from)
             <==> CommentedSince(c, snapshot, brand, clock, ticket, comment))
  {
    var cy := CycleOf(c.db, snapshot, brand, clock, at);
    if CommentedSince(c, snapshot, brand, clock, ticket, comment) {
      var t :| t in snapshot && t.id == ticket && t.brand == brand && t.status != Deleted
        && t.updated.Some? && cy.eventsFrom <= t.updated.value && comment in t.comments
        && cy.eventsFrom < comment.created;
      assert t in Selected(snapshot, brand, cy.eventsFrom, ALL);
    }
  }

  /**
    For a comment that the snapshot does not contradict: its event is stored if it is made since the checkpoint on a
    ticket that is observed or new. A follow-up is published exactly for a customer's public comment on a ticket stored
    and observed before, a directive exactly for an agent's private comment to the robot; each once, and only if the
    event was unknown.
   */
  lemma CommentJobs(c: Core, snapshot: seq<Ticket>, brand: int, clock: int, at: int, ticket: int, comment: Comment)
    requires forall t, d :: t in snapshot && t.id == ticket && d in t.comments && d.id == comment.id ==> d == comment
    ensures var after, key := Polled(c, snapshot, brand, clock, at), CommentKey(ticket, comment.id);
            var stored := ticket in c.db.tickets && c.db.tickets[ticket].observing;
            var isNew := ticket !in c.db.tickets && ActiveSince(c, snapshot, brand, clock, ticket);
            var unseen := CommentedSince(c, snapshot, brand, clock, ticket, comment) && key !in c.db.events;
            && (key in after.db.events || key in after.tx.events
                <==> key in c.db.events || (unseen && (stored || isNew)))
            && Times(after.jobs, FollowupReply(ticket, comment.id))
                 == Times(c.jobs, FollowupReply(ticket, comment.id))
                    + (if unseen && stored && comment.public && comment.author == User then 1 else 0)
            && Times(after.jobs, AgentDirective(ticket, comment.id))
                 == Times(c.jobs, AgentDirective(ticket, comment.id))
                    + (if unseen && (stored || isNew) && !comment.public && comment.robot && comment.author == Agent
                       then 1 else 0)
  {
    CommentJob(c, snapshot, brand, clock, at, ticket, comment, FollowupReply(ticket, comment.id));
    CommentJob(c, snapshot, brand, clock, at, ticket, comment, AgentDirective(ticket, comment.id));
  }

  lemma CommentJob(c: Core, snapshot: seq<Ticket>, brand: int, clock: int, at: int, ticket: int, comment: Comment,
        job: Job)
    requires Agrees(snapshot, ticket, comment) && AsksFor(job, ticket, comment.id)
    ensures var after, key := Polled(c, snapshot, brand, clock, at), CommentKey(ticket, comment.id);
            var stored := ticket in c.db.tickets && c.db.tickets[ticket].observing;
            var isNew := ticket !in c.db.tickets && ActiveSince(c, snapshot, brand, clock, ticket);
            var seen := CommentedSince(c, snapshot, brand, clock, ticket, comment) && (stored || isNew);
            && (Known(after, key) <==> key in c.db.events || seen)
            && Times(after.jobs, job)
                 == Times(c.jobs, job) + If(key !in c.db.events && seen && Asked(ticket, comment, isNew) == Some(job))
  {
    var cy := CycleOf(c.db, snapshot, brand, clock, at);
    var mid := Between(c, snapshot, brand, clock, at, ticket, job);
    CommentedIsDue(c, snapshot, brand, clock, at, ticket, comment);
    assert Agrees(mid.control.todo, ticket, comment);
    ReadComments(mid, cy, ticket, comment, job);
  }

  /**
    A ticket that the snapshot shows in one state only: a cycle publishes its closing, once, exactly if it is now solved
    or closed, stored with another status, observed, updated since the events checkpoint, and the change was unknown.
   */
  lemma ClosedJobs(c: Core, snapshot: seq<Ticket>, brand: int, clock: int, at: int, t: Ticket)
    requires t in snapshot && t.updated.Some? && forall u :: u in snapshot && u.id == t.id ==> u == t
    ensures var after := Polled(c, snapshot, brand, clock, at);
            var from := if c.db.eventsCp.Some? then c.db.eventsCp.value else clock - 300;
            Times(after.jobs, TicketClosed(t.id))
              == Times(c.jobs, TicketClosed(t.id))
                 + if && (t.status == Solved || t.status == Closed) && t.brand == brand && from <= t.updated.value
                      && t.id in c.db.tickets && c.db.tickets[t.id].observing && c.db.tickets[t.id].status != t.status
                      && StatusKey(t.id, t.updated.value) !in c.db.events
                   then 1 else 0
  {
    var cy := CycleOf(c.db, snapshot, brand, clock, at);
    var mid := Between(c, snapshot, brand, clock, at, t.id, TicketClosed(t.id));
    ReadStatus(mid, cy, t);
  }
}
