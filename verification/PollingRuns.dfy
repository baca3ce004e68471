/** Runs of the poller: cycles that commit or roll back, with other writers in between every two statements. */
module PollingRuns {
  import opened Poller
  import opened Wrappers

  /**
    `rollbacks` counts aborted cycles; `last`, `lastAt` and `since` are history: the snapshot and clock of the last
    committed cycle and the events point the first committed cycle read from; `others` are the event keys other
    processes inserted.
   */
  datatype State = State(
    brand: int,
    core: Core,
    cycle: Cycle,
    rollbacks: nat,
    last: seq<Ticket>,
    lastAt: int,
    since: Option<int>,
    others: set<EventKey>)

  function Initial(brand: int): State {
    State(brand, Core(Db(map[], map[], None, None), NO_WRITES, [], Idle), Cycle([], brand, 0, 0, 0), 0, [], 0, None, {})
  }

  datatype Event =
    | Start(snapshot: seq<Ticket>, clock: int, at: int)
    | Step
    | Commit
    | Abort
    | InsertEvent(key: EventKey, created: int)
    | WorkerUpsert(ticket: int, status: Status)
    | SetObserving(ticket: int, observing: bool)

  predicate Enabled(s: State, e: Event) {
    match e
    case Start(_, _, _) => s.core.control.Idle?
    case Step => true
    case Commit => s.core.control.Finished?
    case Abort => !s.core.control.Idle?
    case InsertEvent(key, _) => key.ticket in s.core.db.tickets && key !in s.core.tx.events
    case WorkerUpsert(_, _) => true
    case SetObserving(ticket, _) => ticket in s.core.db.tickets
  }

  function Merged(db: Db, tx: Tx): Db {
    db.(events := db.events + tx.events,
        ticketsCp := if tx.ticketsCp.Some? then tx.ticketsCp else db.ticketsCp,
        eventsCp := if tx.eventsCp.Some? then tx.eventsCp else db.eventsCp)
  }

  function Apply(s: State, e: Event): State {
    if !Enabled(s, e) then s else
    match e
    case Start(snapshot, clock, at) =>
      var cycle := CycleOf(s.core.db, snapshot, s.brand, clock, at);
      s.(cycle := cycle, core := Begun(s.core, cycle))
    case Step => s.(core := MicroStep(s.core, s.cycle))
    case Commit =>
      s.(core := s.core.(db := Merged(s.core.db, s.core.tx), tx := NO_WRITES, control := Idle),
         last := s.cycle.snapshot, lastAt := s.cycle.at,
         since := if s.since.None? then Some(s.cycle.eventsFrom) else s.since)
    case Abort => s.(core := s.core.(tx := NO_WRITES, control := Idle), rollbacks := s.rollbacks + 1)
    case InsertEvent(key, created) =>
      var events := if key in s.core.db.events then s.core.db.events else s.core.db.events[key := created];
      s.(core := s.core.(db := s.core.db.(events := events)),
         others := s.others + {key})
    case WorkerUpsert(ticket, status) => s.(core := s.core.(db := Upsert(s.core.db, ticket, status, false)))
    case SetObserving(ticket, observing) =>
      s.(core := s.core.(db :=
          s.core.db.(tickets := s.core.db.tickets[ticket := s.core.db.tickets[ticket].(observing := observing)])))
  }

  function Exec(s: State, es: seq<Event>): State
    decreases |es|
  {
    if es == [] then s else Exec(Apply(s, es[0]), es[1..])
  }

  /** A cycle that nobody disturbs: the steps to its end are the run the poller's own loops compute. */
  lemma {:induction false} UndisturbedCycle(s: State, c: Core, cy: Cycle) returns (n: nat)
    requires s.core == c && s.cycle == cy
    ensures Exec(s, seq(n, _ => Step)).core == RunOn(c, cy)
    decreases Phase(c.control), Ahead(c.control), Left(c.control)
  {
    if c.control.Idle? || c.control.Finished? {
      n := 0;
    } else {
      var m := UndisturbedCycle(Apply(s, Step), MicroStep(c, cy), cy);
      n := m + 1;
      assert seq(n, _ => Step)[1..] == seq(m, _ => Step) && seq(n, _ => Step)[0] == Step;
    }
  }

  /** From its start on, it is the run that the poller's `PollOnce` computes. */
  lemma UndisturbedPoll(s: State, snapshot: seq<Ticket>, clock: int, at: int) returns (n: nat)
    requires s.core.control.Idle?
    ensures var cy := CycleOf(s.core.db, snapshot, s.brand, clock, at);
            Exec(s, [Start(snapshot, clock, at)] + seq(n, _ => Step)).core == RunOn(Begun(s.core, cy), cy)
  {
    var start := Start(snapshot, clock, at);
    var begun := Apply(s, start);
    n := UndisturbedCycle(begun, begun.core, begun.cycle);
    assert ([start] + seq(n, _ => Step))[1..] == seq(n, _ => Step);
  }

  /* ---------- Published jobs ---------- */

  function Times(jobs: seq<Job>, job: Job): nat {
    multiset(jobs)[job]
  }

  /** A comment job goes with the event of that comment. */
  predicate JobOf(job: Job, key: EventKey) {
    match job
    case FollowupReply(t, c) => key == CommentKey(t, c)
    case AgentDirective(t, c) => key == CommentKey(t, c)
    case TicketClosed(t) => key.StatusKey? && key.ticket == t
    case InitialReply(_) => false
  }

  ghost predicate ItemFits(item: Item, ticket: int) {
    item.key.ticket == ticket && (item.job.Some? ==> item.job.value.ticket == ticket && JobOf(item.job.value, item.key))
  }

  ghost predicate ControlFits(c: Core) {
    && (c.control.Idle? ==> c.tx == NO_WRITES)
    && (c.control.Scanning? && c.control.pending.Some? ==> c.control.pending.value in c.db.tickets)
    && (c.control.Handling? ==>
          && c.control.ticket.id in c.db.tickets
          && (forall k :: 0 <= k < |c.control.items| ==> ItemFits(c.control.items[k], c.control.ticket.id))
          && (c.control.stage.Announce? ==>
                c.control.items != [] && c.control.items[0].job == Some(c.control.stage.job) &&
                    Known(c, c.control.items[0].key)))
  }

  ghost predicate AllStored(c: Core) {
    forall k :: 0 <= k < |c.jobs| ==> c.jobs[k].ticket in c.db.tickets
  }

  function Pending(c: Core, job: Job): nat {
    match c.control
    case Scanning(_, _, _, pending) => if pending.Some? && job == InitialReply(pending.value) then 1 else 0
    case Handling(_, _, _, _, _, Announce(j)) => if j == job then 1 else 0
    case _ => 0
  }

  ghost predicate InitialBound(c: Core, ticket: int) {
    Times(c.jobs, InitialReply(ticket)) + Pending(c, InitialReply(ticket)) <= if ticket in c.db.tickets then 1 else 0
  }

  ghost predicate CommentBound(c: Core, rollbacks: nat, job: Job, key: EventKey) {
    Times(c.jobs, job) + Pending(c, job) <= rollbacks + if Known(c, key) then 1 else 0
  }

  lemma {:induction false} CommentItemsFit(t: Ticket, comments: seq<Comment>, newIds: set<int>, from: int)
    ensures forall k :: 0 <= k < |CommentItems(t, comments, newIds, from)| ==>
          ItemFits(CommentItems(t, comments, newIds, from)[k], t.id)
  {
    if comments != [] {
      CommentItemsFit(t, comments[1..], newIds, from);
    }
  }

  lemma MicroFits(c: Core, cy: Cycle)
    requires ControlFits(c) && AllStored(c)
    ensures ControlFits(MicroStep(c, cy)) && AllStored(MicroStep(c, cy))
  {
    if c.control.Reading? && c.control.todo != [] {
      CommentItemsFit(c.control.todo[0], c.control.todo[0].comments, c.control.newIds, cy.eventsFrom);
    }
  }

  lemma MicroInitial(c: Core, cy: Cycle, ticket: int)
    requires ControlFits(c) && InitialBound(c, ticket)
    ensures InitialBound(MicroStep(c, cy), ticket)
  {
  }

  lemma MicroComment(c: Core, cy: Cycle, rollbacks: nat, job: Job, key: EventKey)
    requires ControlFits(c) && CommentBound(c, rollbacks, job, key)
    requires key.CommentKey? && JobOf(job, key)
    ensures CommentBound(MicroStep(c, cy), rollbacks, job, key)
  {
    if c.control.Handling? && c.control.items != [] && c.control.items[0].job == Some(job) {
      assert ItemFits(c.control.items[0], c.control.ticket.id);
      assert c.control.items[0].key == key;
    }
  }

  ghost predicate Fits(s: State) {
    ControlFits(s.core) && AllStored(s.core)
  }

  lemma StepFits(s: State, e: Event)
    requires Fits(s)
    ensures Fits(Apply(s, e))
  {
    if e.Step? {
      MicroFits(s.core, s.cycle);
    }
  }

  lemma StepInitial(s: State, e: Event, ticket: int)
    requires Fits(s) && InitialBound(s.core, ticket)
    ensures InitialBound(Apply(s, e).core, ticket)
  {
    if e.Step? {
      MicroInitial(s.core, s.cycle, ticket);
    }
  }

  lemma StepComment(s: State, e: Event, job: Job, key: EventKey)
    requires Fits(s) && CommentBound(s.core, s.rollbacks, job, key)
    requires key.CommentKey? && JobOf(job, key)
    ensures CommentBound(Apply(s, e).core, Apply(s, e).rollbacks, job, key)
  {
    if e.Step? {
      MicroComment(s.core, s.cycle, s.rollbacks, job, key);
    }
  }

  lemma {:induction false} RunBounds(s: State, es: seq<Event>, ticket: int, job: Job, key: EventKey)
    requires Fits(s) && InitialBound(s.core, ticket) && CommentBound(s.core, s.rollbacks, job, key)
    requires key.CommentKey? && JobOf(job, key)
    ensures var after := Exec(s, es);
            Fits(after) && InitialBound(after.core, ticket) && CommentBound(after.core, after.rollbacks, job, key)
    decreases |es|
  {
    if es != [] {
      StepFits(s, es[0]);
      StepInitial(s, es[0], ticket);
      StepComment(s, es[0], job, key);
      RunBounds(Apply(s, es[0]), es[1..], ticket, job, key);
    }
  }

  ghost predicate Reachable(s: State) {
    exists es :: s == Exec(Initial(s.brand), es)
  }

  /** Over any commits and rollbacks: one initial reply per ticket, and one job per comment and rolled-back cycle. */
  lemma PublishCounts(s: State, ticket: int, comment: int)
    requires Reachable(s)
    ensures Times(s.core.jobs, InitialReply(ticket)) <= 1
    ensures Times(s.core.jobs, FollowupReply(ticket, comment)) <= 1 + s.rollbacks
    ensures Times(s.core.jobs, AgentDirective(ticket, comment)) <= 1 + s.rollbacks
  {
    var es :| s == Exec(Initial(s.brand), es);
    RunBounds(Initial(s.brand), es, ticket, FollowupReply(ticket, comment), CommentKey(ticket, comment));
    RunBounds(Initial(s.brand), es, ticket, AgentDirective(ticket, comment), CommentKey(ticket, comment));
  }

  /** Every published job names a ticket whose row is already committed. */
  lemma JobsNameStoredTickets(s: State, job: Job)
    requires Reachable(s) && job in s.core.jobs
    ensures job.ticket in s.core.db.tickets
  {
    var es :| s == Exec(Initial(s.brand), es);
    RunBounds(Initial(s.brand), es, 0, FollowupReply(0, 0), CommentKey(0, 0));
  }

  /* ---------- Tickets that are not observed ---------- */

  ghost predicate Away(c: Core, ticket: int) {
    && (c.control.Scanning? ==> c.control.pending != Some(ticket))
    && (c.control.Handling? ==> c.control.ticket.id != ticket)
  }

  /** The ticket is stored and not observed, and the poller is not in the middle of a visit to it. */
  ghost predicate Unobserved(s: State, ticket: int) {
    && ticket in s.core.db.tickets && !s.core.db.tickets[ticket].observing
    && Away(s.core, ticket)
  }

  ghost predicate NothingNew(before: Core, after: Core, ticket: int) {
    && (forall job: Job :: job.ticket == ticket ==> Times(after.jobs, job) == Times(before.jobs, job))
    && (forall key: EventKey :: key in after.tx.events && key.ticket == ticket ==> key in before.tx.events)
  }

  lemma MicroUnobserved(c: Core, cy: Cycle, ticket: int)
    requires ControlFits(c) && Away(c, ticket)
    requires ticket in c.db.tickets && !c.db.tickets[ticket].observing
    ensures var after := MicroStep(c, cy);
            && Away(after, ticket) && NothingNew(c, after, ticket)
            && ticket in after.db.tickets && !after.db.tickets[ticket].observing
  {
    if c.control.Handling? && c.control.items != [] {
      assert ItemFits(c.control.items[0], c.control.ticket.id);
    }
  }

  lemma StepUnobserved(s: State, e: Event, ticket: int)
    requires Fits(s) && Unobserved(s, ticket) && e != SetObserving(ticket, true)
    ensures Unobserved(Apply(s, e), ticket) && NothingNew(s.core, Apply(s, e).core, ticket)
  {
    if e.Step? {
      MicroUnobserved(s.core, s.cycle, ticket);
    }
  }

  /** Not observing is sticky: until it is set again, no later visit publishes or inserts anything for the ticket. */
  lemma {:induction false} ObservingSticky(s: State, es: seq<Event>, ticket: int)
    requires Fits(s) && Unobserved(s, ticket) && SetObserving(ticket, true) !in es
    ensures Unobserved(Exec(s, es), ticket) && NothingNew(s.core, Exec(s, es).core, ticket)
    decreases |es|
  {
    if es != [] {
      StepFits(s, es[0]);
      StepUnobserved(s, es[0], ticket);
      ObservingSticky(Apply(s, es[0]), es[1..], ticket);
    }
  }

  /* ---------- Checkpoints ---------- */

  ghost predicate NotBefore(before: Option<int>, after: Option<int>) {
    before.Some? ==> after.Some? && before.value <= after.value
  }

  /** The running cycle reads from the committed checkpoints and has moved neither back. */
  ghost predicate Advancing(c: Core, cy: Cycle) {
    c.control.Idle? ||
    (&& (c.db.ticketsCp.Some? ==> cy.ticketsFrom == c.db.ticketsCp.value)
     && (c.db.eventsCp.Some? ==> cy.eventsFrom == c.db.eventsCp.value)
     && (c.control.Scanning? ==> cy.ticketsFrom <= c.control.seen)
     && (!c.control.Scanning? ==> c.tx.ticketsCp.Some? && cy.ticketsFrom <= c.tx.ticketsCp.value)
     && (c.control.Reading? || c.control.Handling? ==> cy.eventsFrom <= c.control.seen)
     && (c.control.Finished? ==> c.tx.eventsCp.Some? && cy.eventsFrom <= c.tx.eventsCp.value))
  }

  lemma CheckpointStep(s: State, e: Event)
    requires Advancing(s.core, s.cycle)
    ensures Advancing(Apply(s, e).core, Apply(s, e).cycle)
    ensures NotBefore(s.core.db.ticketsCp, Apply(s, e).core.db.ticketsCp)
    ensures NotBefore(s.core.db.eventsCp, Apply(s, e).core.db.eventsCp)
  {
  }

  /** Neither committed checkpoint ever moves back, whatever Zendesk returns and whatever fails. */
  lemma {:induction false} CheckpointsNeverDecrease(s: State, es: seq<Event>)
    requires Advancing(s.core, s.cycle)
    ensures Advancing(Exec(s, es).core, Exec(s, es).cycle)
    ensures NotBefore(s.core.db.ticketsCp, Exec(s, es).core.db.ticketsCp)
    ensures NotBefore(s.core.db.eventsCp, Exec(s, es).core.db.eventsCp)
    decreases |es|
  {
    if es != [] {
      CheckpointStep(s, es[0]);
      CheckpointsNeverDecrease(Apply(s, es[0]), es[1..]);
    }
  }
}
