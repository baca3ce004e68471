/**
  The polling cycle: ticket rows commit on their own, events and checkpoints at the end, published jobs are never
  undone.
 */
module Poller {
  import opened Wrappers

  datatype Status = New | Open | Pending | Hold | Solved | Closed | Deleted

  const ACTIVE: set<Status> := {New, Open}
  const ALL: set<Status> := {New, Open, Pending, Hold, Solved, Closed}

  datatype Role = User | Agent | Unknown

  datatype Comment = Comment(id: int, created: int, public: bool, robot: bool, author: Role)

  datatype Ticket = Ticket(id: int, brand: int, status: Status, updated: Option<int>, comments: seq<Comment>)

  datatype EventKey = StatusKey(ticket: int, at: int) | CommentKey(ticket: int, comment: int)

  datatype Job =
    | InitialReply(ticket: int)
    | FollowupReply(ticket: int, comment: int)
    | AgentDirective(ticket: int, comment: int)
    | TicketClosed(ticket: int)

  datatype Row = Row(status: Status, observing: bool)

  /** Committed tables. */
  datatype Db = Db(tickets: map<int, Row>, events: map<EventKey, int>, ticketsCp: Option<int>, eventsCp: Option<int>)

  /** Writes of the open cycle transaction. */
  datatype Tx = Tx(events: map<EventKey, int>, ticketsCp: Option<int>, eventsCp: Option<int>)

  const NO_WRITES: Tx := Tx(map[], None, None)

  /** A status change or a comment of the visited ticket. */
  datatype Item = Item(key: EventKey, created: int, job: Option<Job>)

  datatype Stage = Insert | Announce(job: Job) | Refresh

  datatype Control =
    | Idle
    | Scanning(todo: seq<Ticket>, newIds: set<int>, seen: int, pending: Option<int>)
    | Reading(todo: seq<Ticket>, newIds: set<int>, seen: int)
    | Handling(todo: seq<Ticket>, newIds: set<int>, seen: int, ticket: Ticket, items: seq<Item>, stage: Stage)
    | Finished

  /** What the poller works on: tables, its open transaction, the jobs published so far, and where it is. */
  datatype Core = Core(db: Db, tx: Tx, jobs: seq<Job>, control: Control)

  /** The inputs of one cycle: what Zendesk returns, when it was taken, and the two points the cycle reads from. */
  datatype Cycle = Cycle(snapshot: seq<Ticket>, brand: int, at: int, ticketsFrom: int, eventsFrom: int)

  const BACKSHIFT_SECONDS: int := 5 * 60

  /* ---------- One cycle ---------- */

  function Max(a: int, b: int): int {
    if a < b then b else a
  }

  /** The client's filter on the ticket stream. */
  predicate Selects(t: Ticket, brand: int, after: int, statuses: set<Status>) {
    t.brand == brand && t.status in statuses && t.updated.Some? && after <= t.updated.value
  }

  function Selected(tickets: seq<Ticket>, brand: int, after: int, statuses: set<Status>): (r: seq<Ticket>)
    ensures forall t :: t in r <==> t in tickets && Selects(t, brand, after, statuses)
  {
    if tickets == [] then []
    else
      var rest := Selected(tickets[1..], brand, after, statuses);
      if Selects(tickets[0], brand, after, statuses) then [tickets[0]] + rest else rest
  }

  /** Inserts or updates a ticket row; observing never goes from false to true. */
  function Upsert(db: Db, ticket: int, status: Status, observing: bool): Db {
    var kept := ticket in db.tickets && !db.tickets[ticket].observing;
    db.(tickets := db.tickets[ticket := Row(status, observing && !kept)])
  }

  function Known(c: Core, key: EventKey): bool {
    key in c.db.events || key in c.tx.events
  }

  function StatusJob(t: Ticket): Option<Job> {
    if t.status in {Solved, Closed} then Some(TicketClosed(t.id)) else None
  }

  /**
    The job of a new comment; a customer's comment on a ticket first seen in this cycle is left to its initial reply.
   */
  function CommentJob(t: Ticket, c: Comment, newIds: set<int>): Option<Job> {
    if c.public && c.author == User then if t.id in newIds then None else Some(FollowupReply(t.id, c.id))
    else if !c.public && c.robot && c.author == Agent then Some(AgentDirective(t.id, c.id))
    else None
  }

  function CommentItems(t: Ticket, comments: seq<Comment>, newIds: set<int>, from: int): seq<Item> {
    if comments == [] then []
    else
      var c, rest := comments[0], CommentItems(t, comments[1..], newIds, from);
      if c.created <= from then rest else [Item(CommentKey(t.id, c.id), c.created, CommentJob(t, c, newIds))] + rest
  }

  function StatusItems(t: Ticket, stored: Status): seq<Item> {
    if t.status == stored || t.updated.None? then []
    else [Item(StatusKey(t.id, t.updated.value), t.updated.value, StatusJob(t))]
  }

  function Items(t: Ticket, stored: Status, newIds: set<int>, from: int): seq<Item> {
    StatusItems(t, stored) + CommentItems(t, t.comments, newIds, from)
  }

  function OrElse(stored: Option<int>, default: int): int {
    if stored.Some? then stored.value else default
  }

  /** The points a cycle reads from: the checkpoints, or for a missing one some minutes before the poller's clock. */
  function CycleOf(db: Db, snapshot: seq<Ticket>, brand: int, clock: int, at: int): Cycle {
    Cycle(snapshot, brand, at, OrElse(db.ticketsCp, clock - BACKSHIFT_SECONDS),
        OrElse(db.eventsCp, clock - BACKSHIFT_SECONDS))
  }

  /** The cycle has read both checkpoints and written the ones that were missing. */
  function Begun(c: Core, cy: Cycle): Core {
    var tx := Tx(map[],
                 if c.db.ticketsCp.None? then Some(cy.ticketsFrom) else None,
                 if c.db.eventsCp.None? then Some(cy.eventsFrom) else None);
    c.(tx := tx, control := Scanning(Selected(cy.snapshot, cy.brand, cy.ticketsFrom, ACTIVE), {}, cy.ticketsFrom, None))
  }

  /** The next database statement or publish call of the running cycle. */
  function MicroStep(c: Core, cy: Cycle): Core {
    match c.control
    case Idle => c
    case Finished => c
    case Scanning(todo, newIds, seen, pending) =>
      if pending.Some? then
        c.(jobs := c.jobs + [InitialReply(pending.value)], control := Scanning(todo, newIds, seen, None))
      else if todo == [] then
        c.(tx := c.tx.(ticketsCp := Some(seen)),
           control := Reading(Selected(cy.snapshot, cy.brand, cy.eventsFrom, ALL), newIds, cy.eventsFrom))
      else
        var t := todo[0];
        var isNew := t.id !in c.db.tickets;
        c.(db := Upsert(c.db, t.id, t.status, true),
           control := Scanning(todo[1..], if isNew then newIds + {t.id} else newIds,
                               if t.updated.Some? then Max(seen, t.updated.value) else seen,
                               if isNew then Some(t.id) else None))
    case Reading(todo, newIds, seen) =>
      if todo == [] then c.(tx := c.tx.(eventsCp := Some(seen)), control := Finished)
      else
        var t := todo[0];
        if t.id !in c.db.tickets then c.(control := Reading(todo[1..], newIds, seen))
        else if !c.db.tickets[t.id].observing then
          c.(db := Upsert(c.db, t.id, t.status, true), control := Reading(todo[1..], newIds, seen))
        else
          c.(control := Handling(todo[1..], newIds, seen, t,
              Items(t, c.db.tickets[t.id].status, newIds, cy.eventsFrom), Insert))
    case Handling(todo, newIds, seen, t, items, stage) =>
      if items == [] then c.(control := Reading(todo, newIds, seen))
      else
        match stage
        case Insert =>
          if Known(c, items[0].key) then c.(control := c.control.(stage := Refresh))
          else
            c.(tx := c.tx.(events := c.tx.events[items[0].key := items[0].created]),
               control := c.control.(stage := if items[0].job.Some? then Announce(items[0].job.value) else Refresh))
        case Announce(job) => c.(jobs := c.jobs + [job], control := c.control.(stage := Refresh))
        case Refresh =>
          c.(db := Upsert(c.db, t.id, t.status, true),
             control := Handling(todo, newIds, Max(items[0].created, seen), t, items[1..], Insert))
  }

  function Phase(c: Control): nat {
    match c
    case Scanning(_, _, _, _) => 2
    case Reading(_, _, _) => 1
    case Handling(_, _, _, _, _, _) => 1
    case _ => 0
  }

  function Ahead(c: Control): nat {
    match c
    case Scanning(todo, _, _, _) => |todo|
    case Reading(todo, _, _) => 2 * |todo|
    case Handling(todo, _, _, _, _, _) => 2 * |todo| + 1
    case _ => 0
  }

  function Left(c: Control): nat {
    match c
    case Scanning(_, _, _, pending) => if pending.Some? then 1 else 0
    case Handling(_, _, _, _, items, stage) =>
      3 * |items| + (match stage case Insert => 2 case Announce(_) => 1 case Refresh => 0)
    case _ => 0
  }

  /** The cycle from where it is to its end, when nobody interferes and nothing fails. */
  function RunOn(c: Core, cy: Cycle): Core
    decreases Phase(c.control), Ahead(c.control), Left(c.control)
  {
    if c.control.Idle? || c.control.Finished? then c else RunOn(MicroStep(c, cy), cy)
  }

  /* ---------- The loops of a cycle ---------- */

  class Poller {
    var db: Db
    var tx: Tx
    var jobs: seq<Job>

    function View(control: Control): Core
      reads this
    {
      Core(db, tx, jobs, control)
    }

    method UpsertTicket(t: Ticket) returns (isNew: bool)
      modifies this`db
      ensures isNew <==> t.id !in old(db).tickets
      ensures db == old(db).(tickets := db.tickets) && db.tickets.Keys == old(db).tickets.Keys + {t.id}
      ensures forall id :: id in old(db).tickets && id != t.id ==> db.tickets[id] == old(db).tickets[id]
      ensures db.tickets[t.id].status == t.status
      ensures db.tickets[t.id].observing <==> isNew || old(db).tickets[t.id].observing
      ensures db == Upsert(old(db), t.id, t.status, true)
    {
      isNew := t.id !in db.tickets;
      var row := Row(t.status, true);
      if !isNew {
        if !db.tickets[t.id].observing {
          row := row.(observing := false);
        }
      }
      db := db.(tickets := db.tickets[t.id := row]);
    }

    /** Reads both checkpoints; a missing one is set to some minutes before the poller's clock. */
    method BootstrapIfNeeded(snapshot: seq<Ticket>, brand: int, clock: int, at: int) returns (cy: Cycle)
      modifies this`tx
      ensures cy == CycleOf(db, snapshot, brand, clock, at)
      ensures View(Begun(View(Idle), cy).control) == Begun(View(Idle), cy)
    {
      var ticketsFrom, eventsFrom := clock - BACKSHIFT_SECONDS, clock - BACKSHIFT_SECONDS;
      tx := NO_WRITES;
      if db.ticketsCp.Some? {
        ticketsFrom := db.ticketsCp.value;
      } else {
        tx := tx.(ticketsCp := Some(ticketsFrom));
      }
      if db.eventsCp.Some? {
        eventsFrom := db.eventsCp.value;
      } else {
        tx := tx.(eventsCp := Some(eventsFrom));
      }
      cy := Cycle(snapshot, brand, at, ticketsFrom, eventsFrom);
    }

    method ProcessOpenTickets(cy: Cycle) returns (seen: int, newIds: set<int>)
      modifies this`db, this`jobs
      ensures var tickets := Selected(cy.snapshot, cy.brand, cy.ticketsFrom, ACTIVE);
              RunOn(View(Scanning([], newIds, seen, None)), cy) ==
                  RunOn(old(View(Scanning(tickets, {}, cy.ticketsFrom, None))), cy)
    {
      var tickets := Selected(cy.snapshot, cy.brand, cy.ticketsFrom, ACTIVE);
      seen, newIds := cy.ticketsFrom, {};
      ghost var start := View(Scanning(tickets, newIds, seen, None));
      var i := 0;
      while i < |tickets|
        invariant 0 <= i <= |tickets|
        invariant RunOn(View(Scanning(tickets[i..], newIds, seen, None)), cy) == RunOn(start, cy)
      {
        var t := tickets[i];
        assert tickets[i..][0] == t && tickets[i..][1..] == tickets[i + 1..];
        var isNew := UpsertTicket(t);
        if t.updated.Some? {
          seen := Max(seen, t.updated.value);
        }
        if isNew {
          newIds := newIds + {t.id};
          assert RunOn(View(Scanning(tickets[i + 1..], newIds, seen, Some(t.id))), cy) == RunOn(start, cy);
          jobs := jobs + [InitialReply(t.id)];
        }
        i := i + 1;
      }
      assert tickets[i..] == [];
    }

    method HandleItem(ghost rest: seq<Item>, item: Item, t: Ticket, ghost todo: seq<Ticket>,
          ghost newIds: set<int>, seen: int, ghost cy: Cycle)
      returns (later: int)
      modifies this
      ensures RunOn(View(Handling(todo, newIds, later, t, rest, Insert)), cy)
           == RunOn(old(View(Handling(todo, newIds, seen, t, [item] + rest, Insert))), cy)
    {
      ghost var start := View(Handling(todo, newIds, seen, t, [item] + rest, Insert));
      var inserted := item.key !in db.events && item.key !in tx.events;
      if inserted {
        tx := tx.(events := tx.events[item.key := item.created]);
        if item.job.Some? {
          assert RunOn(View(Handling(todo, newIds, seen, t, [item] + rest, Announce(item.job.value))), cy) ==
              RunOn(start, cy);
          jobs := jobs + [item.job.value];
        }
      }
      assert RunOn(View(Handling(todo, newIds, seen, t, [item] + rest, Refresh)), cy) == RunOn(start, cy);
      assert ([item] + rest)[1..] == rest;
      var isNew := UpsertTicket(t);
      later := Max(item.created, seen);
    }

    method HandleItems(items: seq<Item>, t: Ticket, ghost todo: seq<Ticket>, ghost newIds: set<int>, seen: int,
          ghost cy: Cycle)
      returns (later: int)
      modifies this
      ensures RunOn(View(Reading(todo, newIds, later)), cy) ==
            RunOn(old(View(Handling(todo, newIds, seen, t, items, Insert))), cy)
    {
      later := seen;
      ghost var start := View(Handling(todo, newIds, seen, t, items, Insert));
      var j := 0;
      while j < |items|
        invariant 0 <= j <= |items|
        invariant RunOn(View(Handling(todo, newIds, later, t, items[j..], Insert)), cy) == RunOn(start, cy)
      {
        assert items[j..] == [items[j]] + items[j + 1..];
        later := HandleItem(items[j + 1..], items[j], t, todo, newIds, later, cy);
        j := j + 1;
      }
      assert items[j..] == [];
    }

    /** One ticket of the events phase: unknown tickets are skipped, unobserved ones only refreshed. */
    method VisitTicket(t: Ticket, ghost todo: seq<Ticket>, newIds: set<int>, seen: int, cy: Cycle) returns (later: int)
      modifies this
      ensures RunOn(View(Reading(todo, newIds, later)), cy) == RunOn(old(View(Reading([t] + todo, newIds, seen))), cy)
    {
      assert ([t] + todo)[1..] == todo;
      later := seen;
      if t.id in db.tickets {
        if !db.tickets[t.id].observing {
          var isNew := UpsertTicket(t);
        } else {
          var items := Items(t, db.tickets[t.id].status, newIds, cy.eventsFrom);
          later := HandleItems(items, t, todo, newIds, seen, cy);
        }
      }
    }

    method ProcessEvents(cy: Cycle, newIds: set<int>) returns (seen: int)
      modifies this
      ensures var tickets := Selected(cy.snapshot, cy.brand, cy.eventsFrom, ALL);
              RunOn(View(Reading([], newIds, seen)), cy) ==
                  RunOn(old(View(Reading(tickets, newIds, cy.eventsFrom))), cy)
    {
      var tickets := Selected(cy.snapshot, cy.brand, cy.eventsFrom, ALL);
      seen := cy.eventsFrom;
      ghost var start := View(Reading(tickets, newIds, seen));
      var i := 0;
      while i < |tickets|
        invariant 0 <= i <= |tickets|
        invariant RunOn(View(Reading(tickets[i..], newIds, seen)), cy) == RunOn(start, cy)
      {
        assert tickets[i..] == [tickets[i]] + tickets[i + 1..];
        seen := VisitTicket(tickets[i], tickets[i + 1..], newIds, seen, cy);
        i := i + 1;
      }
      assert tickets[i..] == [];
    }

    /** The body of a cycle; what it leaves to commit is the whole machine's run from the checkpoints on. */
    method PollOnce(snapshot: seq<Ticket>, brand: int, clock: int, at: int)
      modifies this
      ensures var cy := CycleOf(old(db), snapshot, brand, clock, at);
              View(Finished) == RunOn(Begun(old(View(Idle)), cy), cy)
    {
      var cy := BootstrapIfNeeded(snapshot, brand, clock, at);
      var seen, newIds := ProcessOpenTickets(cy);
      ghost var scanned := View(Scanning([], newIds, seen, None));
      tx := tx.(ticketsCp := Some(seen));
      assert MicroStep(scanned, cy) ==
          View(Reading(Selected(cy.snapshot, cy.brand, cy.eventsFrom, ALL), newIds, cy.eventsFrom));
      var latest := ProcessEvents(cy, newIds);
      ghost var read := View(Reading([], newIds, latest));
      tx := tx.(eventsCp := Some(latest));
      assert MicroStep(read, cy) == View(Finished);
    }
  }
}
