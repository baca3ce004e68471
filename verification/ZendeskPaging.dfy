/** Reading the incremental ticket export page by page. */
module ZendeskPaging {
  import opened Wrappers

  datatype Ticket = Ticket(id: int, brand: int, status: string, updatedAt: Option<real>)

  /** A ticket as the service sends it: it may fail validation. */
  datatype RawTicket = Malformed | WellFormed(ticket: Ticket)

  datatype Response = Page(tickets: seq<RawTicket>, afterCursor: string, endOfStream: bool) | HttpError

  datatype Url = AtCursor(cursor: string) | FromTime(startTime: int)

  type Server = Url -> Response

  /** An empty cursor starts the export over. */
  function MakeUrl(cursor: string, startTime: int): Url {
    if cursor != "" then AtCursor(cursor) else FromTime(startTime)
  }

  /** The stream has ended, or failed, after at most `n` requests. */
  predicate Ends(server: Server, startTime: int, cursor: string, n: nat)
    decreases n
  {
    n > 0 &&
    var r := server(MakeUrl(cursor, startTime));
    r.HttpError? || r.endOfStream || Ends(server, startTime, r.afterCursor, n - 1)
  }

  function AsBatches(page: seq<RawTicket>): seq<seq<RawTicket>> {
    if page == [] then [] else [page]
  }

  /** What the reader has yielded after at most `n` requests. */
  function Batches(server: Server, startTime: int, cursor: string, n: nat): seq<seq<RawTicket>>
    decreases n
  {
    if n == 0 then []
    else
      var r := server(MakeUrl(cursor, startTime));
      if r.HttpError? then []
      else AsBatches(r.tickets) + if r.endOfStream then [] else Batches(server, startTime, r.afterCursor, n - 1)
  }

  lemma NextPage(server: Server, startTime: int, cursor: string, n: nat, read: seq<seq<RawTicket>>)
    requires n > 0
    ensures var r := server(MakeUrl(cursor, startTime));
            var now := if r.Page? && r.tickets != [] then read + [r.tickets] else read;
            read + Batches(server, startTime, cursor, n)
              == if r.HttpError? || r.endOfStream then now else now + Batches(server, startTime, r.afterCursor, n - 1)
  {
  }

  /**
    Runs the reader until its stream ends or it has made so many requests. Empty pages are passed over; an error ends
    the stream as if it were complete.
   */
  method IterIncrementalTickets(server: Server, startTime: int, requests: nat)
    returns (batches: seq<seq<RawTicket>>, ended: bool)
    ensures batches == Batches(server, startTime, "", requests)
    ensures ended <==> Ends(server, startTime, "", requests)
  {
    var cursor := "";
    var left := requests;
    batches, ended := [], false;
    while left > 0
      invariant batches + Batches(server, startTime, cursor, left) == Batches(server, startTime, "", requests)
      invariant Ends(server, startTime, cursor, left) <==> Ends(server, startTime, "", requests)
      invariant !ended
    {
      NextPage(server, startTime, cursor, left, batches);
      var r := server(MakeUrl(cursor, startTime));
      if r.HttpError? {
        return batches, true;
      }
      if r.tickets != [] {
        batches := batches + [r.tickets];
      }
      if r.endOfStream {
        return batches, true;
      }
      cursor, left := r.afterCursor, left - 1;
    }
    assert batches + [] == batches;
  }

  /** A stream that has ended yields no more, and until then each further request only adds. */
  lemma {:induction false} MoreRequests(server: Server, startTime: int, cursor: string, n: nat, m: nat)
    requires n <= m
    ensures Batches(server, startTime, cursor, n) <= Batches(server, startTime, cursor, m)
    ensures Ends(server, startTime, cursor, n) ==>
              Ends(server, startTime, cursor, m) &&
                  Batches(server, startTime, cursor, n) == Batches(server, startTime, cursor, m)
    decreases n
  {
    if n > 0 {
      var r := server(MakeUrl(cursor, startTime));
      if r.Page? && !r.endOfStream {
        MoreRequests(server, startTime, r.afterCursor, n - 1, m - 1);
      }
    }
  }

  datatype Filter = Filter(updatedAfter: real, brand: Option<int>, statuses: Option<set<string>>)

  function StartTime(f: Filter): int {
    f.updatedAfter.Floor
  }

  /** A ticket updated at the very moment is kept. */
  predicate Passes(f: Filter, raw: RawTicket) {
    raw.WellFormed?
    && (f.brand.None? || raw.ticket.brand == f.brand.value)
    && (f.statuses.None? || raw.ticket.status in f.statuses.value)
    && raw.ticket.updatedAt.Some? && raw.ticket.updatedAt.value >= f.updatedAfter
  }

  function Kept(f: Filter, raws: seq<RawTicket>): seq<Ticket> {
    if raws == [] then []
    else
      var n := |raws| - 1;
      Kept(f, raws[..n]) + if Passes(f, raws[n]) then [raws[n].ticket] else []
  }

  function Flatten(batches: seq<seq<RawTicket>>): seq<RawTicket> {
    if batches == [] then [] else Flatten(batches[..|batches| - 1]) + batches[|batches| - 1]
  }

  method IterUpdatedTickets(server: Server, f: Filter, requests: nat) returns (tickets: seq<Ticket>, ended: bool)
    ensures tickets == Kept(f, Flatten(Batches(server, StartTime(f), "", requests)))
    ensures ended <==> Ends(server, StartTime(f), "", requests)
  {
    var batches;
    batches, ended := IterIncrementalTickets(server, StartTime(f), requests);
    tickets := [];
    for i := 0 to |batches|
      invariant tickets == Kept(f, Flatten(batches[..i]))
    {
      FlattenNext(batches, i);
      ghost var earlier := Flatten(batches[..i]);
      var batch := batches[i];
      assert earlier + batch[..0] == earlier;
      for k := 0 to |batch|
        invariant tickets == Kept(f, earlier + batch[..k])
      {
        KeptNext(f, earlier, batch, k);
        if batch[k].Malformed? {
          continue;
        }
        var ticket := batch[k].ticket;
        if f.brand.Some? && ticket.brand != f.brand.value {
          continue;
        }
        if f.statuses.Some? && ticket.status !in f.statuses.value {
          continue;
        }
        if ticket.updatedAt.None? || ticket.updatedAt.value < f.updatedAfter {
          continue;
        }
        tickets := tickets + [ticket];
      }
      assert batch[..|batch|] == batch;
    }
    assert batches[..|batches|] == batches;
  }

  lemma FlattenNext(batches: seq<seq<RawTicket>>, i: nat)
    requires i < |batches|
    ensures Flatten(batches[..i + 1]) == Flatten(batches[..i]) + batches[i]
  {
    assert batches[..i + 1][..i] == batches[..i];
  }

  lemma KeptNext(f: Filter, earlier: seq<RawTicket>, batch: seq<RawTicket>, k: nat)
    requires k < |batch|
    ensures Kept(f, earlier + batch[..k + 1])
         == Kept(f, earlier + batch[..k]) + if Passes(f, batch[k]) then [batch[k].ticket] else []
  {
    var s := earlier + batch[..k + 1];
    assert s[..|s| - 1] == earlier + batch[..k];
  }

  /* ---------- A complete stream ---------- */

  /** From this cursor the service sends exactly these tickets, cut into pages in any way, empty ones included. */
  ghost predicate Serves(server: Server, startTime: int, cursor: string, all: seq<RawTicket>, n: nat)
    decreases n
  {
    n > 0 &&
    var r := server(MakeUrl(cursor, startTime));
    && r.Page? && r.tickets <= all
    && if r.endOfStream then r.tickets == all else Serves(server, startTime, r.afterCursor, all[|r.tickets|..], n - 1)
  }

  lemma {:induction false} FlattenConcat(a: seq<seq<RawTicket>>, b: seq<seq<RawTicket>>)
    ensures Flatten(a + b) == Flatten(a) + Flatten(b)
  {
    if b == [] {
      assert a + b == a;
    } else {
      var n := |b| - 1;
      var s := a + b;
      assert s[..|s| - 1] == a + b[..n] && s[|s| - 1] == b[n];
      FlattenConcat(a, b[..n]);
      assert (Flatten(a) + Flatten(b[..n])) + b[n] == Flatten(a) + (Flatten(b[..n]) + b[n]);
    }
  }

  lemma FlattenPage(page: seq<RawTicket>, more: seq<seq<RawTicket>>)
    ensures Flatten(AsBatches(page) + more) == page + Flatten(more)
  {
    FlattenConcat(AsBatches(page), more);
    if page != [] {
      assert [page][..0] == [] && Flatten([]) == [];
    }
  }

  lemma {:induction false} ServedWhole(server: Server, startTime: int, cursor: string, all: seq<RawTicket>, n: nat)
    requires Serves(server, startTime, cursor, all, n)
    ensures Ends(server, startTime, cursor, n) && Flatten(Batches(server, startTime, cursor, n)) == all
    decreases n
  {
    var r := server(MakeUrl(cursor, startTime));
    if r.endOfStream {
      FlattenPage(r.tickets, []);
    } else {
      var rest := all[|r.tickets|..];
      assert all == r.tickets + rest;
      ServedWhole(server, startTime, r.afterCursor, rest, n - 1);
      FlattenPage(r.tickets, Batches(server, startTime, r.afterCursor, n - 1));
    }
  }

  /** However the service cuts its pages, the reader yields the tickets that pass, each once and in order. */
  lemma CompleteStream(server: Server, f: Filter, all: seq<RawTicket>, n: nat)
    requires Serves(server, StartTime(f), "", all, n)
    ensures Ends(server, StartTime(f), "", n)
    ensures Kept(f, Flatten(Batches(server, StartTime(f), "", n))) == Kept(f, all)
  {
    ServedWhole(server, StartTime(f), "", all, n);
  }

  /* ---------- A stream cut short ---------- */

  /** The same service, with some of its requests failing. */
  ghost predicate FaultyCopy(faulty: Server, server: Server) {
    forall url :: faulty(url) == server(url) || faulty(url).HttpError?
  }

  lemma {:induction false} BatchesCutShort(faulty: Server, server: Server, startTime: int, cursor: string, n: nat)
    requires FaultyCopy(faulty, server)
    ensures Ends(server, startTime, cursor, n) ==> Ends(faulty, startTime, cursor, n)
    ensures Batches(faulty, startTime, cursor, n) <= Batches(server, startTime, cursor, n)
    decreases n
  {
    var r := server(MakeUrl(cursor, startTime));
    if n > 0 && faulty(MakeUrl(cursor, startTime)) == r && r.Page? && !r.endOfStream {
      BatchesCutShort(faulty, server, startTime, r.afterCursor, n - 1);
    }
  }

  lemma {:induction false} KeptPrefix(f: Filter, a: seq<RawTicket>, b: seq<RawTicket>)
    requires a <= b
    ensures Kept(f, a) <= Kept(f, b)
    decreases |b|
  {
    if |a| == |b| {
      assert a == b;
    } else {
      assert a <= b[..|b| - 1];
      KeptPrefix(f, a, b[..|b| - 1]);
    }
  }

  /** Failed requests raise nothing: the reader yields a prefix of what it would have yielded. */
  lemma CutShortIsPrefix(faulty: Server, server: Server, f: Filter, n: nat)
    requires FaultyCopy(faulty, server)
    ensures Ends(server, StartTime(f), "", n) ==> Ends(faulty, StartTime(f), "", n)
    ensures Kept(f, Flatten(Batches(faulty, StartTime(f), "", n))) <=
          Kept(f, Flatten(Batches(server, StartTime(f), "", n)))
  {
    BatchesCutShort(faulty, server, StartTime(f), "", n);
    FlattenPrefix(Batches(faulty, StartTime(f), "", n), Batches(server, StartTime(f), "", n));
    KeptPrefix(f, Flatten(Batches(faulty, StartTime(f), "", n)), Flatten(Batches(server, StartTime(f), "", n)));
  }

  lemma FlattenPrefix(a: seq<seq<RawTicket>>, b: seq<seq<RawTicket>>)
    requires a <= b
    ensures Flatten(a) <= Flatten(b)
  {
    assert b == a + b[|a|..];
    FlattenConcat(a, b[|a|..]);
  }

  /* ---------- Which tickets, from which requests ---------- */

  /** Positions of a list, each later than the one before. */
  ghost predicate Increasing(at: seq<nat>, size: nat) {
    && (forall j :: 0 <= j < |at| ==> at[j] < size)
    && (forall j, k :: 0 <= j < k < |at| ==> at[j] < at[k])
  }

  /** A ticket that is asked for: of the brand and a status, if these are given, and updated at the time or later. */
  ghost predicate Wanted(f: Filter, raw: RawTicket) {
    && raw.WellFormed?
    && (f.brand == None || f.brand == Some(raw.ticket.brand))
    && (f.statuses == None || raw.ticket.status in f.statuses.value)
    && (raw.ticket.updatedAt.Some? && f.updatedAfter <= raw.ticket.updatedAt.value)
  }

  /** The kept tickets are those at certain positions, in order; a position is one of them iff its ticket is wanted. */
  lemma {:induction false} KeptPositions(f: Filter, all: seq<RawTicket>) returns (at: seq<nat>)
    ensures Increasing(at, |all|)
    ensures forall i :: 0 <= i < |all| ==> (i in at <==> Wanted(f, all[i]))
    ensures |Kept(f, all)| == |at|
    ensures forall j :: 0 <= j < |at| ==> all[at[j]].WellFormed? && Kept(f, all)[j] == all[at[j]].ticket
  {
    at := [];
    if all != [] {
      var n := |all| - 1;
      at := KeptPositions(f, all[..n]);
      if Passes(f, all[n]) {
        at := at + [n];
      }
      assert forall i :: 0 <= i < n ==> all[..n][i] == all[i];
    }
  }

  /**
    A service that answers the start time with the first page, and each page's cursor, none of them empty, with the
    next one.
   */
  ghost predicate PagedBy(server: Server, startTime: int, pages: seq<seq<RawTicket>>, cursors: seq<string>) {
    && |pages| == |cursors| > 0 && "" !in cursors
    && forall i :: 0 <= i < |pages| ==>
         server(if i == 0 then FromTime(startTime) else AtCursor(cursors[i - 1]))
           == Page(pages[i], cursors[i], i == |pages| - 1)
  }

  lemma {:induction false} PagedServes(server: Server, startTime: int, pages: seq<seq<RawTicket>>,
        cursors: seq<string>, i: nat)
    requires PagedBy(server, startTime, pages, cursors) && i < |pages|
    ensures Serves(server, startTime, if i == 0 then "" else cursors[i - 1], Flatten(pages[i..]), |pages| - i)
    decreases |pages| - i
  {
    var cursor := if i == 0 then "" else cursors[i - 1];
    assert i > 0 ==> cursor in cursors;
    assert server(MakeUrl(cursor, startTime)) == Page(pages[i], cursors[i], i == |pages| - 1);
    assert pages[i..] == [pages[i]] + pages[i + 1..];
    FlattenConcat([pages[i]], pages[i + 1..]);
    assert [pages[i]][..0] == [] && Flatten([pages[i]]) == pages[i];
    if i + 1 < |pages| {
      PagedServes(server, startTime, pages, cursors, i + 1);
      assert Flatten(pages[i..])[|pages[i]|..] == Flatten(pages[i + 1..]);
    }
  }

  /**
    Reading such a service gives, after one request for each page, exactly the wanted tickets of all pages, each once
    and in their order; and then the stream has ended.
   */
  lemma WantedTickets(server: Server, f: Filter, pages: seq<seq<RawTicket>>,
        cursors: seq<string>) returns (at: seq<nat>)
    requires PagedBy(server, f.updatedAfter.Floor, pages, cursors)
    ensures Ends(server, StartTime(f), "", |pages|)
    ensures var all := Flatten(pages);
            var tickets := Kept(f, Flatten(Batches(server, StartTime(f), "", |pages|)));
            && Increasing(at, |all|) && |tickets| == |at|
            && (forall j :: 0 <= j < |at| ==> all[at[j]] == WellFormed(tickets[j]))
            && (forall i :: 0 <= i < |all| ==>
                  (i in at <==>
                    && all[i].WellFormed?
                    && (f.brand == None || f.brand == Some(all[i].ticket.brand))
                    && (f.statuses == None || all[i].ticket.status in f.statuses.value)
                    && all[i].ticket.updatedAt.Some? && f.updatedAfter <= all[i].ticket.updatedAt.value))
  {
    PagedServes(server, f.updatedAfter.Floor, pages, cursors, 0);
    assert pages[0..] == pages;
    CompleteStream(server, f, Flatten(pages), |pages|);
    at := KeptPositions(f, Flatten(pages));
  }
}
