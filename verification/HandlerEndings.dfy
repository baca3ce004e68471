/** How a reply handler ends: which jobs are answered, and what each ending leaves behind and tells the job queue. */
module HandlerEndings {
  import opened ReplyPosting
  import opened Wrappers

  ghost predicate Opening(w: World, t: nat, job: Job) {
    t in w.txs && w.txs[t] == Tx(job, Opened, false, 0, None, None)
  }

  /** A post of the ticket that was recorded before the comment's event came in. */
  ghost predicate AnsweredBefore(w: World, ticket: int, source: string)
    requires (ticket, source) in w.store.events
  {
    exists k :: k in w.store.posts && k.ticket == ticket
      && w.store.posts[k].createdAt < w.store.events[(ticket, source)]
  }

  /** An initial job goes on to reply exactly for customer tickets; nothing is written before the reply. */
  lemma InitialGate(w: World, t: nat, ticket: int, service: bool)
    requires Opening(w, t, InitialJob(ticket))
    ensures var gated := Apply(w, Gate(t, service));
            && gated.store == w.store
            && t in gated.txs && gated.txs[t].attempt == None
            && (gated.txs[t].stage == Passed <==> !service)
            && (gated.txs[t].stage == Ended(true) <==> service)
  {
  }

  /** A service ticket is acknowledged without a reply, and from then on it is not observed. */
  lemma ServiceTicket(w: World, t: nat, ticket: int)
    requires Opening(w, t, InitialJob(ticket))
    ensures var done := Apply(Apply(w, Gate(t, true)), Commit(t));
            && done.store == w.store.(observing := w.store.observing[ticket := false])
            && done.txs == w.txs - {t}
  {
  }

  /**
    A follow-up job is dropped for a ticket that is unknown or not observed, fails while its event's row is missing, and
    goes on to reply exactly if some post of the ticket is older than the comment; otherwise it is dropped too.
   */
  lemma FollowupGate(w: World, t: nat, ticket: int, source: string, service: bool)
    requires Opening(w, t, FollowupJob(ticket, source))
    ensures var gated := Apply(w, Gate(t, service));
            var observed := ticket in w.store.observing && w.store.observing[ticket];
            var known := (ticket, source) in w.store.events;
            && gated.store == w.store
            && t in gated.txs && gated.txs[t] == w.txs[t].(stage := gated.txs[t].stage)
            && (gated.txs[t].stage == Ended(false) <==> observed && !known)
            && (gated.txs[t].stage == Passed <==>
                  observed && known
                  && exists k :: k in w.store.posts && k.ticket == ticket
                                 && w.store.posts[k].createdAt < w.store.events[(ticket, source)])
            && gated.txs[t].stage in {Ended(false), Passed, Ended(true)}
  {
    var gated := Apply(w, Gate(t, service));
    if (ticket, source) in w.store.events {
      assert ExistsBefore(w.store.posts, ticket, w.store.events[(ticket, source)]) <==>
        AnsweredBefore(w, ticket, source);
    }
  }

  /** A dropped or failed follow-up leaves every table as it was. */
  lemma EndedFollowup(w: World, t: nat, ticket: int, source: string, service: bool)
    requires Opening(w, t, FollowupJob(ticket, source)) && Apply(w, Gate(t, service)).txs[t].stage.Ended?
    ensures Apply(Apply(w, Gate(t, service)), Commit(t)).store == w.store
  {
  }

  /** No other open transaction has recorded a post of this ticket with this body. */
  ghost predicate Unhindered(w: World, t: nat, ticket: int, body: string) {
    forall u :: u in w.txs && u != t && w.txs[u].post.Some? && w.txs[u].attempt.Some? ==>
      w.txs[u].attempt.value.ticket != ticket || w.txs[u].attempt.value.body != body
  }

  ghost predicate Replying(w: World, t: nat) {
    && t in w.txs && w.txs[t].stage == Passed && !w.txs[t].unobserve
    && w.txs[t].attempt.None? && w.txs[t].post.None?
    && w.txs[t].job.ticket in w.store.observing
  }

  /** The handler's result: true exactly if the reply was posted, was not to be sent, or had been posted before. */
  lemma ReplyResult(w: World, t: nat, channel: PostChannel, body: string, outcome: ZendeskReply)
    requires Replying(w, t) && Unhindered(w, t, w.txs[t].job.ticket, body)
    ensures var key := PostKey(w.txs[t].job.ticket, body);
            var ended := Apply(Apply(w, Reply(t, channel, body)), Answer(t, outcome));
            && t in ended.txs && ended.store == w.store
            && ended.txs[t].stage
                 == Ended(body != "" && (key in w.store.posts || channel == Off || outcome == Accepted))
  {
    assert Unblocked(w, t, PostKey(w.txs[t].job.ticket, body));
  }

  /** The replying transaction when the reply has ended: its one attempt and, if it is a new post, the post. */
  lemma ReplyEnded(w: World, t: nat, channel: PostChannel, body: string, outcome: ZendeskReply)
    requires Replying(w, t) && Unhindered(w, t, w.txs[t].job.ticket, body)
    ensures var ticket := w.txs[t].job.ticket;
            var kind := if w.txs[t].job.InitialJob? then Initial else Followup;
            var status := if body == "" then EmptyReply
                          else if PostKey(ticket, body) in w.store.posts then SkippedDuplicate
                          else if channel == Off || outcome == Accepted then Posted
                          else Failed;
            var ended := Apply(Apply(w, Reply(t, channel, body)), Answer(t, outcome));
            && ended.store == w.store && ended.txs.Keys == w.txs.Keys
            && (forall u :: u in w.txs && u != t ==> ended.txs[u] == w.txs[u])
            && ended.txs[t].stage.Ended? && !ended.txs[t].unobserve && ended.txs[t].id == w.nextAttempt
            && ended.txs[t].attempt == Some(Attempt(ticket, kind, channel, status, body))
            && ended.txs[t].post == if status == Posted then Some(OurPost(channel, w.clock.Floor)) else None
  {
    assert Unblocked(w, t, PostKey(w.txs[t].job.ticket, body));
  }

  lemma CommitRows(w: World, t: nat)
    requires t in w.txs && w.txs[t].stage.Ended? && !w.txs[t].unobserve && w.txs[t].attempt.Some?
    ensures var x, done := w.txs[t], Apply(w, Commit(t));
            && done.store.attempts == w.store.attempts[x.id := x.attempt.value]
            && done.store.posts
                 == (if x.post.None? then w.store.posts
                     else w.store.posts[PostKey(x.attempt.value.ticket, x.attempt.value.body) := x.post.value])
            && done.store.observing == w.store.observing && done.store.events == w.store.events
            && done.txs == w.txs - {t}
  {
  }

  /** What a handler that replies commits: one attempt with the status it ended in, and the post if it is a new one. */
  lemma ReplyRows(w: World, t: nat, channel: PostChannel, body: string, outcome: ZendeskReply)
    requires Replying(w, t) && Unhindered(w, t, w.txs[t].job.ticket, body)
    ensures var ticket := w.txs[t].job.ticket;
            var key := PostKey(ticket, body);
            var kind := if w.txs[t].job.InitialJob? then Initial else Followup;
            var status := if body == "" then EmptyReply
                          else if key in w.store.posts then SkippedDuplicate
                          else if channel == Off || outcome == Accepted then Posted
                          else Failed;
            var done := Apply(Apply(Apply(w, Reply(t, channel, body)), Answer(t, outcome)), Commit(t));
            && done.store.attempts == w.store.attempts[w.nextAttempt := Attempt(ticket, kind, channel, status, body)]
            && done.store.posts
                 == (if status == Posted then w.store.posts[key := OurPost(channel, w.clock.Floor)] else w.store.posts)
            && done.store.observing == w.store.observing && done.store.events == w.store.events
            && done.txs == w.txs - {t}
  {
    ReplyEnded(w, t, channel, body, outcome);
    var ended := Apply(Apply(w, Reply(t, channel, body)), Answer(t, outcome));
    CommitRows(ended, t);
    assert ended.txs - {t} == w.txs - {t};
  }

  /**
    In every reachable world, a handler that ended after an attempt reports success exactly if the reply is posted or
    was posted before: an empty or refused reply is retried.
   */
  lemma EndedAttempt(w: World, t: nat)
    requires Reachable(w) && t in w.txs && w.txs[t].stage.Ended? && w.txs[t].attempt.Some?
    ensures w.txs[t].stage.ok <==> w.txs[t].attempt.value.status in {Posted, SkippedDuplicate}
    ensures !w.txs[t].stage.ok <==> w.txs[t].attempt.value.status in {EmptyReply, Failed}
    ensures w.txs[t].post.Some? <==> w.txs[t].attempt.value.status == Posted
  {
    ReachableValid(w);
    assert RowsFit(w.store, w.born, Now(w), w.nextAttempt, w.txs[t]);
  }

  /* ---------- In every run ---------- */

  /** Only an initial job that ended without a reply unobserves its ticket, and only it ends without one. */
  ghost predicate Decided(x: Tx) {
    && (x.stage in {Opened, Passed} ==> x.attempt.None?)
    && (x.stage == Asking ==> x.attempt.Some?)
    && (x.unobserve <==> x.job.InitialJob? && x.stage.Ended? && x.attempt.None?)
    && (x.unobserve ==> x.stage.ok)
  }

  ghost predicate AllDecided(w: World) {
    forall t :: t in w.txs ==> Decided(w.txs[t])
  }

  lemma DecidedStep(w: World, e: Event)
    requires AllDecided(w)
    ensures AllDecided(Apply(w, e))
  {
  }

  lemma {:induction false} DecidedRun(w: World, es: seq<Event>)
    requires AllDecided(w)
    ensures AllDecided(Exec(w, es))
    decreases |es|
  {
    if es != [] {
      DecidedStep(w, es[0]);
      DecidedRun(Apply(w, es[0]), es[1..]);
    }
  }

  /**
    In any run, whatever the clock does, an initial-reply handler that commits leaves either an attempt of its ticket or
    the ticket unobserved; without an attempt it reports success, and changes nothing else.
   */
  lemma InitialNeverIgnored(es: seq<Event>, t: nat)
    requires var w := Exec(EMPTY, es); t in w.txs && w.txs[t].job.InitialJob? && w.txs[t].stage.Ended?
    ensures var w := Exec(EMPTY, es);
            var ticket := w.txs[t].job.ticket;
            var done := Apply(w, Commit(t)).store;
            && (w.txs[t].attempt.Some? ==>
                  && done.attempts == w.store.attempts[w.txs[t].id := w.txs[t].attempt.value]
                  && done.observing == w.store.observing)
            && (w.txs[t].attempt.None? ==>
                  && w.txs[t].stage == Ended(true)
                  && done == w.store.(observing := w.store.observing[ticket := false]))
  {
    DecidedRun(EMPTY, es);
  }

  /** Attempts, committed or not, refer to stored ticket rows. */
  ghost predicate Referring(w: World) {
    && (forall t :: t in w.txs && w.txs[t].attempt.Some? ==> w.txs[t].attempt.value.ticket in w.store.observing)
    && (forall id :: id in w.store.attempts ==> w.store.attempts[id].ticket in w.store.observing)
  }

  lemma CommittedRefers(s: Store, x: Tx)
    requires forall id :: id in s.attempts ==> s.attempts[id].ticket in s.observing
    requires x.attempt.Some? ==> x.attempt.value.ticket in s.observing
    ensures var after := Committed(s, x);
            && (forall ticket :: ticket in s.observing ==> ticket in after.observing)
            && (forall id :: id in after.attempts ==> after.attempts[id].ticket in after.observing)
  {
  }

  lemma ReferringCommit(w: World, t: nat)
    requires Referring(w) && Enabled(w, Commit(t))
    ensures Referring(Apply(w, Commit(t)))
  {
    CommittedRefers(w.store, w.txs[t]);
  }

  lemma ReferringWork(w: World, e: Event)
    requires Referring(w) && (e.Gate? || e.Reply? || e.Answer?)
    ensures Referring(Apply(w, e))
  {
  }

  lemma ReferringStep(w: World, e: Event)
    requires Referring(w)
    ensures Referring(Apply(w, e))
  {
    if Enabled(w, e) {
      if e.Commit? {
        ReferringCommit(w, e.tx);
      } else if e.Gate? || e.Reply? || e.Answer? {
        ReferringWork(w, e);
      }
    }
  }

  /** In every run, an attempt is only ever written for a ticket whose row is stored. */
  lemma {:induction false} AttemptsReferToTickets(w: World, es: seq<Event>)
    requires Referring(w)
    ensures Referring(Exec(w, es))
    decreases |es|
  {
    if es != [] {
      ReferringStep(w, es[0]);
      AttemptsReferToTickets(Apply(w, es[0]), es[1..]);
    }
  }

  lemma {:induction false} ExecAppend(w: World, es: seq<Event>, e: Event)
    ensures Exec(w, es + [e]) == Apply(Exec(w, es), e)
    ensures SteadyRun(w, es) && Steady(Exec(w, es), e) ==> SteadyRun(w, es + [e])
    decreases |es|
  {
    if es == [] {
      assert es + [e] == [e] && Exec(Apply(w, e), []) == Apply(w, e);
    } else {
      assert (es + [e])[1..] == es[1..] + [e];
      ExecAppend(Apply(w, es[0]), es[1..], e);
    }
  }

  /** The handler's own steps before its transaction ends. */
  predicate Working(e: Event, t: nat) {
    match e
    case Gate(tx, _) => tx == t
    case Reply(tx, _, _) => tx == t
    case Answer(tx, _) => tx == t
    case _ => false
  }

  lemma {:induction false} WorkingKeeps(w: World, t: nat, es: seq<Event>)
    requires t in w.txs && forall e :: e in es ==> Working(e, t)
    ensures var after := Exec(w, es);
            && after.store == w.store && t in after.txs && after.txs - {t} == w.txs - {t}
    decreases |es|
  {
    if es != [] {
      assert es[0] in es;
      var next := Apply(w, es[0]);
      assert next.txs - {t} == w.txs - {t};
      WorkingKeeps(next, t, es[1..]);
    }
  }

  /** Whatever a handler has done, its rollback leaves no trace in the tables; other handlers are not touched. */
  lemma RolledBackHandler(w: World, t: nat, es: seq<Event>)
    requires t in w.txs && forall e :: e in es ==> Working(e, t)
    ensures var after := Exec(w, es + [Rollback(t)]); after.store == w.store && after.txs == w.txs - {t}
  {
    WorkingKeeps(w, t, es);
    ExecAppend(w, es, Rollback(t));
  }

  /** Of a follow-up that could be answered, the ticket's observing alone decides. */
  lemma ObservingDecides(w: World, t: nat, ticket: int, source: string, on: bool)
    requires Opening(w, t, FollowupJob(ticket, source)) && ticket in w.store.observing
    requires (ticket, source) in w.store.events && AnsweredBefore(w, ticket, source)
    ensures var after := Apply(Apply(w, SetObserving(ticket, on)), Gate(t, false));
            t in after.txs && after.txs[t].stage == if on then Passed else Ended(true)
  {
    var marked := Apply(w, SetObserving(ticket, on));
    var k :| k in w.store.posts && k.ticket == ticket
      && w.store.posts[k].createdAt < w.store.events[(ticket, source)];
    assert k in marked.store.posts;
    FollowupGate(marked, t, ticket, source, false);
  }

  /* ---------- A ticket answered twice ---------- */

  /** The run with one more event. */
  lemma Then(es: seq<Event>, w: World, e: Event) returns (fs: seq<Event>, after: World)
    requires SteadyRun(EMPTY, es) && w == Exec(EMPTY, es) && Steady(w, e)
    ensures fs == es + [e] && SteadyRun(EMPTY, fs) && after == Exec(EMPTY, fs) && after == Apply(w, e)
  {
    ExecAppend(EMPTY, es, e);
    fs, after := es + [e], Apply(w, e);
  }

  /** The handler of this job may pass its gate. */
  ghost predicate MayPass(w: World, job: Job) {
    job.FollowupJob? ==>
      && job.ticket in w.store.observing && w.store.observing[job.ticket]
      && (job.ticket, job.source) in w.store.events && AnsweredBefore(w, job.ticket, job.source)
  }

  lemma GatePasses(w: World, t: nat, job: Job)
    requires Opening(w, t, job) && MayPass(w, job)
    ensures Apply(w, Gate(t, false)) == w.(txs := w.txs[t := Tx(job, Passed, false, 0, None, None)])
  {
    if job.InitialJob? {
      InitialGate(w, t, job.ticket, false);
    } else {
      FollowupGate(w, t, job.ticket, job.source, false);
      assert AnsweredBefore(w, job.ticket, job.source);
    }
  }

  /** Begun, and past its gate. */
  lemma Admitted(es: seq<Event>, w: World, job: Job) returns (fs: seq<Event>, after: World)
    requires SteadyRun(EMPTY, es) && w == Exec(EMPTY, es) && w.txs == map[]
    requires job.ticket in w.born && MayPass(w, job)
    ensures SteadyRun(EMPTY, fs) && after == Exec(EMPTY, fs)
    ensures after == w.(txs := map[w.nextTx := Tx(job, Passed, false, 0, None, None)], nextTx := w.nextTx + 1)
  {
    var begun;
    fs, begun := Then(es, w, Begin(job));
    if job.FollowupJob? {
      var k :| k in w.store.posts && k.ticket == job.ticket
        && w.store.posts[k].createdAt < w.store.events[(job.ticket, job.source)];
      assert k in begun.store.posts;
    }
    GatePasses(begun, w.nextTx, job);
    fs, after := Then(fs, begun, Gate(w.nextTx, false));
  }

  lemma ReplySteps(w: World, t: nat, body: string, after: World)
    requires Replying(w, t)
    requires after == Apply(Apply(Apply(w, Reply(t, Public, body)), Answer(t, Accepted)), Commit(t))
    ensures after.clock == w.clock && after.born == w.born && after.comments == w.comments
    ensures Unhindered(w, t, w.txs[t].job.ticket, body) ==> after.nextAttempt == w.nextAttempt + 1
  {
    if Unhindered(w, t, w.txs[t].job.ticket, body) {
      assert Unblocked(w, t, PostKey(w.txs[t].job.ticket, body));
    }
  }

  /** A handler's steps from its start to its commit, for a job that passes its gate and a reply that is accepted. */
  lemma Handled(es: seq<Event>, w: World, job: Job, body: string) returns (fs: seq<Event>, after: World)
    requires SteadyRun(EMPTY, es) && w == Exec(EMPTY, es) && w.txs == map[] && body != ""
    requires job.ticket in w.born && job.ticket in w.store.observing && PostKey(job.ticket, body) !in w.store.posts
    requires MayPass(w, job)
    ensures SteadyRun(EMPTY, fs) && after == Exec(EMPTY, fs) && after.txs == map[]
    ensures after.clock == w.clock && after.born == w.born && after.comments == w.comments
    ensures after.store.observing == w.store.observing && after.store.events == w.store.events
    ensures after.store.posts == w.store.posts[PostKey(job.ticket, body) := OurPost(Public, w.clock.Floor)]
    ensures after.nextAttempt == w.nextAttempt + 1
    ensures after.store.attempts
         == w.store.attempts[w.nextAttempt :=
              Attempt(job.ticket, if job.InitialJob? then Initial else Followup, Public, Posted, body)]
  {
    var t, gated, replied, answered := w.nextTx, w, w, w;
    fs, gated := Admitted(es, w, job);
    assert Replying(gated, t) && Unhindered(gated, t, job.ticket, body);
    ReplyRows(gated, t, Public, body, Accepted);
    fs, replied := Then(fs, gated, Reply(t, Public, body));
    fs, answered := Then(fs, replied, Answer(t, Accepted));
    fs, after := Then(fs, answered, Commit(t));
    ReplySteps(gated, t, body, after);
  }

  /**
    Some run answers a ticket and then a later comment on it: both replies are committed as posts, the first by an
    initial job, the second by a follow-up.
   */
  lemma AnsweredTwice(ticket: int, opening: string, source: string, body: string, reply: string)
    returns (es: seq<Event>)
    requires opening != source && body != "" && reply != "" && body != reply
    ensures SteadyRun(EMPTY, es)
    ensures var store := Exec(EMPTY, es).store;
            && store.posts.Keys == {PostKey(ticket, body), PostKey(ticket, reply)}
            && store.attempts
                 == map[0 := Attempt(ticket, Initial, Public, Posted, body),
                        1 := Attempt(ticket, Followup, Public, Posted, reply)]
  {
    var w;
    es, w := Then([], EMPTY, OpenTicket(ticket, opening));
    es, w := Then(es, w, StoreTicket(ticket));
    assert w.store.attempts == map[] && w.nextAttempt == 0;
    es, w := Handled(es, w, InitialJob(ticket), body);
    assert w.store.posts == map[PostKey(ticket, body) := OurPost(Public, 0.0.Floor)];
    es, w := Then(es, w, Tick(1.0));
    es, w := Then(es, w, AddComment(ticket, source));
    es, w := Then(es, w, StoreEvent(ticket, source));
    assert PostKey(ticket, body) in w.store.posts && AnsweredBefore(w, ticket, source);
    es, w := Handled(es, w, FollowupJob(ticket, source), reply);
  }
}
