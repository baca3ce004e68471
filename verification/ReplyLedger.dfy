/** What a run of reply handlers leaves behind, beside its tables: the order of posts, and the replies on Zendesk. */
module ReplyLedger {
  import opened Counting
  import opened ReplyPosting
  import opened Wrappers

  datatype Posting = Posting(key: PostKey, job: JobKind)

  /**
    Beside the world: posts in the order they were committed, replies left on Zendesk, and the keys of refused calls
    that left one all the same and of transactions rolled back after an accepted one.
   */
  datatype Ledger = Ledger(
    world: World,
    posted: seq<Posting>,
    replies: seq<Comment>,
    landed: seq<PostKey>,
    undone: seq<PostKey>)

  const START: Ledger := Ledger(EMPTY, [], [], [], [])

  /** The transaction's reply was accepted by Zendesk; it is yet to be committed. */
  ghost predicate Delivered(x: Tx, key: PostKey) {
    Holds(x, key) && x.stage.Ended? && x.attempt.value.channel != Off
  }

  ghost function Answering(l: Ledger, a: Attempt, outcome: ZendeskReply): Ledger {
    l.(replies := if outcome == Refused(false) then l.replies
                  else l.replies + [Comment(a.ticket, a.body, a.channel == Public)],
       landed := if outcome == Refused(true) then l.landed + [KeyOf(a)] else l.landed)
  }

  ghost function Committing(l: Ledger, x: Tx): Ledger {
    if x.attempt.Some? && x.post.Some? then l.(posted := l.posted + [Posting(KeyOf(x.attempt.value), Kind(x.job))])
    else l
  }

  ghost function RollingBack(l: Ledger, x: Tx): Ledger {
    if x.attempt.Some? && Delivered(x, KeyOf(x.attempt.value)) then l.(undone := l.undone + [KeyOf(x.attempt.value)])
    else l
  }

  ghost function Step(l: Ledger, e: Event): Ledger {
    var w := l.world;
    var noted :=
      if !Enabled(w, e) then l
      else if e.Answer? && w.txs[e.tx].attempt.Some? then Answering(l, w.txs[e.tx].attempt.value, e.outcome)
      else if e.Commit? then Committing(l, w.txs[e.tx])
      else if e.Rollback? then RollingBack(l, w.txs[e.tx])
      else l;
    noted.(world := Apply(w, e))
  }

  ghost function Run(l: Ledger, es: seq<Event>): Ledger
    decreases |es|
  {
    if es == [] then l else Run(Step(l, es[0]), es[1..])
  }

  lemma {:induction false} RunIsExec(l: Ledger, es: seq<Event>)
    ensures Run(l, es).world == Exec(l.world, es)
    decreases |es|
  {
    if es != [] {
      RunIsExec(Step(l, es[0]), es[1..]);
    }
  }

  /* ---------- The first post of a ticket ---------- */

  ghost predicate InitialBy(posted: seq<Posting>, ticket: int, n: nat) {
    exists i :: 0 <= i < n && i < |posted| && posted[i].key.ticket == ticket && posted[i].job == Initial
  }

  /** Every recorded post is in the ledger, and before every follow-up post comes an initial one of its ticket. */
  ghost predicate Led(posted: seq<Posting>, posts: map<PostKey, OurPost>) {
    && (forall k :: k in posts ==> exists i :: 0 <= i < |posted| && posted[i].key == k)
    && (forall i :: 0 <= i < |posted| && posted[i].job == Followup ==> InitialBy(posted, posted[i].key.ticket, i))
  }

  /** A follow-up past its gate is one for a ticket with an initial post in the ledger. */
  ghost predicate GateLed(posted: seq<Posting>, x: Tx) {
    && (x.job.FollowupJob? && (x.stage == Passed || x.attempt.Some?) ==> InitialBy(posted, x.job.ticket, |posted|))
    && (x.attempt.Some? ==> x.attempt.value.ticket == x.job.ticket)
    && (x.stage == Opened ==> x.attempt.None?)
  }

  ghost predicate AllLed(l: Ledger) {
    Led(l.posted, l.world.store.posts) && forall t :: t in l.world.txs ==> GateLed(l.posted, l.world.txs[t])
  }

  lemma LedTicket(posted: seq<Posting>, posts: map<PostKey, OurPost>, key: PostKey)
    requires Led(posted, posts) && key in posts
    ensures InitialBy(posted, key.ticket, |posted|)
  {
    var i :| 0 <= i < |posted| && posted[i].key == key;
    if posted[i].job == Followup {
      var j :| 0 <= j < i && posted[j].key.ticket == key.ticket && posted[j].job == Initial;
    }
  }

  lemma GateLeads(l: Ledger, t: nat, service: bool)
    requires AllLed(l) && Enabled(l.world, Gate(t, service))
    ensures GateLed(l.posted, Apply(l.world, Gate(t, service)).txs[t])
  {
    var x := l.world.txs[t];
    if x.job.FollowupJob? && Gated(l.world.store, x.job, service) == Passed {
      var created := l.world.store.events[(x.job.ticket, x.job.source)];
      var k :| k in l.world.store.posts && k.ticket == x.job.ticket && l.world.store.posts[k].createdAt < created;
      LedTicket(l.posted, l.world.store.posts, k);
    }
  }

  lemma CommitLeads(l: Ledger, t: nat)
    requires AllLed(l) && Enabled(l.world, Commit(t))
    ensures AllLed(Step(l, Commit(t)))
  {
    var x, after := l.world.txs[t], Step(l, Commit(t));
    assert forall i :: 0 <= i < |l.posted| ==> after.posted[i] == l.posted[i];
    forall i | 0 <= i < |after.posted| && after.posted[i].job == Followup
      ensures InitialBy(after.posted, after.posted[i].key.ticket, i)
    {
      assert InitialBy(l.posted, after.posted[i].key.ticket, i);
    }
    forall u | u in after.world.txs
      ensures GateLed(after.posted, after.world.txs[u])
    {
      assert GateLed(l.posted, l.world.txs[u]);
    }
    forall k | k in after.world.store.posts
      ensures exists i :: 0 <= i < |after.posted| && after.posted[i].key == k
    {
      if k in l.world.store.posts {
        var i :| 0 <= i < |l.posted| && l.posted[i].key == k;
        assert after.posted[i].key == k;
      } else {
        assert after.posted[|l.posted|].key == k;
      }
    }
  }

  lemma StepLeads(l: Ledger, e: Event)
    requires AllLed(l)
    ensures AllLed(Step(l, e))
  {
    if Enabled(l.world, e) {
      if e.Gate? {
        GateLeads(l, e.tx, e.service);
      } else if e.Commit? {
        CommitLeads(l, e.tx);
      }
    }
  }

  lemma {:induction false} RunLeads(l: Ledger, es: seq<Event>)
    requires AllLed(l)
    ensures AllLed(Run(l, es))
    decreases |es|
  {
    if es != [] {
      StepLeads(l, es[0]);
      RunLeads(Step(l, es[0]), es[1..]);
    }
  }

  /** In every run, whatever the clocks say, the first committed post of a ticket is by an initial-reply job. */
  lemma FirstPostIsInitial(es: seq<Event>, i: nat)
    requires i < |Run(START, es).posted|
    requires forall j :: 0 <= j < i ==> Run(START, es).posted[j].key.ticket != Run(START, es).posted[i].key.ticket
    ensures Run(START, es).posted[i].job == Initial
  {
    RunLeads(START, es);
  }

  /* ---------- Replies on Zendesk ---------- */

  /** What a transaction holds fits its stage and is new to the table. */
  ghost predicate Tidy(posts: map<PostKey, OurPost>, x: Tx) {
    && (x.stage in {Opened, Passed} ==> x.attempt.None? && x.post.None?)
    && (x.stage == Asking ==> x.attempt.Some? && x.post.Some? && x.attempt.value.channel != Off)
    && (x.post.Some? ==>
          x.attempt.Some? && KeyOf(x.attempt.value) !in posts && x.post.value.channel == x.attempt.value.channel)
  }

  ghost predicate AllTidy(w: World) {
    && (forall t :: t in w.txs ==> t < w.nextTx && Tidy(w.store.posts, w.txs[t]))
    && (forall t, u, k :: t in w.txs && u in w.txs && t != u && Holds(w.txs[t], k) ==> !Holds(w.txs[u], k))
  }

  ghost function RepliesWith(l: Ledger, key: PostKey): nat {
    Count(l.replies, (c: Comment) => PostKey(c.ticket, c.body) == key)
  }

  ghost function Times(keys: seq<PostKey>, key: PostKey): nat {
    Count(keys, (k: PostKey) => k == key)
  }

  ghost predicate OpenDelivered(w: World, key: PostKey) {
    exists t :: t in w.txs && Delivered(w.txs[t], key)
  }

  /** The reply that is accounted for: recorded as posted to Zendesk, or delivered by a transaction still open. */
  ghost function OnRecord(w: World, key: PostKey): nat {
    (if key in w.store.posts && w.store.posts[key].channel != Off then 1 else 0)
    + if OpenDelivered(w, key) then 1 else 0
  }

  ghost predicate Accounted(l: Ledger, key: PostKey) {
    RepliesWith(l, key) == OnRecord(l.world, key) + Times(l.landed, key) + Times(l.undone, key)
  }

  lemma Unchanged(w: World, after: World, key: PostKey)
    requires after.store.posts == w.store.posts
    requires forall t :: t in after.txs && Delivered(after.txs[t], key) ==> t in w.txs && Delivered(w.txs[t], key)
    requires forall t :: t in w.txs && Delivered(w.txs[t], key) ==> t in after.txs && Delivered(after.txs[t], key)
    ensures OnRecord(after, key) == OnRecord(w, key)
  {
  }

  lemma ReplyRow(w: World, x: Tx, channel: PostChannel, body: string)
    requires Tidy(w.store.posts, x) && x.stage == Passed
    ensures var y := Recorded(w, x, channel, body);
            && Tidy(w.store.posts, y)
            && (forall k :: Holds(y, k) ==> k == PostKey(x.job.ticket, body))
            && (forall k :: !Delivered(y, k) && !Delivered(x, k))
  {
  }

  lemma ReplyTidy(w: World, e: Event, key: PostKey)
    requires AllTidy(w) && e.Reply? && Enabled(w, e)
    ensures AllTidy(Apply(w, e)) && OnRecord(Apply(w, e), key) == OnRecord(w, key)
  {
    var after := Apply(w, e);
    ReplyRow(w, w.txs[e.tx], e.channel, e.body);
    assert forall t :: t in w.txs && t != e.tx ==> after.txs[t] == w.txs[t];
    Unchanged(w, after, key);
  }

  /** Whatever else happens leaves the rows of open transactions alone, or opens a bare one. */
  lemma ElseTidy(w: World, e: Event, key: PostKey)
    requires AllTidy(w) && Enabled(w, e) && !e.Reply? && !e.Answer? && !e.Commit? && !e.Rollback?
    ensures AllTidy(Apply(w, e)) && OnRecord(Apply(w, e), key) == OnRecord(w, key)
  {
    var after := Apply(w, e);
    if e.Gate? {
      GateTidy(w, e.tx, e.service);
    } else if e.Begin? {
      assert after.txs[w.nextTx] == Tx(e.job, Opened, false, 0, None, None);
    } else {
      assert after.txs == w.txs;
    }
    assert after.store.posts == w.store.posts;
    Unchanged(w, after, key);
  }

  lemma GateTidy(w: World, t: nat, service: bool)
    requires AllTidy(w) && Enabled(w, Gate(t, service))
    ensures AllTidy(Apply(w, Gate(t, service)))
    ensures var after := Apply(w, Gate(t, service));
            && after.store == w.store && (forall u :: u in after.txs <==> u in w.txs)
            && (forall u :: u in w.txs && u != t ==> after.txs[u] == w.txs[u])
            && after.txs[t].attempt.None? && after.txs[t].post.None?
  {
  }

  lemma AnswerCounts(l: Ledger, a: Attempt, outcome: ZendeskReply, key: PostKey)
    ensures var after := Answering(l, a, outcome);
            && RepliesWith(after, key) - Times(after.landed, key)
                 == RepliesWith(l, key) - Times(l.landed, key)
                    + (if KeyOf(a) == key && outcome == Accepted then 1 else 0)
            && after.undone == l.undone
  {
    CountAppend(l.replies, Comment(a.ticket, a.body, a.channel == Public),
        (c: Comment) => PostKey(c.ticket, c.body) == key);
    CountAppend(l.landed, KeyOf(a), (k: PostKey) => k == key);
  }

  lemma AnswerOnRecord(w: World, t: nat, outcome: ZendeskReply, key: PostKey)
    requires AllTidy(w) && Enabled(w, Answer(t, outcome))
    ensures AllTidy(Apply(w, Answer(t, outcome)))
    ensures OnRecord(Apply(w, Answer(t, outcome)), key)
         == OnRecord(w, key) + if KeyOf(w.txs[t].attempt.value) == key && outcome == Accepted then 1 else 0
  {
    var after := Apply(w, Answer(t, outcome));
    var x, y := w.txs[t], after.txs[t];
    assert forall k :: Holds(y, k) ==> Holds(x, k);
    if KeyOf(x.attempt.value) == key && outcome == Accepted {
      assert Delivered(y, key) && Holds(x, key);
      assert !OpenDelivered(w, key);
    } else {
      Unchanged(w, after, key);
    }
  }

  lemma AnswerTidy(l: Ledger, e: Event, key: PostKey)
    requires AllTidy(l.world) && Accounted(l, key) && e.Answer? && Enabled(l.world, e)
    ensures AllTidy(Step(l, e).world) && Accounted(Step(l, e), key)
  {
    AnswerCounts(l, l.world.txs[e.tx].attempt.value, e.outcome, key);
    AnswerOnRecord(l.world, e.tx, e.outcome, key);
  }

  lemma CommitOnRecord(w: World, t: nat, key: PostKey)
    requires AllTidy(w) && Enabled(w, Commit(t))
    ensures OnRecord(Apply(w, Commit(t)), key) == OnRecord(w, key)
  {
    var after, x := Apply(w, Commit(t)), w.txs[t];
    assert forall u :: u in after.txs ==> u in w.txs && u != t && after.txs[u] == w.txs[u];
    assert forall u :: u in w.txs && u != t ==> u in after.txs;
    if Holds(x, key) {
      assert key !in w.store.posts && !OpenDelivered(after, key);
      assert OpenDelivered(w, key) <==> Delivered(x, key);
    } else {
      assert key in after.store.posts <==> key in w.store.posts;
      assert !Delivered(x, key);
      if u :| u in w.txs && Delivered(w.txs[u], key) {
        assert u in after.txs && Delivered(after.txs[u], key);
      }
    }
  }

  lemma CommitTidy(l: Ledger, e: Event, key: PostKey)
    requires AllTidy(l.world) && Accounted(l, key) && e.Commit? && Enabled(l.world, e)
    ensures AllTidy(Step(l, e).world) && Accounted(Step(l, e), key)
  {
    var w, after, x := l.world, Step(l, e).world, l.world.txs[e.tx];
    CommitOnRecord(w, e.tx, key);
    forall t | t in after.txs
      ensures Tidy(after.store.posts, after.txs[t])
    {
      assert x.post.Some? && w.txs[t].post.Some? && KeyOf(w.txs[t].attempt.value) == KeyOf(x.attempt.value) ==>
        Holds(x, KeyOf(x.attempt.value)) && Holds(w.txs[t], KeyOf(x.attempt.value));
    }
  }

  lemma RollbackTidy(l: Ledger, e: Event, key: PostKey)
    requires AllTidy(l.world) && Accounted(l, key) && e.Rollback? && Enabled(l.world, e)
    ensures AllTidy(Step(l, e).world) && Accounted(Step(l, e), key)
  {
    var w, after, x := l.world, Step(l, e).world, l.world.txs[e.tx];
    if x.attempt.Some? && Delivered(x, KeyOf(x.attempt.value)) {
      CountAppend(l.undone, KeyOf(x.attempt.value), (k: PostKey) => k == key);
    }
    if Delivered(x, key) {
      assert OpenDelivered(w, key) && !OpenDelivered(after, key);
    } else {
      Unchanged(w, after, key);
    }
  }

  lemma StepTidy(l: Ledger, e: Event, key: PostKey)
    requires AllTidy(l.world) && Accounted(l, key)
    ensures AllTidy(Step(l, e).world) && Accounted(Step(l, e), key)
  {
    if Enabled(l.world, e) {
      if e.Reply? {
        ReplyTidy(l.world, e, key);
      } else if e.Answer? {
        AnswerTidy(l, e, key);
      } else if e.Commit? {
        CommitTidy(l, e, key);
      } else if e.Rollback? {
        RollbackTidy(l, e, key);
      } else {
        ElseTidy(l.world, e, key);
      }
    }
  }

  lemma {:induction false} RunTidy(l: Ledger, es: seq<Event>, key: PostKey)
    requires AllTidy(l.world) && Accounted(l, key)
    ensures AllTidy(Run(l, es).world) && Accounted(Run(l, es), key)
    decreases |es|
  {
    if es != [] {
      StepTidy(l, es[0], key);
      RunTidy(Step(l, es[0]), es[1..], key);
    }
  }

  /**
    In every run the replies of a key on Zendesk are exactly: the recorded one, or the one a transaction still open has
    delivered, and one for each refused call that left it all the same and each rollback after an accepted call.
   */
  lemma RepliesAccounted(es: seq<Event>, key: PostKey)
    ensures var l := Run(START, es);
            && RepliesWith(l, key) == OnRecord(l.world, key) + Times(l.landed, key) + Times(l.undone, key)
            && OnRecord(l.world, key) <= 1
  {
    RunTidy(START, es, key);
    var w := Run(START, es).world;
    if OpenDelivered(w, key) {
      var t :| t in w.txs && Delivered(w.txs[t], key);
      assert Tidy(w.store.posts, w.txs[t]);
    }
  }

  /* ---------- One transaction against PostReply ---------- */

  /** The transaction's rows once it has recorded the reply and, if it waits for Zendesk, has its answer. */
  ghost function Rows(w: World, x: Tx, channel: PostChannel, body: string, outcome: ZendeskReply): Tx {
    var y := Recorded(w, x, channel, body);
    if y.stage == Asking then Answered(y, outcome) else y
  }

  lemma RowsArePostReply(w: World, x: Tx, channel: PostChannel, body: string, outcome: ZendeskReply)
    ensures var duplicate := PostKey(x.job.ticket, body) in w.store.posts;
            var status := FinalStatus(body, duplicate, channel, outcome);
            var y := Rows(w, x, channel, body, outcome);
            var after := Committed(w.store, y);
            && y.stage == Ended(Settled(status))
            && after.attempts
                 == w.store.attempts[w.nextAttempt := Attempt(x.job.ticket, Kind(x.job), channel, status, body)]
            && after.posts
                 == if status == Posted then w.store.posts[PostKey(x.job.ticket, body) := OurPost(channel, Now(w))]
                    else w.store.posts
  {
    assert KeyOf(Rows(w, x, channel, body, outcome).attempt.value) == PostKey(x.job.ticket, body);
  }

  /** Recording, asking Zendesk if the transaction waits for it, and committing, as separate steps. */
  ghost function ReplySteps(l: Ledger, t: nat, channel: PostChannel, body: string, outcome: ZendeskReply): Ledger {
    var recorded := Step(l, Reply(t, channel, body));
    var answered :=
      if Enabled(recorded.world, Answer(t, outcome)) then Step(recorded, Answer(t, outcome)) else recorded;
    Step(answered, Commit(t))
  }

  lemma AskedOrNot(l: Ledger, t: nat, channel: PostChannel, body: string,
        outcome: ZendeskReply) returns (answered: Ledger)
    requires Enabled(l.world, Reply(t, channel, body))
    ensures var w := l.world;
            && t in answered.world.txs && answered.world.txs[t] == Rows(w, w.txs[t], channel, body, outcome)
            && answered.world.store == w.store
            && answered.replies
                 == l.replies
                    + (if Shown(body, PostKey(w.txs[t].job.ticket, body) in w.store.posts, channel, outcome)
                       then [Comment(w.txs[t].job.ticket, body, channel == Public)] else [])
            && ReplySteps(l, t, channel, body, outcome) == Step(answered, Commit(t))
  {
    var recorded := Step(l, Reply(t, channel, body));
    answered := if Enabled(recorded.world, Answer(t, outcome)) then Step(recorded, Answer(t, outcome)) else recorded;
  }

  /**
    As separate, interleavable steps, a reply has exactly the net effect of PostReply, on the tables and on Zendesk.
   */
  lemma StepsArePostReply(l: Ledger, t: nat, channel: PostChannel, body: string, outcome: ZendeskReply)
    requires Enabled(l.world, Reply(t, channel, body))
    ensures var w, after := l.world, ReplySteps(l, t, channel, body, outcome);
            var job := w.txs[t].job;
            var duplicate := PostKey(job.ticket, body) in w.store.posts;
            var status := FinalStatus(body, duplicate, channel, outcome);
            && after.world.store.attempts
                 == w.store.attempts[w.nextAttempt := Attempt(job.ticket, Kind(job), channel, status, body)]
            && after.world.store.posts
                 == (if status == Posted then w.store.posts[PostKey(job.ticket, body) := OurPost(channel, Now(w))]
                     else w.store.posts)
            && after.replies
                 == l.replies + if Shown(body, duplicate, channel, outcome)
                                then [Comment(job.ticket, body, channel == Public)] else []
  {
    RowsArePostReply(l.world, l.world.txs[t], channel, body, outcome);
    var answered := AskedOrNot(l, t, channel, body, outcome);
  }
}
