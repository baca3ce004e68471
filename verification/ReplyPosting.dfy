/** Posting a reply once: attempts, recorded posts and the reply handlers, with their transactions interleaved. */
module ReplyPosting {
  import JobQueue
  import opened Wrappers

  datatype PostChannel = Internal | Public | Off

  datatype JobKind = Initial | Followup

  datatype Status = Generated | Posted | Failed | SkippedDuplicate | EmptyReply

  /** Stands for the hash of ticket id and body hash, taken to be injective. */
  datatype PostKey = PostKey(ticket: int, body: string)

  datatype Attempt = Attempt(ticket: int, job: JobKind, channel: PostChannel, status: Status, body: string)

  datatype OurPost = OurPost(channel: PostChannel, createdAt: int)

  datatype Comment = Comment(ticket: int, body: string, public: bool)

  /** Zendesk accepted the comment, or the call failed; a failed call may still have left the comment. */
  datatype ZendeskReply = Accepted | Refused(landed: bool)

  function KeyOf(a: Attempt): PostKey {
    PostKey(a.ticket, a.body)
  }

  /** The status a reply attempt ends with. */
  function FinalStatus(body: string, duplicate: bool, channel: PostChannel, outcome: ZendeskReply): Status {
    if body == "" then EmptyReply
    else if duplicate then SkippedDuplicate
    else if channel == Off || outcome == Accepted then Posted
    else Failed
  }

  /** A handler run is finished for good when its reply is posted or was posted before. */
  predicate Settled(status: Status) {
    status == Posted || status == SkippedDuplicate
  }

  function Shown(body: string, duplicate: bool, channel: PostChannel, outcome: ZendeskReply): bool {
    body != "" && !duplicate && channel != Off && outcome != Refused(false)
  }

  /** What one transaction sees of the tables, and the comments on Zendesk. */
  class Session {
    var attempts: map<nat, Attempt>
    var nextAttempt: nat
    var posts: map<PostKey, OurPost>
    var comments: seq<Comment>

    ghost predicate Valid()
      reads this
    {
      forall id :: id in attempts ==> id < nextAttempt
    }

    method Create(attempt: Attempt) returns (id: nat)
      requires Valid()
      modifies this`attempts, this`nextAttempt
      ensures Valid() && id == old(nextAttempt) && nextAttempt == id + 1 && id !in old(attempts)
      ensures attempts == old(attempts)[id := attempt]
    {
      id := nextAttempt;
      attempts := attempts[id := attempt];
      nextAttempt := id + 1;
    }

    method Mark(id: nat, status: Status)
      requires id in attempts
      modifies this`attempts
      ensures attempts == old(attempts)[id := old(attempts)[id].(status := status)]
    {
      attempts := attempts[id := attempts[id].(status := status)];
    }

    /** Inserts the row unless its key is taken; tells whether it did. */
    method RecordOurPost(key: PostKey, channel: PostChannel, now: int) returns (recorded: bool)
      modifies this`posts
      ensures recorded <==> key !in old(posts)
      ensures posts == if recorded then old(posts)[key := OurPost(channel, now)] else old(posts)
    {
      recorded := key !in posts;
      if recorded {
        posts := posts[key := OurPost(channel, now)];
      }
    }

    method DeleteOurPost(key: PostKey)
      modifies this`posts
      ensures posts == old(posts) - {key}
    {
      posts := posts - {key};
    }

    method PostComment(ticket: int, body: string, public: bool, outcome: ZendeskReply) returns (success: bool)
      modifies this`comments
      ensures success <==> outcome == Accepted
      ensures comments
           == old(comments) + if outcome == Refused(false) then [] else [Comment(ticket, body, public)]
    {
      if outcome != Refused(false) {
        comments := comments + [Comment(ticket, body, public)];
      }
      success := outcome == Accepted;
    }

    /**
      The net effect of one reply: one new attempt, a recorded post exactly when it was posted, at most one comment.
     */
    method PostReply(ticket: int, job: JobKind, channel: PostChannel, reply: string, outcome: ZendeskReply, now: int)
      returns (ok: bool)
      requires Valid()
      modifies this
      ensures Valid() && nextAttempt == old(nextAttempt) + 1
      ensures var duplicate := PostKey(ticket, reply) in old(posts);
              var status := FinalStatus(reply, duplicate, channel, outcome);
              && ok == Settled(status)
              && attempts == old(attempts)[old(nextAttempt) := Attempt(ticket, job, channel, status, reply)]
              && posts
                   == (if status == Posted then old(posts)[PostKey(ticket, reply) := OurPost(channel, now)]
                       else old(posts))
              && comments == old(comments)
                 + if Shown(reply, duplicate, channel, outcome) then [Comment(ticket, reply, channel == Public)] else []
    {
      if reply == "" {
        var empty := Create(Attempt(ticket, job, channel, EmptyReply, reply));
        return false;
      }
      var key := PostKey(ticket, reply);
      var id := Create(Attempt(ticket, job, channel, Generated, reply));
      var saved := RecordOurPost(key, channel, now);
      if !saved {
        Mark(id, SkippedDuplicate);
        return true;
      }
      if channel == Off {
        Mark(id, Posted);
        return true;
      }
      var success := PostComment(ticket, reply, channel == Public, outcome);
      if success {
        Mark(id, Posted);
        return true;
      }
      DeleteOurPost(key);
      Mark(id, Failed);
      assert posts == old(posts);
      return false;
    }
  }

  /* ---------- Handlers as interleaved transactions over one committed store ---------- */

  datatype Job = InitialJob(ticket: int) | FollowupJob(ticket: int, source: string)

  function Kind(job: Job): JobKind {
    if job.InitialJob? then Initial else Followup
  }

  /** The committed tables; `writer` is history: the attempt that wrote each recorded post. */
  datatype Store = Store(
    observing: map<int, bool>,
    events: map<(int, string), int>,
    attempts: map<nat, Attempt>,
    posts: map<PostKey, OurPost>,
    writer: map<PostKey, nat>)

  datatype Stage = Opened | Passed | Asking | Ended(ok: bool)

  /** An open handler transaction and the rows it would commit. */
  datatype Tx = Tx(job: Job, stage: Stage, unobserve: bool, id: nat, attempt: Option<Attempt>, post: Option<OurPost>)

  datatype World = World(
    clock: real,
    born: map<int, int>,
    comments: map<(int, string), int>,
    store: Store,
    txs: map<nat, Tx>,
    nextTx: nat,
    nextAttempt: nat)

  const EMPTY: World := World(0.0, map[], map[], Store(map[], map[], map[], map[], map[]), map[], 0, 0)

  datatype Event =
    | Tick(to: real)
    | OpenTicket(ticket: int, source: string)
    | AddComment(ticket: int, source: string)
    | StoreTicket(ticket: int)
    | StoreEvent(ticket: int, source: string)
    | SetObserving(ticket: int, observing: bool)
    | Begin(job: Job)
    | Gate(tx: nat, service: bool)
    | Reply(tx: nat, channel: PostChannel, body: string)
    | Answer(tx: nat, outcome: ZendeskReply)
    | Commit(tx: nat)
    | Rollback(tx: nat)

  /** Database and Zendesk times are whole seconds of a clock that a `Tick` may set to anything. */
  function Now(w: World): int {
    w.clock.Floor
  }

  ghost predicate ExistsBefore(posts: map<PostKey, OurPost>, ticket: int, created: int) {
    exists k :: k in posts && k.ticket == ticket && posts[k].createdAt < created
  }

  datatype Decision = Process | Skip | Retry

  ghost function FollowupDecision(store: Store, ticket: int, source: string): Decision {
    if (ticket, source) !in store.events then Retry
    else if ExistsBefore(store.posts, ticket, store.events[(ticket, source)]) then Process
    else Skip
  }

  /** What the checks before generating a reply lead to: go on, or end the handler with its result. */
  ghost function Gated(store: Store, job: Job, service: bool): Stage {
    match job
    case InitialJob(_) => if service then Ended(true) else Passed
    case FollowupJob(ticket, source) =>
      if ticket !in store.observing || !store.observing[ticket] then Ended(true)
      else match FollowupDecision(store, ticket, source)
        case Retry => Ended(false)
        case Skip => Ended(true)
        case Process => Passed
  }

  ghost predicate Holds(x: Tx, key: PostKey) {
    x.post.Some? && x.attempt.Some? && KeyOf(x.attempt.value) == key
  }

  /** An insert of a key that another open transaction has inserted waits for that transaction. */
  ghost predicate Unblocked(w: World, tx: nat, key: PostKey) {
    forall t :: t in w.txs && t != tx ==> !Holds(w.txs[t], key)
  }

  ghost predicate Enabled(w: World, e: Event) {
    match e
    case Tick(_) => true
    case OpenTicket(ticket, source) => ticket !in w.born && (ticket, source) !in w.comments
    case AddComment(ticket, source) => ticket in w.born && (ticket, source) !in w.comments
    case StoreTicket(ticket) => ticket in w.born
    case StoreEvent(ticket, source) => ticket in w.store.observing && (ticket, source) in w.comments
    case SetObserving(ticket, _) => ticket in w.store.observing
    case Begin(job) => job.ticket in w.born
    case Gate(tx, _) => tx in w.txs && w.txs[tx].stage == Opened
    case Reply(tx, _, body) =>
      tx in w.txs && w.txs[tx].stage == Passed && w.txs[tx].job.ticket in w.store.observing
      && Unblocked(w, tx, PostKey(w.txs[tx].job.ticket, body))
    case Answer(tx, _) => tx in w.txs && w.txs[tx].stage == Asking
    case Commit(tx) => tx in w.txs && w.txs[tx].stage.Ended?
    case Rollback(tx) => tx in w.txs
  }

  /** A transaction once its attempt is inserted and its post recorded, or found to be a duplicate. */
  ghost function Recorded(w: World, x: Tx, channel: PostChannel, body: string): Tx {
    var duplicate := PostKey(x.job.ticket, body) in w.store.posts;
    var waits := body != "" && !duplicate && channel != Off;
    var status := if waits then Generated else FinalStatus(body, duplicate, channel, Accepted);
    x.(id := w.nextAttempt,
       attempt := Some(Attempt(x.job.ticket, Kind(x.job), channel, status, body)),
       post := if body == "" || duplicate then None else Some(OurPost(channel, Now(w))),
       stage := if waits then Asking else Ended(Settled(status)))
  }

  ghost function Answered(x: Tx, outcome: ZendeskReply): Tx
    requires x.attempt.Some?
  {
    var status := if outcome == Accepted then Posted else Failed;
    x.(attempt := Some(x.attempt.value.(status := status)),
       post := if outcome == Accepted then x.post else None,
       stage := Ended(Settled(status)))
  }

  ghost function Committed(s: Store, x: Tx): Store {
    var s1 := if x.unobserve then s.(observing := s.observing[x.job.ticket := false]) else s;
    var s2 := if x.attempt.Some? then s1.(attempts := s1.attempts[x.id := x.attempt.value]) else s1;
    if x.attempt.Some? && x.post.Some?
    then s2.(posts := s2.posts[KeyOf(x.attempt.value) := x.post.value],
             writer := s2.writer[KeyOf(x.attempt.value) := x.id])
    else s2
  }

  /** A stored ticket that is not observed stays so; a new one starts observed. */
  ghost function Stored(observing: map<int, bool>, ticket: int): map<int, bool> {
    if ticket in observing then observing else observing[ticket := true]
  }

  ghost function Apply(w: World, e: Event): World {
    if !Enabled(w, e) then w else
    match e
    case Tick(to) => w.(clock := to)
    case OpenTicket(ticket, source) =>
      w.(born := w.born[ticket := Now(w)], comments := w.comments[(ticket, source) := Now(w)])
    case AddComment(ticket, source) => w.(comments := w.comments[(ticket, source) := Now(w)])
    case StoreTicket(ticket) => w.(store := w.store.(observing := Stored(w.store.observing, ticket)))
    case StoreEvent(ticket, source) =>
      if (ticket, source) in w.store.events then w
      else w.(store := w.store.(events := w.store.events[(ticket, source) := w.comments[(ticket, source)]]))
    case SetObserving(ticket, observing) =>
      w.(store := w.store.(observing := w.store.observing[ticket := observing]))
    case Begin(job) => w.(txs := w.txs[w.nextTx := Tx(job, Opened, false, 0, None, None)], nextTx := w.nextTx + 1)
    case Gate(tx, service) =>
      var x := w.txs[tx];
      w.(txs := w.txs[tx := x.(stage := Gated(w.store, x.job, service), unobserve := x.job.InitialJob? && service)])
    case Reply(tx, channel, body) =>
      w.(txs := w.txs[tx := Recorded(w, w.txs[tx], channel, body)], nextAttempt := w.nextAttempt + 1)
    case Answer(tx, outcome) =>
      if w.txs[tx].attempt.Some? then w.(txs := w.txs[tx := Answered(w.txs[tx], outcome)]) else w
    case Commit(tx) => w.(store := Committed(w.store, w.txs[tx]), txs := w.txs - {tx})
    case Rollback(tx) => w.(txs := w.txs - {tx})
  }

  ghost function Exec(w: World, es: seq<Event>): World
    decreases |es|
  {
    if es == [] then w else Exec(Apply(w, es[0]), es[1..])
  }

  /* ---------- What holds of every committed store ---------- */

  /** No committed attempt is unfinished, and posted attempts and recorded posts pair off one to one by key. */
  ghost predicate Paired(s: Store) {
    && (forall id :: id in s.attempts ==> s.attempts[id].status != Generated)
    && s.writer.Keys == s.posts.Keys
    && (forall k :: k in s.writer ==>
          s.writer[k] in s.attempts && s.attempts[s.writer[k]].status == Posted && KeyOf(s.attempts[s.writer[k]]) == k)
    && (forall id :: id in s.attempts && s.attempts[id].status == Posted ==>
          KeyOf(s.attempts[id]) in s.writer && s.writer[KeyOf(s.attempts[id])] == id)
  }

  /** A recorded post of the ticket that an initial-reply job wrote, no later than `bound`. */
  ghost predicate InitialPost(s: Store, k: PostKey, ticket: int, bound: int) {
    k in s.posts && k in s.writer && s.writer[k] in s.attempts
    && k.ticket == ticket && s.posts[k].createdAt <= bound && s.attempts[s.writer[k]].job == Initial
  }

  ghost predicate HasInitial(s: Store, ticket: int, bound: int) {
    exists k :: InitialPost(s, k, ticket, bound)
  }

  ghost predicate Anchored(s: Store, k: PostKey)
    requires k in s.posts
  {
    HasInitial(s, k.ticket, s.posts[k].createdAt)
  }

  /** Posts carry times after their ticket's creation and up to now, and no follow-up post is a ticket's first. */
  ghost predicate Ordered(s: Store, born: map<int, int>, now: int) {
    && (forall k :: k in s.posts ==> k.ticket in born && born[k.ticket] <= s.posts[k].createdAt <= now)
    && (forall k {:trigger Anchored(s, k)} :: k in s.posts ==> Anchored(s, k))
  }

  ghost predicate Faithful(events: map<(int, string), int>, comments: map<(int, string), int>) {
    forall c :: c in events ==> c in comments && events[c] == comments[c]
  }

  /** The rows of an open transaction: its attempt's status fits its stage, its post is new, and both are its job's. */
  ghost predicate RowsFit(s: Store, born: map<int, int>, now: int, next: nat, x: Tx) {
    && x.job.ticket in born
    && (x.stage in {Opened, Passed} ==> x.attempt.None?)
    && (x.stage == Asking ==> x.attempt.Some?)
    && (x.attempt.None? ==> x.post.None?)
    && (x.attempt.Some? ==>
          && x.id < next && x.id !in s.attempts
          && x.attempt.value.ticket == x.job.ticket && x.attempt.value.job == Kind(x.job)
          && (if x.stage == Asking then x.attempt.value.status == Generated
              else x.attempt.value.status != Generated && x.stage == Ended(Settled(x.attempt.value.status)))
          && (x.post.Some? <==> x.attempt.value.status in {Generated, Posted}))
    && (x.post.Some? ==>
          KeyOf(x.attempt.value) !in s.posts && born[x.job.ticket] <= x.post.value.createdAt <= now)
  }

  /** A follow-up gets past its gate only for a comment later than the ticket's opening, after an initial post. */
  ghost predicate GateKept(s: Store, born: map<int, int>, comments: map<(int, string), int>, now: int, x: Tx) {
    x.job.FollowupJob? && (x.stage == Passed || x.attempt.Some?) ==>
      && (x.job.ticket, x.job.source) in comments && x.job.ticket in born
      && born[x.job.ticket] < comments[(x.job.ticket, x.job.source)]
      && HasInitial(s, x.job.ticket, if x.post.Some? then x.post.value.createdAt else now)
  }

  ghost predicate Apart(x: Tx, y: Tx) {
    && (x.attempt.Some? && y.attempt.Some? ==> x.id != y.id)
    && (x.post.Some? && y.post.Some? && x.attempt.Some? && y.attempt.Some? ==>
        KeyOf(x.attempt.value) != KeyOf(y.attempt.value))
  }

  ghost predicate AllApart(txs: map<nat, Tx>) {
    forall t, u :: t in txs && u in txs && t != u ==> Apart(txs[t], txs[u])
  }

  ghost predicate OpenFit(w: World) {
    && AllApart(w.txs)
    && forall t :: t in w.txs ==>
         && t < w.nextTx
         && RowsFit(w.store, w.born, Now(w), w.nextAttempt, w.txs[t])
         && GateKept(w.store, w.born, w.comments, Now(w), w.txs[t])
  }

  ghost predicate Numbered(w: World) {
    && (forall id :: id in w.store.attempts ==> id < w.nextAttempt)
    && (forall t :: t in w.born ==> w.born[t] <= Now(w))
  }

  ghost predicate Valid(w: World) {
    Paired(w.store) && Ordered(w.store, w.born, Now(w)) && Faithful(w.store.events, w.comments) && OpenFit(w) &&
        Numbered(w)
  }

  /* ---------- Steps of the environment ---------- */

  ghost predicate Within<K, V>(small: map<K, V>, large: map<K, V>) {
    forall k :: k in small ==> k in large && large[k] == small[k]
  }

  /** Time passes, tickets and comments appear, rows of other tables change, transactions open or vanish. */
  ghost predicate Extends(w: World, after: World) {
    && after.store.attempts == w.store.attempts && after.store.posts == w.store.posts &&
        after.store.writer == w.store.writer
    && w.clock <= after.clock && Within(w.born, after.born) && Within(w.comments, after.comments)
    && Faithful(after.store.events, after.comments)
    && after.nextAttempt == w.nextAttempt && w.nextTx <= after.nextTx
    && (forall t :: t in after.born ==> after.born[t] <= Now(after))
    && (forall t :: t in after.txs ==> t < after.nextTx)
    && (forall t :: t in after.txs ==>
          (t in w.txs && after.txs[t] == w.txs[t])
          || (after.txs[t].job.ticket in after.born &&
              after.txs[t] == Tx(after.txs[t].job, Opened, false, 0, None, None)))
  }

  lemma ClockMonotone(a: real, b: real)
    requires a <= b
    ensures a.Floor <= b.Floor
  {
  }

  lemma InitialKept(s: Store, s': Store, ticket: int, bound: int, later: int)
    requires HasInitial(s, ticket, bound) && bound <= later
    requires Within(s.posts, s'.posts) && Within(s.writer, s'.writer) && Within(s.attempts, s'.attempts)
    ensures HasInitial(s', ticket, later)
  {
    var k :| InitialPost(s, k, ticket, bound);
    assert InitialPost(s', k, ticket, later);
  }

  lemma RowsExtend(w: World, after: World, t: nat)
    requires Extends(w, after) && t in w.txs
    requires RowsFit(w.store, w.born, Now(w), w.nextAttempt, w.txs[t])
    requires GateKept(w.store, w.born, w.comments, Now(w), w.txs[t])
    ensures RowsFit(after.store, after.born, Now(after), after.nextAttempt, w.txs[t])
    ensures GateKept(after.store, after.born, after.comments, Now(after), w.txs[t])
  {
    var x := w.txs[t];
    ClockMonotone(w.clock, after.clock);
    if x.job.FollowupJob? && (x.stage == Passed || x.attempt.Some?) {
      var bound := if x.post.Some? then x.post.value.createdAt else Now(w);
      var later := if x.post.Some? then x.post.value.createdAt else Now(after);
      InitialKept(w.store, after.store, x.job.ticket, bound, later);
    }
  }

  lemma ExtendsOrdered(w: World, after: World)
    requires Extends(w, after) && Ordered(w.store, w.born, Now(w))
    ensures Ordered(after.store, after.born, Now(after))
  {
    ClockMonotone(w.clock, after.clock);
    forall k | k in after.store.posts
      ensures Anchored(after.store, k)
    {
      assert Anchored(w.store, k);
      InitialKept(w.store, after.store, k.ticket, w.store.posts[k].createdAt, w.store.posts[k].createdAt);
    }
  }

  lemma ExtendsValid(w: World, after: World)
    requires Valid(w) && Extends(w, after)
    ensures Valid(after)
  {
    ExtendsOrdered(w, after);
    forall t | t in after.txs
      ensures RowsFit(after.store, after.born, Now(after), after.nextAttempt, after.txs[t])
      ensures GateKept(after.store, after.born, after.comments, Now(after), after.txs[t])
    {
      if t in w.txs && after.txs[t] == w.txs[t] {
        RowsExtend(w, after, t);
      }
    }
    assert Paired(after.store);
    assert AllApart(after.txs);
  }

  /** The clock does not go back. */
  predicate Steady(w: World, e: Event) {
    e.Tick? ==> w.clock <= e.to
  }

  ghost predicate SteadyRun(w: World, es: seq<Event>)
    decreases |es|
  {
    es == [] || (Steady(w, es[0]) && SteadyRun(Apply(w, es[0]), es[1..]))
  }

  predicate Environmental(e: Event) {
    e.Tick? || e.OpenTicket? || e.AddComment? || e.StoreTicket? || e.StoreEvent? || e.SetObserving? || e.Begin? ||
        e.Rollback?
  }

  lemma EnvironmentExtends(w: World, e: Event)
    requires Enabled(w, e) && Environmental(e) && Numbered(w) && Faithful(w.store.events, w.comments) && Steady(w, e)
    requires forall t :: t in w.txs ==> t < w.nextTx
    ensures Extends(w, Apply(w, e))
  {
    if e.Tick? {
      ClockMonotone(w.clock, e.to);
    } else if e.OpenTicket? || e.AddComment? {
      CommentExtends(w, e);
    } else if e.StoreEvent? {
      EventExtends(w, e);
    } else if e.StoreTicket? || e.SetObserving? {
      ObservingExtends(w, e);
    } else {
      TransactionExtends(w, e);
    }
  }

  lemma CommentExtends(w: World, e: Event)
    requires Enabled(w, e) && (e.OpenTicket? || e.AddComment?) && Numbered(w) && Faithful(w.store.events, w.comments)
    requires forall t :: t in w.txs ==> t < w.nextTx
    ensures Extends(w, Apply(w, e))
  {
  }

  lemma EventExtends(w: World, e: Event)
    requires Enabled(w, e) && e.StoreEvent? && Numbered(w)
    requires Faithful(w.store.events, w.comments) && forall t :: t in w.txs ==> t < w.nextTx
    ensures Extends(w, Apply(w, e))
  {
  }

  lemma ObservingExtends(w: World, e: Event)
    requires Enabled(w, e) && (e.StoreTicket? || e.SetObserving?) && Numbered(w)
    requires Faithful(w.store.events, w.comments) && forall t :: t in w.txs ==> t < w.nextTx
    ensures Extends(w, Apply(w, e))
  {
  }

  lemma TransactionExtends(w: World, e: Event)
    requires Enabled(w, e) && (e.Begin? || e.Rollback?) && Numbered(w)
    requires Faithful(w.store.events, w.comments) && forall t :: t in w.txs ==> t < w.nextTx
    ensures Extends(w, Apply(w, e))
  {
  }

  /* ---------- Steps of one transaction ---------- */

  lemma TxReplaced(w: World, t: nat, y: Tx, next: nat)
    requires Valid(w) && t in w.txs && w.nextAttempt <= next
    requires RowsFit(w.store, w.born, Now(w), next, y) && GateKept(w.store, w.born, w.comments, Now(w), y)
    requires forall u :: u in w.txs && u != t ==> Apart(y, w.txs[u])
    ensures Valid(w.(txs := w.txs[t := y], nextAttempt := next))
  {
    var after := w.(txs := w.txs[t := y], nextAttempt := next);
    forall u | u in after.txs && u != t
      ensures RowsFit(after.store, after.born, Now(after), next, after.txs[u])
    {
      assert RowsFit(w.store, w.born, Now(w), w.nextAttempt, w.txs[u]);
    }
    assert forall u, v :: Apart(u, v) ==> Apart(v, u);
  }

  lemma GateRows(w: World, x: Tx, service: bool, y: Tx)
    requires Ordered(w.store, w.born, Now(w)) && Faithful(w.store.events, w.comments)
    requires RowsFit(w.store, w.born, Now(w), w.nextAttempt, x) && x.stage == Opened
    requires y == x.(stage := Gated(w.store, x.job, service), unobserve := x.job.InitialJob? && service)
    ensures RowsFit(w.store, w.born, Now(w), w.nextAttempt, y) && GateKept(w.store, w.born, w.comments, Now(w), y)
  {
    if x.job.FollowupJob? && y.stage == Passed {
      var ticket, created := x.job.ticket, w.store.events[(x.job.ticket, x.job.source)];
      assert ExistsBefore(w.store.posts, ticket, created);
      var k :| k in w.store.posts && k.ticket == ticket && w.store.posts[k].createdAt < created;
      assert Anchored(w.store, k);
      InitialKept(w.store, w.store, ticket, w.store.posts[k].createdAt, Now(w));
    }
  }

  lemma GateStep(w: World, e: Event)
    requires Valid(w) && Enabled(w, e) && e.Gate?
    ensures Valid(Apply(w, e))
  {
    var x := w.txs[e.tx];
    var y := x.(stage := Gated(w.store, x.job, e.service), unobserve := x.job.InitialJob? && e.service);
    GateRows(w, x, e.service, y);
    TxReplaced(w, e.tx, y, w.nextAttempt);
  }

  lemma RecordedRows(w: World, x: Tx, channel: PostChannel, body: string)
    requires RowsFit(w.store, w.born, Now(w), w.nextAttempt, x) && x.stage == Passed
    requires GateKept(w.store, w.born, w.comments, Now(w), x) && Numbered(w)
    ensures var y := Recorded(w, x, channel, body);
            && RowsFit(w.store, w.born, Now(w), w.nextAttempt + 1, y)
            && GateKept(w.store, w.born, w.comments, Now(w), y)
            && y.id == w.nextAttempt && y.attempt.Some? && KeyOf(y.attempt.value) == PostKey(x.job.ticket, body)
  {
  }

  lemma ReplyStep(w: World, e: Event)
    requires Valid(w) && Enabled(w, e) && e.Reply?
    ensures Valid(Apply(w, e))
  {
    var x := w.txs[e.tx];
    var y := Recorded(w, x, e.channel, e.body);
    RecordedRows(w, x, e.channel, e.body);
    forall u | u in w.txs && u != e.tx
      ensures Apart(y, w.txs[u])
    {
      assert RowsFit(w.store, w.born, Now(w), w.nextAttempt, w.txs[u]);
      assert !Holds(w.txs[u], PostKey(x.job.ticket, e.body));
    }
    TxReplaced(w, e.tx, y, w.nextAttempt + 1);
  }

  lemma AnsweredRows(w: World, x: Tx, outcome: ZendeskReply)
    requires RowsFit(w.store, w.born, Now(w), w.nextAttempt, x) && x.stage == Asking
    requires GateKept(w.store, w.born, w.comments, Now(w), x)
    ensures var y := Answered(x, outcome);
            && RowsFit(w.store, w.born, Now(w), w.nextAttempt, y)
            && GateKept(w.store, w.born, w.comments, Now(w), y)
            && y.id == x.id && y.attempt.Some? && KeyOf(y.attempt.value) == KeyOf(x.attempt.value)
            && (y.post.Some? ==> x.post.Some?)
  {
    if x.job.FollowupJob? && outcome != Accepted {
      InitialKept(w.store, w.store, x.job.ticket, x.post.value.createdAt, Now(w));
    }
  }

  lemma AnswerStep(w: World, e: Event)
    requires Valid(w) && Enabled(w, e) && e.Answer?
    ensures Valid(Apply(w, e))
  {
    var x := w.txs[e.tx];
    AnsweredRows(w, x, e.outcome);
    var y := Answered(x, e.outcome);
    forall u | u in w.txs && u != e.tx
      ensures Apart(y, w.txs[u])
    {
      assert Apart(x, w.txs[u]);
    }
    TxReplaced(w, e.tx, y, w.nextAttempt);
  }

  /* ---------- Committing ---------- */

  /** What committing needs to know of a transaction's rows. */
  ghost predicate Fresh(s: Store, x: Tx) {
    && (x.attempt.Some? ==> x.id !in s.attempts)
    && (x.attempt.Some? && x.post.Some? ==> KeyOf(x.attempt.value) !in s.posts)
  }

  lemma CommittedGrows(s: Store, x: Tx)
    requires s.writer.Keys == s.posts.Keys && Fresh(s, x)
    ensures var after := Committed(s, x);
            && Within(s.posts, after.posts) && Within(s.writer, after.writer) && Within(s.attempts, after.attempts)
            && after.events == s.events
  {
  }

  lemma PairedUnposted(s: Store, id: nat, a: Attempt)
    requires Paired(s) && id !in s.attempts && a.status != Generated && a.status != Posted
    ensures Paired(s.(attempts := s.attempts[id := a]))
  {
  }

  lemma PairedPosted(s: Store, id: nat, a: Attempt, post: OurPost)
    requires Paired(s) && id !in s.attempts && a.status == Posted && KeyOf(a) !in s.posts
    ensures Paired(s.(attempts := s.attempts[id := a], posts := s.posts[KeyOf(a) := post],
                      writer := s.writer[KeyOf(a) := id]))
  {
  }

  lemma CommittedPaired(s: Store, x: Tx)
    requires Paired(s) && Fresh(s, x)
    requires x.attempt.Some? ==>
               x.attempt.value.status != Generated && (x.post.Some? <==> x.attempt.value.status == Posted)
    ensures Paired(Committed(s, x))
  {
    var s1 := if x.unobserve then s.(observing := s.observing[x.job.ticket := false]) else s;
    assert Paired(s1);
    if x.attempt.Some? && x.post.Some? {
      PairedPosted(s1, x.id, x.attempt.value, x.post.value);
    } else if x.attempt.Some? {
      PairedUnposted(s1, x.id, x.attempt.value);
    }
  }

  lemma NewPostAnchored(s: Store, born: map<int, int>, comments: map<(int, string), int>, now: int, next: nat, x: Tx)
    requires Paired(s) && RowsFit(s, born, now, next, x) && GateKept(s, born, comments, now, x) && x.post.Some?
    ensures KeyOf(x.attempt.value) in Committed(s, x).posts && Anchored(Committed(s, x), KeyOf(x.attempt.value))
  {
    var after, k := Committed(s, x), KeyOf(x.attempt.value);
    if x.job.InitialJob? {
      assert InitialPost(after, k, k.ticket, after.posts[k].createdAt);
    } else {
      CommittedGrows(s, x);
      InitialKept(s, after, k.ticket, x.post.value.createdAt, x.post.value.createdAt);
    }
  }

  lemma CommittedAnchored(s: Store, born: map<int, int>, comments: map<(int, string), int>, now: int, next: nat,
        x: Tx, k: PostKey)
    requires Paired(s) && Ordered(s, born, now) && RowsFit(s, born, now, next, x) && GateKept(s, born, comments, now, x)
    requires k in Committed(s, x).posts
    ensures Anchored(Committed(s, x), k)
  {
    if k in s.posts {
      CommittedGrows(s, x);
      assert Anchored(s, k);
      InitialKept(s, Committed(s, x), k.ticket, s.posts[k].createdAt, s.posts[k].createdAt);
    } else {
      NewPostAnchored(s, born, comments, now, next, x);
    }
  }

  lemma CommittedDated(s: Store, born: map<int, int>, now: int, next: nat, x: Tx)
    requires Ordered(s, born, now) && RowsFit(s, born, now, next, x)
    ensures forall k :: k in Committed(s, x).posts ==>
              k.ticket in born && born[k.ticket] <= Committed(s, x).posts[k].createdAt <= now
  {
  }

  lemma CommittedOrdered(s: Store, born: map<int, int>, comments: map<(int, string), int>, now: int, next: nat, x: Tx)
    requires Paired(s) && Ordered(s, born, now) && RowsFit(s, born, now, next, x) && GateKept(s, born, comments, now, x)
    ensures Ordered(Committed(s, x), born, now)
  {
    CommittedDated(s, born, now, next, x);
    forall k | k in Committed(s, x).posts
      ensures Anchored(Committed(s, x), k)
    {
      CommittedAnchored(s, born, comments, now, next, x, k);
    }
  }

  lemma OthersAfterCommit(s: Store, born: map<int, int>, comments: map<(int, string), int>, now: int, next: nat,
        x: Tx, y: Tx)
    requires Paired(s) && RowsFit(s, born, now, next, x) && RowsFit(s, born, now, next, y) && Apart(y, x)
    requires GateKept(s, born, comments, now, y)
    ensures RowsFit(Committed(s, x), born, now, next, y) && GateKept(Committed(s, x), born, comments, now, y)
  {
    CommittedGrows(s, x);
    if y.job.FollowupJob? && (y.stage == Passed || y.attempt.Some?) {
      var bound := if y.post.Some? then y.post.value.createdAt else now;
      InitialKept(s, Committed(s, x), y.job.ticket, bound, bound);
    }
  }

  lemma CommitStep(w: World, tx: nat)
    requires Valid(w) && Enabled(w, Commit(tx))
    ensures Valid(Apply(w, Commit(tx)))
  {
    var x, after := w.txs[tx], Apply(w, Commit(tx));
    CommittedPaired(w.store, x);
    CommittedOrdered(w.store, w.born, w.comments, Now(w), w.nextAttempt, x);
    CommittedGrows(w.store, x);
    forall t | t in after.txs
      ensures RowsFit(after.store, after.born, Now(after), after.nextAttempt, after.txs[t])
      ensures GateKept(after.store, after.born, after.comments, Now(after), after.txs[t])
    {
      OthersAfterCommit(w.store, w.born, w.comments, Now(w), w.nextAttempt, x, w.txs[t]);
    }
  }

  lemma StepValid(w: World, e: Event)
    requires Valid(w) && Steady(w, e)
    ensures Valid(Apply(w, e))
  {
    if Enabled(w, e) {
      if Environmental(e) {
        EnvironmentExtends(w, e);
        ExtendsValid(w, Apply(w, e));
      } else if e.Gate? {
        GateStep(w, e);
      } else if e.Reply? {
        ReplyStep(w, e);
      } else if e.Answer? {
        AnswerStep(w, e);
      } else {
        CommitStep(w, e.tx);
      }
    }
  }

  lemma {:induction false} RunValid(w: World, es: seq<Event>)
    requires Valid(w) && SteadyRun(w, es)
    ensures Valid(Exec(w, es))
    decreases |es|
  {
    if es != [] {
      StepValid(w, es[0]);
      RunValid(Apply(w, es[0]), es[1..]);
    }
  }

  /** A world some run leads to in which the one clock never goes back. */
  ghost predicate Reachable(w: World) {
    exists es :: SteadyRun(EMPTY, es) && w == Exec(EMPTY, es)
  }

  lemma ReachableValid(w: World)
    requires Reachable(w)
    ensures Valid(w)
  {
    var es :| SteadyRun(EMPTY, es) && w == Exec(EMPTY, es);
    RunValid(EMPTY, es);
  }

  /* ---------- Main results ---------- */

  /**
    After any interleaving with any rollbacks: no committed attempt is unfinished, and posted attempts match posts by
    key.
   */
  lemma CommittedAttempts(w: World)
    requires Reachable(w)
    ensures forall id :: id in w.store.attempts ==> w.store.attempts[id].status != Generated
    ensures forall id :: id in w.store.attempts && w.store.attempts[id].status == Posted ==>
          KeyOf(w.store.attempts[id]) in w.store.posts
    ensures forall i, j :: i in w.store.attempts && j in w.store.attempts
              && w.store.attempts[i].status == w.store.attempts[j].status == Posted
              && KeyOf(w.store.attempts[i]) == KeyOf(w.store.attempts[j])
              ==> i == j
    ensures forall k :: k in w.store.posts ==>
              k in w.store.writer && w.store.writer[k] in w.store.attempts
              && w.store.attempts[w.store.writer[k]].status == Posted && KeyOf(w.store.attempts[w.store.writer[k]]) == k
  {
    ReachableValid(w);
  }

  /** At every moment a ticket with recorded posts has one by an initial-reply job that is as early as any other. */
  lemma FollowupsNeverFirst(w: World, k: PostKey)
    requires Reachable(w) && k in w.store.posts
    ensures exists first :: InitialPost(w.store, first, k.ticket, w.store.posts[k].createdAt)
  {
    ReachableValid(w);
    assert Anchored(w.store, k);
  }

  /** A follow-up job for a comment no later than its ticket's creation never gets as far as an attempt. */
  lemma OpeningCommentNeverAnswered(w: World, t: nat)
    requires Reachable(w) && t in w.txs && w.txs[t].job.FollowupJob?
    requires var job := w.txs[t].job;
             (job.ticket, job.source) in w.comments && job.ticket in w.born &&
                 w.comments[(job.ticket, job.source)] <= w.born[job.ticket]
    ensures w.txs[t].attempt.None? && w.txs[t].post.None? && w.txs[t].stage != Passed
  {
    ReachableValid(w);
    assert GateKept(w.store, w.born, w.comments, Now(w), w.txs[t]);
    assert RowsFit(w.store, w.born, Now(w), w.nextAttempt, w.txs[t]);
  }

  /** What the job queue sees of a handler: its transaction's result if it committed, a failure if it rolled back. */
  ghost function ResultOf(x: Tx, committed: bool): JobQueue.RawResult {
    JobQueue.RawResult(committed && x.stage == Ended(true), x.attempt.Some? &&
        x.attempt.value.status == Posted, committed)
  }

  /** Every handler run keeps the contract the job queue's bounds rest on: a committed post means a true result. */
  lemma HandlerContract(w: World, t: nat, committed: bool)
    requires Reachable(w) && t in w.txs && (committed ==> w.txs[t].stage.Ended?)
    ensures var r := ResultOf(w.txs[t], committed); (r.committed && r.posted ==> r.ok) && (!r.committed ==> !r.ok)
    ensures ResultOf(w.txs[t], committed).posted && committed <==>
            committed && Apply(w, Commit(t)).store.posts != w.store.posts
  {
    ReachableValid(w);
    assert RowsFit(w.store, w.born, Now(w), w.nextAttempt, w.txs[t]);
  }

  /* ---------- Observing ---------- */

  /** Follow-up handlers of the ticket begun since `from` have done nothing, and end with true. */
  ghost predicate Muted(w: World, ticket: int, from: nat) {
    && ticket in w.store.observing && !w.store.observing[ticket]
    && from <= w.nextTx
    && forall t :: t in w.txs && from <= t && w.txs[t].job.FollowupJob? && w.txs[t].job.ticket == ticket ==>
         w.txs[t].stage in {Opened, Ended(true)} && w.txs[t].attempt.None? && w.txs[t].post.None?
  }

  lemma MutedStep(w: World, e: Event, ticket: int, from: nat)
    requires Muted(w, ticket, from) && e != SetObserving(ticket, true)
    ensures Muted(Apply(w, e), ticket, from)
  {
  }

  /**
    Not observing is sticky: until it is set again, later follow-up handlers of the ticket end with true and post
    nothing.
   */
  lemma {:induction false} ObservingSticky(w: World, es: seq<Event>, ticket: int, from: nat)
    requires Muted(w, ticket, from) && SetObserving(ticket, true) !in es
    ensures Muted(Exec(w, es), ticket, from)
    decreases |es|
  {
    if es != [] {
      MutedStep(w, es[0], ticket, from);
      ObservingSticky(Apply(w, es[0]), es[1..], ticket, from);
    }
  }
}
