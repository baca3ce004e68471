/** The retry and dead-letter protocol of the job queues, as a step system over a broker with crashing consumers. */
module JobQueue {
  import opened Routing
  import opened Sums

  /**
    What one handler invocation did: its return value, whether a reply was posted, whether its transaction committed.
   */
  datatype RawResult = RawResult(ok: bool, posted: bool, committed: bool)

  /** A handler that posted and committed returned true; one that rolled back raised, which counts as false. */
  type HandlerResult = r: RawResult | (r.committed && r.posted ==> r.ok) && (!r.committed ==> !r.ok)
    witness RawResult(false, false, false)

  /** How a handler ends: it returns and its transaction commits, or it raises and its transaction rolls back. */
  datatype HandlerEnd = Returns(ok: bool, posted: bool) | Raises(posted: bool)

  /** A handler that returns after posting returns true. */
  type HandlerRun = h: HandlerEnd | h.Returns? && h.posted ==> h.ok
    witness Raises(false)

  function Outcome(run: HandlerRun): HandlerResult {
    match run
    case Returns(ok, posted) => RawResult(ok, posted, true)
    case Raises(posted) => RawResult(false, posted, false)
  }

  datatype Stage = Received | Running | Succeeded | Failed | Copied

  /** Done: acknowledged after success. Moved: acknowledged after a copy was published. */
  datatype Place = Queued(queue: Queue) | InFlight(process: nat, stage: Stage) | Done | Moved | Lost

  /** One physical copy of a published message; `origin` is the number of the publish call. */
  datatype Copy = Copy(origin: nat, job: JobType, brand: int, parseable: bool, attempt: nat, place: Place)

  datatype Published = Published(job: JobType, brand: int, accepted: nat)

  datatype Finished = Finished(origin: nat, result: HandlerResult)

  /** `crashes` records, crash by crash, the messages that were being handled. */
  datatype Broker = Broker(
    bindings: seq<Binding>,
    published: seq<Published>,
    copies: seq<Copy>,
    started: seq<nat>,
    finished: seq<Finished>,
    crashes: seq<set<nat>>)

  const EMPTY: Broker := Broker([], [], [], [], [], [])

  const MAX_PUBLISH_ATTEMPTS: nat := 3

  /** One publish attempt: confirmed, failed before or after the broker took the message, or raised something else. */
  datatype PublishOutcome = Confirmed | ErrorAfterAccept | ErrorBeforeAccept | Raised

  datatype Event =
    | Declare(job: JobType, brand: int)
    | Publish(job: JobType, brand: int, parseable: bool, outcomes: seq<PublishOutcome>)
    | Deliver(i: nat, process: nat)
    | Invoke(i: nat)
    | Finish(i: nat, result: HandlerResult)
    | SendCopy(i: nat)
    | Ack(i: nat)
    | Expire(i: nat)
    | Crash(process: nat)

  /* ---------- Steps ---------- */

  /** How many copies the broker holds after the publish loop. */
  function AcceptedBy(outcomes: seq<PublishOutcome>, tries: nat): (n: nat)
    ensures n <= tries
  {
    if tries == 0 || outcomes == [] then 0
    else match outcomes[0]
      case Confirmed => 1
      case ErrorAfterAccept => 1 + AcceptedBy(outcomes[1..], tries - 1)
      case ErrorBeforeAccept => AcceptedBy(outcomes[1..], tries - 1)
      case Raised => 0
  }

  /** One copy of `message` for every queue in `queues`. */
  function Put(queues: seq<Queue>, message: Copy): (copies: seq<Copy>)
    ensures |copies| == |queues|
    ensures forall k :: 0 <= k < |queues| ==> copies[k] == message.(place := Queued(queues[k]))
  {
    seq(|queues|, k requires 0 <= k < |queues| => message.(place := Queued(queues[k])))
  }

  function PutTimes(queues: seq<Queue>, message: Copy, times: nat): seq<Copy> {
    if times == 0 then [] else PutTimes(queues, message, times - 1) + Put(queues, message)
  }

  predicate Busy(c: Copy) {
    c.place.InFlight? && c.place.stage != Received
  }

  predicate SameConsumer(c: Copy, d: Copy) {
    c.place.InFlight? && d.place.InFlight? && c.place.process == d.place.process && c.job == d.job && c.brand == d.brand
  }

  /** A consumer handles one message of its queue at a time. */
  predicate Idle(copies: seq<Copy>, i: nat)
    requires i < |copies|
  {
    forall k :: 0 <= k < |copies| && k != i && Busy(copies[k]) ==> !SameConsumer(copies[k], copies[i])
  }

  predicate At(c: Copy, stage: Stage) {
    c.place.InFlight? && c.place.stage == stage
  }

  /** Events of a single copy. */
  predicate Local(e: Event) {
    !e.Declare? && !e.Publish? && !e.Crash?
  }

  predicate CopyEnabled(c: Copy, e: Event)
    requires Local(e)
  {
    match e
    case Deliver(_, _) => c.place.Queued? && c.place.queue.MainQueue?
    case Invoke(_) => c.parseable && At(c, Received)
    case Finish(_, _) => At(c, Running)
    case SendCopy(_) => At(c, Failed) || (At(c, Received) && !c.parseable)
    case Ack(_) => At(c, Succeeded) || At(c, Copied)
    case Expire(_) => c.place.Queued? && c.place.queue.RetryQueue?
  }

  predicate Enabled(b: Broker, e: Event) {
    Local(e) ==>
      && e.i < |b.copies| && CopyEnabled(b.copies[e.i], e)
      && (At(b.copies[e.i], Received) ==> Idle(b.copies, e.i))
  }

  /** The copy after its own event; an expired retry is back in the main queue of its pair. */
  function NextCopy(c: Copy, e: Event): Copy
    requires Local(e) && CopyEnabled(c, e)
  {
    match e
    case Deliver(_, process) => c.(place := InFlight(process, Received))
    case Invoke(_) => c.(place := InFlight(c.place.process, Running))
    case Finish(_, result) => c.(place := InFlight(c.place.process, if result.ok then Succeeded else Failed))
    case SendCopy(_) => c.(place := InFlight(c.place.process, Copied))
    case Ack(_) => c.(place := if At(c, Succeeded) then Done else Moved)
    case Expire(_) => c.(place := Queued(MainQueue(c.job, c.brand)))
  }

  function CopyKey(c: Copy): string {
    if c.parseable && c.attempt + 1 <= |RETRY_DELAYS| then RetryKey(c.job, c.brand, c.attempt + 1)
    else DeadKey(c.job, c.brand)
  }

  /** The copy that is published when this one failed; its attempt header counts up unless the body cannot be parsed. */
  function Successor(c: Copy): Copy {
    c.(attempt := if c.parseable then c.attempt + 1 else c.attempt)
  }

  function Recover(c: Copy, process: nat): Copy {
    if c.place.InFlight? && c.place.process == process then c.(place := Queued(MainQueue(c.job, c.brand))) else c
  }

  function Recovered(copies: seq<Copy>, process: nat): (after: seq<Copy>)
    ensures |after| == |copies|
    ensures forall k :: 0 <= k < |copies| ==> after[k] == Recover(copies[k], process)
  {
    seq(|copies|, k requires 0 <= k < |copies| => Recover(copies[k], process))
  }

  /** The messages whose handling a crash of the process interrupts: past receipt, not yet acknowledged. */
  function Struck(copies: seq<Copy>, process: nat): set<nat> {
    set k | 0 <= k < |copies| && Busy(copies[k]) && copies[k].place.process == process :: copies[k].origin
  }

  /** Copies published by a local event, one for each queue the dead-letter key is routed to. */
  function Sent(bindings: seq<Binding>, c: Copy, e: Event): seq<Copy> {
    if e.SendCopy? then Put(Route(bindings, Dlx, CopyKey(c)), Successor(c)) else []
  }

  /** An expired message is routed by the retry queue's own dead-letter key. */
  function Rerouted(bindings: seq<Binding>, c: Copy): Copy {
    var queues := Route(bindings, Jobs, PublishKey(c.job, c.brand));
    c.(place := if queues == [] then Lost else Queued(queues[0]))
  }

  function ApplyLocal(b: Broker, e: Event): Broker
    requires Local(e) && Enabled(b, e)
  {
    var c := b.copies[e.i];
    var next := if e.Expire? then Rerouted(b.bindings, c) else NextCopy(c, e);
    b.(copies := b.copies[e.i := next] + Sent(b.bindings, c, e),
       started := if e.Invoke? then b.started + [c.origin] else b.started,
       finished := if e.Finish? then b.finished + [Finished(c.origin, e.result)] else b.finished)
  }

  function ApplyPublish(b: Broker, e: Event): Broker
    requires e.Publish?
  {
    var queues := Route(b.bindings, Jobs, PublishKey(e.job, e.brand));
    var sent := PutTimes(queues, Copy(|b.published|, e.job, e.brand, e.parseable, 0, Lost),
        AcceptedBy(e.outcomes, MAX_PUBLISH_ATTEMPTS));
    b.(copies := b.copies + sent, published := b.published + [Published(e.job, e.brand, |sent|)])
  }

  /** One step; an event that is not enabled changes nothing. */
  function Apply(b: Broker, e: Event): Broker {
    if !Enabled(b, e) then b
    else if e.Declare? then b.(bindings := Topology(b.bindings, e.job, e.brand))
    else if e.Publish? then ApplyPublish(b, e)
    else if e.Crash? then
      b.(copies := Recovered(b.copies, e.process), crashes := b.crashes + [Struck(b.copies, e.process)])
    else ApplyLocal(b, e)
  }

  function Exec(b: Broker, es: seq<Event>): Broker
    decreases |es|
  {
    if es == [] then b else Exec(Apply(b, es[0]), es[1..])
  }

  /* ---------- What every step keeps ---------- */

  ghost predicate InPlace(c: Copy) {
    && (!c.parseable ==> c.attempt == 0)
    && match c.place
       case Queued(MainQueue(job, brand)) => job == c.job && brand == c.brand && c.attempt <= MAX_RETRIES
       case Queued(RetryQueue(job, brand, n)) => job == c.job && brand == c.brand && c.parseable &&
           c.attempt == n && 1 <= n <= MAX_RETRIES
       case Queued(DeadQueue(job, brand)) =>
         job == c.job && brand == c.brand && c.attempt == if c.parseable then MAX_RETRIES + 1 else 0
       case InFlight(_, stage) => c.attempt <= MAX_RETRIES && (stage in {Running, Succeeded, Failed} ==> c.parseable)
       case Done => c.parseable && c.attempt <= MAX_RETRIES
       case Moved => c.attempt <= MAX_RETRIES
       case Lost => false
  }

  ghost predicate OfPublished(published: seq<Published>, c: Copy) {
    c.origin < |published| && published[c.origin].job == c.job && published[c.origin].brand == c.brand
  }

  /** Every copy is where its attempt allows, and belongs to a publish call of its own pair. */
  ghost predicate Placed(published: seq<Published>, copies: seq<Copy>) {
    forall k :: 0 <= k < |copies| ==> InPlace(copies[k]) && OfPublished(published, copies[k])
  }

  ghost predicate Sequential(copies: seq<Copy>) {
    forall i, k :: 0 <= i < k < |copies| && Busy(copies[i]) && Busy(copies[k]) ==> !SameConsumer(copies[i], copies[k])
  }

  ghost predicate Wired(bindings: seq<Binding>, copies: seq<Copy>) {
    && ValidTopology(bindings)
    && forall k :: 0 <= k < |copies| ==> Declared(bindings, copies[k].job, copies[k].brand)
  }

  ghost predicate Logged(b: Broker) {
    && (forall k :: 0 <= k < |b.started| ==> b.started[k] < |b.published|)
    && (forall k :: 0 <= k < |b.finished| ==> b.finished[k].origin < |b.published|)
  }

  ghost predicate Valid(b: Broker) {
    Wired(b.bindings, b.copies) && Placed(b.published, b.copies) && Sequential(b.copies) && Logged(b)
  }

  function CopyQueue(c: Copy): Queue {
    if c.parseable && c.attempt + 1 <= MAX_RETRIES then RetryQueue(c.job, c.brand, c.attempt + 1)
    else DeadQueue(c.job, c.brand)
  }

  /** Failing sends exactly one copy, to the pair's own retry or dead queue; with brand id 0 it sends none. */
  function Copies(c: Copy, e: Event): seq<Copy> {
    if e.SendCopy? && c.brand != 0 then [Successor(c).(place := Queued(CopyQueue(c)))] else []
  }

  lemma SentQueues(bindings: seq<Binding>, c: Copy)
    requires ValidTopology(bindings) && Declared(bindings, c.job, c.brand)
    ensures Route(bindings, Dlx, CopyKey(c)) == if c.brand == 0 then [] else [CopyQueue(c)]
  {
    if c.parseable && c.attempt + 1 <= MAX_RETRIES {
      RouteRetry(bindings, c.job, c.brand, c.attempt + 1);
    } else {
      RouteDead(bindings, c.job, c.brand);
    }
  }

  lemma SentIsCopies(bindings: seq<Binding>, c: Copy, e: Event)
    requires Route(bindings, Dlx, CopyKey(c)) == if c.brand == 0 then [] else [CopyQueue(c)]
    ensures Sent(bindings, c, e) == Copies(c, e)
  {
  }

  /** Routing does what the step says: the copy moves as its own event demands and the right copy is sent. */
  lemma LocalEffect(b: Broker, e: Event)
    requires Wired(b.bindings, b.copies) && Local(e) && Enabled(b, e)
    ensures var c := b.copies[e.i];
            Apply(b, e).copies == b.copies[e.i := NextCopy(c, e)] + Copies(c, e)
  {
    var c := b.copies[e.i];
    SentQueues(b.bindings, c);
    SentIsCopies(b.bindings, c, e);
    RoutePublish(b.bindings, c.job, c.brand);
  }

  lemma {:induction false} PutTimesOne(q: Queue, message: Copy, times: nat)
    ensures PutTimes([q], message, times) == seq(times, _ => message.(place := Queued(q)))
  {
    if times > 0 {
      PutTimesOne(q, message, times - 1);
    }
  }

  lemma {:induction false} PutTimesNone(message: Copy, times: nat)
    ensures PutTimes([], message, times) == []
  {
    if times > 0 {
      PutTimesNone(message, times - 1);
    }
  }

  ghost function Fresh(b: Broker, e: Event): Copy
    requires e.Publish?
  {
    Copy(|b.published|, e.job, e.brand, e.parseable, 0, Queued(MainQueue(e.job, e.brand)))
  }

  /** A publish adds that many equal copies to the pair's main queue, or none when the pair is not declared. */
  lemma PublishEffect(b: Broker, e: Event) returns (n: nat)
    requires ValidTopology(b.bindings) && e.Publish?
    ensures n == if Declared(b.bindings, e.job, e.brand) then AcceptedBy(e.outcomes, MAX_PUBLISH_ATTEMPTS) else 0
    ensures Apply(b, e).copies == b.copies + seq(n, _ => Fresh(b, e))
    ensures Apply(b, e).published == b.published + [Published(e.job, e.brand, n)]
  {
    RoutePublish(b.bindings, e.job, e.brand);
    var message := Copy(|b.published|, e.job, e.brand, e.parseable, 0, Lost);
    n := AcceptedBy(e.outcomes, MAX_PUBLISH_ATTEMPTS);
    if Declared(b.bindings, e.job, e.brand) {
      PutTimesOne(MainQueue(e.job, e.brand), message, n);
    } else {
      PutTimesNone(message, n);
      n := 0;
    }
  }

  lemma NextInPlace(c: Copy, e: Event)
    requires InPlace(c) && Local(e) && CopyEnabled(c, e)
    ensures InPlace(NextCopy(c, e))
    ensures forall d :: d in Copies(c, e) ==> InPlace(d)
  {
  }

  lemma LocalPlaced(published: seq<Published>, copies: seq<Copy>, e: Event)
    requires Placed(published, copies)
    requires Local(e) && e.i < |copies| && CopyEnabled(copies[e.i], e)
    ensures Placed(published, copies[e.i := NextCopy(copies[e.i], e)] + Copies(copies[e.i], e))
  {
    NextInPlace(copies[e.i], e);
  }

  lemma LocalSequential(copies: seq<Copy>, e: Event)
    requires Sequential(copies)
    requires Local(e) && e.i < |copies| && CopyEnabled(copies[e.i], e)
    requires At(copies[e.i], Received) ==> Idle(copies, e.i)
    ensures Sequential(copies[e.i := NextCopy(copies[e.i], e)] + Copies(copies[e.i], e))
  {
    var next := NextCopy(copies[e.i], e);
    var after := copies[e.i := next] + Copies(copies[e.i], e);
    assert Busy(next) ==> SameConsumer(copies[e.i], next);
    forall i, k | 0 <= i < k < |after| && Busy(after[i]) && Busy(after[k])
      ensures !SameConsumer(after[i], after[k])
    {
      assert k < |copies|;
      assert Busy(copies[e.i]) || At(copies[e.i], Received) || !Busy(next);
    }
  }

  lemma LocalWired(bindings: seq<Binding>, copies: seq<Copy>, e: Event)
    requires Wired(bindings, copies)
    requires Local(e) && e.i < |copies| && CopyEnabled(copies[e.i], e)
    ensures Wired(bindings, copies[e.i := NextCopy(copies[e.i], e)] + Copies(copies[e.i], e))
  {
    var after := copies[e.i := NextCopy(copies[e.i], e)] + Copies(copies[e.i], e);
    forall k | 0 <= k < |after|
      ensures Declared(bindings, after[k].job, after[k].brand)
    {
      if k >= |copies| || k == e.i {
        assert after[k].job == copies[e.i].job && after[k].brand == copies[e.i].brand;
      }
    }
  }

  lemma DeclareWired(b: Broker, e: Event)
    requires Wired(b.bindings, b.copies) && e.Declare?
    ensures Wired(Apply(b, e).bindings, b.copies)
  {
    TopologyDeclared(b.bindings, e.job, e.brand);
  }

  lemma PublishValid(b: Broker, e: Event)
    requires Valid(b) && e.Publish?
    ensures Valid(Apply(b, e))
  {
    var after := Apply(b, e);
    var n := PublishEffect(b, e);
    assert InPlace(Fresh(b, e));
    assert forall k :: |b.copies| <= k < |after.copies| ==> after.copies[k] == Fresh(b, e);
    assert forall k :: 0 <= k < |b.copies| ==> after.copies[k] == b.copies[k];
  }

  lemma ApplyValid(b: Broker, e: Event)
    requires Valid(b)
    ensures Valid(Apply(b, e))
  {
    if Enabled(b, e) {
      if e.Declare? {
        DeclareWired(b, e);
      } else if e.Publish? {
        PublishValid(b, e);
      } else if e.Crash? {
        CrashValid(b, e.process);
      } else {
        LocalEffect(b, e);
        LocalWired(b.bindings, b.copies, e);
        LocalPlaced(b.published, b.copies, e);
        LocalSequential(b.copies, e);
        assert OfPublished(b.published, b.copies[e.i]);
      }
    }
  }

  lemma CrashValid(b: Broker, process: nat)
    requires Valid(b)
    ensures Valid(Apply(b, Crash(process)))
  {
    var after := Recovered(b.copies, process);
    assert forall k :: 0 <= k < |after| ==> InPlace(b.copies[k]) && OfPublished(b.published, b.copies[k]);
  }

  /* ---------- Measures over the copies of one published message ---------- */

  function Accepted(b: Broker, o: nat): nat {
    if o < |b.published| then b.published[o].accepted else 0
  }

  /** Crashes that interrupted the handling of message `o`. */
  function Hits(crashes: seq<set<nat>>, o: nat): (n: nat)
    ensures n <= |crashes|
  {
    if crashes == [] then 0
    else Hits(crashes[..|crashes| - 1], o) + if o in crashes[|crashes| - 1] then 1 else 0
  }

  /** Handler invocations a copy can still cause. */
  function Weight(c: Copy): int {
    if !c.parseable then 0 else
    match c.place
    case Queued(DeadQueue(_, _)) => 0
    case Queued(_) => MAX_RETRIES + 1 - c.attempt
    case InFlight(_, Received) => MAX_RETRIES + 1 - c.attempt
    case InFlight(_, Running) => MAX_RETRIES - c.attempt
    case InFlight(_, Failed) => MAX_RETRIES - c.attempt
    case _ => 0
  }

  /** 1 for a copy whose handler may still be invoked or is running or failed, before its successor was sent. */
  function Liveness(c: Copy): int {
    match c.place
    case Queued(DeadQueue(_, _)) => 0
    case Queued(_) => 1
    case InFlight(_, stage) => if stage in {Received, Running, Failed} then 1 else 0
    case _ => 0
  }

  /** 1 for a copy that is where the message is: queued, in flight with no successor sent, or done. */
  function Holding(c: Copy): int {
    match c.place
    case Queued(_) => 1
    case InFlight(_, stage) => if stage == Copied then 0 else 1
    case Done => 1
    case _ => 0
  }

  datatype Measure = Weights | Live | Holders

  function Value(m: Measure, c: Copy): int {
    match m
    case Weights => Weight(c)
    case Live => Liveness(c)
    case Holders => Holding(c)
  }

  function Of(m: Measure, o: nat): Copy -> int {
    (c: Copy) => if c.origin == o then Value(m, c) else 0
  }

  function Total(b: Broker, m: Measure, o: nat): int {
    Sum(b.copies, Of(m, o))
  }

  function IsNumber(o: nat): nat -> int {
    (n: nat) => if n == o then 1 else 0
  }

  function Invocations(b: Broker, o: nat): int {
    Sum(b.started, IsNumber(o))
  }

  function IsPost(o: nat, committed: bool): Finished -> int {
    (f: Finished) => if f.origin == o && f.result.posted && f.result.committed == committed then 1 else 0
  }

  /** Handler runs of message `o` that posted a reply and then committed, or then rolled back. */
  function Posts(b: Broker, o: nat, committed: bool): int {
    Sum(b.finished, IsPost(o, committed))
  }

  /** What a local event counts towards the measured total: an invocation, or a committed post. */
  function Counted(m: Measure, e: Event): int {
    match m
    case Weights => if e.Invoke? then 1 else 0
    case Live => if e.Finish? && e.result.posted && e.result.committed then 1 else 0
    case Holders => 0
  }

  function SentValue(m: Measure, c: Copy, e: Event): int {
    if Copies(c, e) == [] then 0 else Value(m, Copies(c, e)[0])
  }

  /** A copy pays for what its event counts and for the copy it sends; holding is passed on exactly. */
  lemma LocalBalance(m: Measure, c: Copy, e: Event)
    requires InPlace(c) && Local(e) && CopyEnabled(c, e)
    ensures Value(m, NextCopy(c, e)) + SentValue(m, c, e) + Counted(m, e) <= Value(m, c)
    ensures c.brand != 0 ==> Value(Holders, NextCopy(c, e)) + SentValue(Holders, c, e) == Value(Holders, c)
  {
  }

  lemma LocalTotal(b: Broker, e: Event, m: Measure, o: nat)
    requires Valid(b) && Local(e) && Enabled(b, e)
    ensures var c := b.copies[e.i];
            Total(Apply(b, e), m, o)
              == Total(b, m, o)
                 + if c.origin == o then Value(m, NextCopy(c, e)) + SentValue(m, c, e) - Value(m, c) else 0
  {
    var c, f := b.copies[e.i], Of(m, o);
    var next := NextCopy(c, e);
    LocalEffect(b, e);
    SumUpdate(b.copies, e.i, next, f);
    if Copies(c, e) == [] {
      assert b.copies[e.i := next] + Copies(c, e) == b.copies[e.i := next];
    } else {
      SumAppend(b.copies[e.i := next], Copies(c, e)[0], f);
    }
  }

  lemma {:induction false} SumOfFresh(c: Copy, n: nat, m: Measure, o: nat)
    requires c.place == Queued(MainQueue(c.job, c.brand)) && c.attempt == 0
    ensures Sum(seq(n, _ => c), Of(m, o))
         == if c.origin != o then 0 else if m.Weights? then if c.parseable then (MAX_RETRIES + 1) * n else 0 else n
  {
    if n > 0 {
      assert seq(n, _ => c)[1..] == seq(n - 1, _ => c);
      SumOfFresh(c, n - 1, m, o);
    }
  }

  lemma {:induction false} SumOfNone<T>(s: seq<T>, f: T -> int)
    requires forall x :: x in s ==> f(x) == 0
    ensures Sum(s, f) == 0
  {
    if s != [] {
      SumOfNone(s[1..], f);
    }
  }

  /** A message not yet published has no copies, no invocations and no posts. */
  lemma Unpublished(b: Broker, m: Measure, o: nat)
    requires Placed(b.published, b.copies) && Logged(b) && |b.published| <= o
    ensures Total(b, m, o) == 0 && Invocations(b, o) == 0 && Posts(b, o, true) == 0
  {
    SumOfNone(b.copies, Of(m, o));
    SumOfNone(b.started, IsNumber(o));
    SumOfNone(b.finished, IsPost(o, true));
  }

  /** A publish raises a measure of its own message only: by one fresh copy's value for each accepted copy. */
  lemma PublishTotal(b: Broker, e: Event, m: Measure, o: nat)
    requires Valid(b) && e.Publish?
    ensures o != |b.published| ==>
          Total(Apply(b, e), m, o) == Total(b, m, o) && Accepted(Apply(b, e), o) == Accepted(b, o)
    ensures o == |b.published| ==> Total(Apply(b, e), m, o) <= Budget(m, Accepted(Apply(b, e), o))
    ensures o == |b.published| && !m.Weights? ==> Total(Apply(b, e), m, o) == Accepted(Apply(b, e), o)
  {
    var n := PublishEffect(b, e);
    var c := Fresh(b, e);
    SumConcat(b.copies, seq(n, _ => c), Of(m, o));
    SumOfFresh(c, n, m, o);
    if o == |b.published| {
      Unpublished(b, m, o);
    }
  }

  /** What `n` accepted copies and interruptions may add to a measure. */
  function Budget(m: Measure, n: nat): nat {
    if m.Weights? then (MAX_RETRIES + 1) * n else n
  }

  lemma RecoverGain(m: Measure, c: Copy, process: nat)
    requires InPlace(c)
    ensures Value(m, c) <= Value(m, Recover(c, process)) <= Value(m, c) + Budget(m, 1)
    ensures Value(m, c) < Value(m, Recover(c, process)) ==> Busy(c) && c.place.process == process
  {
  }

  lemma CrashTotal(b: Broker, process: nat, m: Measure, o: nat)
    requires Valid(b)
    ensures Total(b, m, o) <= Total(Apply(b, Crash(process)), m, o)
         <= Total(b, m, o) + if o in Struck(b.copies, process) then Budget(m, 1) else 0
    ensures Hits(Apply(b, Crash(process)).crashes, o)
         == Hits(b.crashes, o) + if o in Struck(b.copies, process) then 1 else 0
  {
    CrashSum(b.published, b.copies, process, m, o);
    assert (b.crashes + [Struck(b.copies, process)])[..|b.crashes|] == b.crashes;
  }

  /**
    A crash puts back at most one copy of a message that was past being received, and that of a struck message only.
   */
  lemma CrashSum(published: seq<Published>, copies: seq<Copy>, process: nat, m: Measure, o: nat)
    requires Placed(published, copies) && Sequential(copies)
    ensures Sum(copies, Of(m, o)) <= Sum(Recovered(copies, process), Of(m, o))
         <= Sum(copies, Of(m, o)) + if o in Struck(copies, process) then Budget(m, 1) else 0
  {
    var after, f := Recovered(copies, process), Of(m, o);
    forall k | 0 <= k < |copies|
      ensures f(copies[k]) <= f(after[k]) <= f(copies[k]) + Budget(m, 1)
      ensures f(copies[k]) < f(after[k]) ==>
            copies[k].origin == o && Busy(copies[k]) && copies[k].place.process == process
    {
      RecoverGain(m, copies[k], process);
    }
    SumNoLoss(copies, after, f);
    if o in Struck(copies, process) {
      var at := GainingCopy(published, copies, process, m, o);
      SumGainAtOne(copies, after, f, at, Budget(m, 1));
    } else {
      SumGainAtOne(copies, after, f, -1, 0);
    }
  }

  lemma GainingCopy(published: seq<Published>, copies: seq<Copy>, process: nat, m: Measure, o: nat) returns (at: int)
    requires Placed(published, copies) && Sequential(copies)
    ensures forall k :: 0 <= k < |copies| && k != at ==> Of(m, o)(Recovered(copies, process)[k]) <= Of(m, o)(copies[k])
  {
    if k :| 0 <= k < |copies| && copies[k].origin == o && Busy(copies[k]) && copies[k].place.process == process {
      at := k;
    } else {
      at := -1;
    }
    forall k | 0 <= k < |copies| && k != at
      ensures Of(m, o)(Recovered(copies, process)[k]) <= Of(m, o)(copies[k])
    {
      RecoverGain(m, copies[k], process);
      if copies[k].origin == o && Busy(copies[k]) && copies[k].place.process == process {
        assert SameConsumer(copies[k], copies[at]) && SameConsumer(copies[at], copies[k]);
        assert false;
      }
    }
  }

  lemma TotalNonNegative(b: Broker, m: Measure, o: nat)
    requires Placed(b.published, b.copies)
    ensures 0 <= Total(b, m, o)
    ensures forall c :: c in b.copies && c.origin == o ==> Value(m, c) <= Total(b, m, o)
  {
    forall c | c in b.copies
      ensures 0 <= Of(m, o)(c)
    {
      var k :| 0 <= k < |b.copies| && b.copies[k] == c;
      assert InPlace(b.copies[k]);
    }
    SumLowerBound(b.copies, Of(m, o));
    assert forall c :: c in b.copies && c.origin == o ==> Of(m, o)(c) == Value(m, c);
  }

  /* ---------- One bound for invocations, places and posts ---------- */

  function Count(b: Broker, m: Measure, o: nat): int {
    match m
    case Weights => Invocations(b, o)
    case Live => Posts(b, o, true)
    case Holders => 0
  }

  /**
    What has been counted plus what copies can still cause never exceeds a budget per accepted copy and interruption.
   */
  ghost predicate Bounded(b: Broker, m: Measure, o: nat) {
    Count(b, m, o) + Total(b, m, o) <= Budget(m, Accepted(b, o) + Hits(b.crashes, o))
  }

  lemma CountStep(b: Broker, e: Event, m: Measure, o: nat)
    requires Local(e) && Enabled(b, e)
    ensures Count(Apply(b, e), m, o) == Count(b, m, o) + if b.copies[e.i].origin == o then Counted(m, e) else 0
  {
    if e.Invoke? {
      SumAppend(b.started, b.copies[e.i].origin, IsNumber(o));
    } else if e.Finish? {
      SumAppend(b.finished, Finished(b.copies[e.i].origin, e.result), IsPost(o, true));
    }
  }

  lemma BoundedStep(b: Broker, e: Event, m: Measure, o: nat)
    requires Valid(b) && Bounded(b, m, o)
    ensures Bounded(Apply(b, e), m, o)
  {
    if Enabled(b, e) {
      if e.Publish? {
        PublishBounded(b, e, m, o);
      } else if e.Crash? {
        CrashTotal(b, e.process, m, o);
      } else if Local(e) {
        LocalTotal(b, e, m, o);
        LocalBalance(m, b.copies[e.i], e);
        CountStep(b, e, m, o);
      }
    }
  }

  lemma PublishBounded(b: Broker, e: Event, m: Measure, o: nat)
    requires Valid(b) && Bounded(b, m, o) && e.Publish?
    ensures Bounded(Apply(b, e), m, o)
  {
    PublishTotal(b, e, m, o);
    if o == |b.published| {
      Unpublished(b, m, o);
    }
  }

  lemma {:induction false} BoundedRun(b: Broker, es: seq<Event>, m: Measure, o: nat)
    requires Valid(b) && Bounded(b, m, o)
    ensures Bounded(Exec(b, es), m, o) && Valid(Exec(b, es))
    decreases |es|
  {
    if es != [] {
      ApplyValid(b, es[0]);
      BoundedStep(b, es[0], m, o);
      BoundedRun(Apply(b, es[0]), es[1..], m, o);
    }
  }

  /** A broker some run of events leads to. */
  ghost predicate Reachable(b: Broker) {
    exists es :: b == Exec(EMPTY, es)
  }

  lemma ReachableBounded(b: Broker, m: Measure, o: nat)
    requires Reachable(b)
    ensures Valid(b) && Bounded(b, m, o)
  {
    var es :| b == Exec(EMPTY, es);
    BoundedRun(EMPTY, es, m, o);
  }

  lemma WithinBudget(b: Broker, m: Measure, o: nat)
    requires Reachable(b)
    ensures 0 <= Total(b, m, o) && Bounded(b, m, o)
  {
    ReachableBounded(b, m, o);
    TotalNonNegative(b, m, o);
  }

  lemma FourEach(n: nat)
    ensures Budget(Weights, n) == (|RETRY_DELAYS| + 1) * n
  {
    assert |RETRY_DELAYS| == MAX_RETRIES;
  }

  /**
    In every run, a message's handler is invoked at most 4 * (accepted copies + k) times, where k counts only the
    crashes that interrupted the handling of this very message; that is at most all crashes of the run.
   */
  lemma RetryBound(b: Broker, o: nat)
    requires Reachable(b)
    ensures Invocations(b, o) <= (|RETRY_DELAYS| + 1) * (Accepted(b, o) + Hits(b.crashes, o))
    ensures Hits(b.crashes, o) <= |b.crashes|
  {
    WithinBudget(b, Weights, o);
    FourEach(Accepted(b, o) + Hits(b.crashes, o));
  }

  /* ---------- Conservation ---------- */

  ghost predicate Kept(b: Broker, o: nat) {
    o < |b.published| && b.published[o].brand != 0 ==> Accepted(b, o) <= Total(b, Holders, o)
  }

  lemma KeptStep(b: Broker, e: Event, o: nat)
    requires Valid(b) && Kept(b, o)
    ensures Kept(Apply(b, e), o)
  {
    if Enabled(b, e) {
      if e.Publish? {
        PublishTotal(b, e, Holders, o);
        var n := PublishEffect(b, e);
      } else if e.Crash? {
        CrashTotal(b, e.process, Holders, o);
      } else if Local(e) {
        LocalTotal(b, e, Holders, o);
        LocalBalance(Holders, b.copies[e.i], e);
        assert OfPublished(b.published, b.copies[e.i]);
      }
    }
  }

  lemma {:induction false} KeptRun(b: Broker, es: seq<Event>, o: nat)
    requires Valid(b) && Kept(b, o)
    ensures Kept(Exec(b, es), o)
    decreases |es|
  {
    if es != [] {
      ApplyValid(b, es[0]);
      KeptStep(b, es[0], o);
      KeptRun(Apply(b, es[0]), es[1..], o);
    }
  }

  /** No run loses a message with a non-zero brand id; uninterrupted, it is in exactly one place per accepted copy. */
  lemma Conservation(b: Broker, o: nat)
    requires Reachable(b) && o < |b.published| && b.published[o].brand != 0
    ensures Accepted(b, o) <= Total(b, Holders, o) <= Accepted(b, o) + Hits(b.crashes, o)
  {
    WithinBudget(b, Holders, o);
    var es :| b == Exec(EMPTY, es);
    KeptRun(EMPTY, es, o);
  }

  /** Where a copy of a message can be: only in queues of its own pair, with the attempt its queue stands for. */
  lemma PlacedByAttempt(b: Broker, c: Copy)
    requires Reachable(b) && c in b.copies
    ensures c.origin < |b.published| && c.place != Lost
    ensures c.place.Queued? ==>
      c.place.queue.job == b.published[c.origin].job && c.place.queue.brand == b.published[c.origin].brand
    ensures c.place.Queued? && c.place.queue.RetryQueue? ==>
          c.attempt == c.place.queue.n && 1 <= c.attempt <= |RETRY_DELAYS|
    ensures c.place.Queued? && c.place.queue.DeadQueue? ==> c.attempt == if c.parseable then |RETRY_DELAYS| + 1 else 0
  {
    ReachableBounded(b, Holders, c.origin);
    var k :| 0 <= k < |b.copies| && b.copies[k] == c;
    assert InPlace(b.copies[k]) && OfPublished(b.published, b.copies[k]);
  }

  /** A failed invocation, start to finish. */
  function Failing(i: nat, result: HandlerResult): seq<Event> {
    [Invoke(i)] + ([Finish(i, result)] + ([SendCopy(i)] + [Ack(i)]))
  }

  /** One local event: its copy changes as its event demands, and holding is lost only by sending for brand id 0. */
  lemma HolderStep(b: Broker, e: Event, o: nat)
    requires Valid(b) && Local(e) && Enabled(b, e) && b.copies[e.i].origin == o
    ensures Valid(Apply(b, e)) && e.i < |Apply(b, e).copies|
    ensures Apply(b, e).copies[e.i] == NextCopy(b.copies[e.i], e)
    ensures Total(Apply(b, e), Holders, o)
         == Total(b, Holders, o) - if e.SendCopy? && b.copies[e.i].brand == 0 then 1 else 0
  {
    ApplyValid(b, e);
    LocalEffect(b, e);
    LocalTotal(b, e, Holders, o);
    assert InPlace(b.copies[e.i]);
    HoldingPassed(b.copies[e.i], e);
  }

  lemma HoldingPassed(c: Copy, e: Event)
    requires InPlace(c) && Local(e) && CopyEnabled(c, e)
    ensures Holding(NextCopy(c, e)) + SentValue(Holders, c, e)
         == Holding(c) - if e.SendCopy? && c.brand == 0 then 1 else 0
  {
  }

  /** A failed invocation loses its message exactly when the brand id is 0: that header counts as missing. */
  lemma FailureLosesIffBrandZero(b: Broker, i: nat, result: HandlerResult)
    requires Valid(b) && Enabled(b, Invoke(i)) && !result.ok
    ensures Total(Exec(b, Failing(i, result)), Holders, b.copies[i].origin)
         == Total(b, Holders, b.copies[i].origin) - if b.copies[i].brand == 0 then 1 else 0
  {
    var o := b.copies[i].origin;
    HolderStep(b, Invoke(i), o);
    var b1 := Apply(b, Invoke(i));
    HolderStep(b1, Finish(i, result), o);
    SentTail(Apply(b1, Finish(i, result)), i, o);
    ExecHandled(b, Invoke(i), Finish(i, result), [SendCopy(i)] + [Ack(i)]);
  }

  /** A message of the pair is in fewer places than copies of it were accepted. */
  ghost predicate Loses(b: Broker, job: JobType, brand: int) {
    exists o :: 0 <= o < |b.published| && b.published[o].job == job && b.published[o].brand == brand
                && Total(b, Holders, o) < Accepted(b, o)
  }

  lemma PublishedOnce(job: JobType, brand: int) returns (b: Broker)
    ensures b == Apply(Apply(EMPTY, Declare(job, brand)), Event.Publish(job, brand, true, [Confirmed]))
    ensures Valid(b) && b.published == [Published(job, brand, 1)]
    ensures b.copies == [Copy(0, job, brand, true, 0, Queued(MainQueue(job, brand)))]
  {
    var declare, publish := Declare(job, brand), Event.Publish(job, brand, true, [Confirmed]);
    var declared := Apply(EMPTY, declare);
    ApplyValid(EMPTY, declare);
    TopologyDeclared([], job, brand);
    ApplyValid(declared, publish);
    var n := PublishEffect(declared, publish);
    b := Apply(declared, publish);
    assert b.copies == [Fresh(declared, publish)];
  }

  /** Declared, published, delivered. */
  lemma DeliveredRun(job: JobType, brand: int) returns (es: seq<Event>, b: Broker)
    ensures b == Exec(EMPTY, es) && Valid(b) && b.published == [Published(job, brand, 1)]
    ensures b.copies == [Copy(0, job, brand, true, 0, InFlight(0, Received))]
  {
    var declare, publish, deliver := Declare(job, brand), Event.Publish(job, brand, true, [Confirmed]), Deliver(0, 0);
    var published := PublishedOnce(job, brand);
    b := Apply(published, deliver);
    ApplyValid(published, deliver);
    LocalEffect(published, deliver);
    es := [declare] + ([publish] + [deliver]);
    ExecHandled(EMPTY, declare, publish, [deliver]);
    ExecOne(published, deliver);
  }

  lemma OneHolder(b: Broker, c: Copy)
    requires b.copies == [c] && Holding(c) == 1
    ensures Total(b, Holders, c.origin) == 1
  {
    assert b.copies[1..] == [] && Sum(b.copies[1..], Of(Holders, c.origin)) == 0;
  }

  lemma LostAfterFailing(b: Broker, job: JobType, failure: HandlerResult)
    requires Valid(b) && b.published == [Published(job, 0, 1)] && !failure.ok
    requires b.copies == [Copy(0, job, 0, true, 0, InFlight(0, Received))]
    ensures Loses(Exec(b, Failing(0, failure)), job, 0)
  {
    OneHolder(b, b.copies[0]);
    FailureLosesIffBrandZero(b, 0, failure);
    FailingKeepsPublished(b, 0, failure);
    var after := Exec(b, Failing(0, failure));
    assert after.published[0] == Published(job, 0, 1) && Total(after, Holders, 0) < Accepted(after, 0);
  }

  lemma BrandZeroLoses(job: JobType)
    ensures exists es :: Loses(Exec(EMPTY, es), job, 0)
  {
    var start, b := DeliveredRun(job, 0);
    var failing := Failing(0, RawResult(false, false, false));
    LostAfterFailing(b, job, RawResult(false, false, false));
    ExecConcat(EMPTY, start, failing);
    assert Loses(Exec(EMPTY, start + failing), job, 0);
  }

  lemma FailingKeepsPublished(b: Broker, i: nat, result: HandlerResult)
    ensures Exec(b, Failing(i, result)).published == b.published
  {
    ExecHandled(b, Invoke(i), Finish(i, result), [SendCopy(i)] + [Ack(i)]);
    ExecTwo(Apply(Apply(b, Invoke(i)), Finish(i, result)), SendCopy(i), Ack(i));
  }

  lemma {:induction false} ExecConcat(b: Broker, es: seq<Event>, fs: seq<Event>)
    ensures Exec(b, es + fs) == Exec(Exec(b, es), fs)
    decreases |es|
  {
    if es == [] {
      assert es + fs == fs;
    } else {
      assert (es + fs)[1..] == es[1..] + fs;
      ExecConcat(Apply(b, es[0]), es[1..], fs);
    }
  }

  /** Some run loses a message of a job type and brand if and only if the brand id is 0. */
  lemma LosesIff(job: JobType, brand: int)
    ensures (exists es :: Loses(Exec(EMPTY, es), job, brand)) <==> brand == 0
  {
    if brand == 0 {
      BrandZeroLoses(job);
    } else {
      forall es
        ensures !Loses(Exec(EMPTY, es), job, brand)
      {
        var b := Exec(EMPTY, es);
        forall o | 0 <= o < |b.published| && b.published[o].job == job && b.published[o].brand == brand
          ensures Accepted(b, o) <= Total(b, Holders, o)
        {
          Conservation(b, o);
        }
      }
    }
  }

  lemma SentTail(b: Broker, i: nat, o: nat)
    requires Valid(b) && i < |b.copies| && At(b.copies[i], Failed) && b.copies[i].origin == o
    ensures Total(Exec(b, [SendCopy(i)] + [Ack(i)]), Holders, o)
         == Total(b, Holders, o) - if b.copies[i].brand == 0 then 1 else 0
  {
    HolderStep(b, SendCopy(i), o);
    AckedTail(Apply(b, SendCopy(i)), i, o);
    ExecTwo(b, SendCopy(i), Ack(i));
  }

  lemma AckedTail(b: Broker, i: nat, o: nat)
    requires Valid(b) && i < |b.copies| && At(b.copies[i], Copied) && b.copies[i].origin == o
    ensures Total(Apply(b, Ack(i)), Holders, o) == Total(b, Holders, o)
  {
    HolderStep(b, Ack(i), o);
  }

  lemma ExecCons(b: Broker, e: Event, es: seq<Event>)
    ensures Exec(b, [e] + es) == Exec(Apply(b, e), es)
  {
    assert ([e] + es)[1..] == es;
  }

  /* ---------- Posts per job ---------- */

  function IsPosted(o: nat): Finished -> int {
    (f: Finished) => if f.origin == o && f.result.posted then 1 else 0
  }

  lemma {:induction false} PostedSplit(finished: seq<Finished>, o: nat)
    ensures Sum(finished, IsPosted(o)) == Sum(finished, IsPost(o, true)) + Sum(finished, IsPost(o, false))
  {
    if finished != [] {
      PostedSplit(finished[1..], o);
    }
  }

  /** Completed posts of one message: one per accepted copy and interruption, and one more per rolled-back handler. */
  lemma PostsPerJob(b: Broker, o: nat)
    requires Reachable(b)
    ensures Sum(b.finished, IsPosted(o)) <= Accepted(b, o) + Hits(b.crashes, o) + Posts(b, o, false)
  {
    WithinBudget(b, Live, o);
    PostedSplit(b.finished, o);
  }

  ghost predicate Spent(b: Broker, o: nat) {
    o < |b.published| && Accepted(b, o) + Hits(b.crashes, o) <= Posts(b, o, true)
  }

  /** Nothing but an Invoke of a live copy starts a handler, and no copy is live once the budget of posts is spent. */
  lemma SpentInvocations(b: Broker, e: Event, o: nat)
    requires Placed(b.published, b.copies) && Bounded(b, Live, o) && Spent(b, o) && Local(e) && Enabled(b, e)
    ensures Invocations(Apply(b, e), o) == Invocations(b, o)
  {
    TotalNonNegative(b, Live, o);
    CountStep(b, e, Weights, o);
    assert b.copies[e.i] in b.copies;
  }

  lemma SpentStep(b: Broker, e: Event, o: nat)
    requires Valid(b) && Bounded(b, Live, o) && Spent(b, o) && Hits(Apply(b, e).crashes, o) == Hits(b.crashes, o)
    ensures Invocations(Apply(b, e), o) == Invocations(b, o) && Spent(Apply(b, e), o)
  {
    if Enabled(b, e) && Local(e) {
      SpentInvocations(b, e, o);
      CountStep(b, e, Live, o);
    } else if e.Publish? {
      var n := PublishEffect(b, e);
    }
  }

  lemma {:induction false} HitsGrow(b: Broker, es: seq<Event>, o: nat)
    ensures Hits(b.crashes, o) <= Hits(Exec(b, es).crashes, o)
    decreases |es|
  {
    if es != [] {
      var after := Apply(b, es[0]);
      if after.crashes != b.crashes {
        assert after.crashes[..|b.crashes|] == b.crashes;
      }
      HitsGrow(after, es[1..], o);
    }
  }

  lemma {:induction false} SpentRun(b: Broker, es: seq<Event>, o: nat)
    requires Valid(b) && Bounded(b, Live, o) && Spent(b, o) && Hits(Exec(b, es).crashes, o) == Hits(b.crashes, o)
    ensures Invocations(Exec(b, es), o) == Invocations(b, o)
    decreases |es|
  {
    if es != [] {
      HitsGrow(b, [es[0]], o);
      HitsGrow(Apply(b, es[0]), es[1..], o);
      ExecOne(b, es[0]);
      ApplyValid(b, es[0]);
      BoundedStep(b, es[0], Live, o);
      SpentStep(b, es[0], o);
      SpentRun(Apply(b, es[0]), es[1..], o);
    }
  }

  /** Accepted once and never interrupted: after a post that committed, the message's handler is never invoked again. */
  lemma CommittedPostIsLast(b: Broker, more: seq<Event>, o: nat)
    requires Reachable(b) && Hits(Exec(b, more).crashes, o) == 0
    requires Accepted(b, o) == 1 && Posts(b, o, true) >= 1
    ensures Invocations(Exec(b, more), o) == Invocations(b, o)
  {
    ReachableBounded(b, Live, o);
    HitsGrow(b, more, o);
    SpentRun(b, more, o);
  }

  /* ---------- The queue object ---------- */

  /** The events of one delivery from receipt to acknowledgement. */
  function Processing(c: Copy, i: nat, result: HandlerResult): seq<Event> {
    if !c.parseable then [SendCopy(i)] + [Ack(i)]
    else if result.ok then [Invoke(i)] + ([Finish(i, result)] + [Ack(i)])
    else [Invoke(i)] + ([Finish(i, result)] + ([SendCopy(i)] + [Ack(i)]))
  }

  /** How `publish` ends: with its boolean, or with an exception it does not catch. */
  datatype PublishReply = Returned(sent: bool) | Propagated

  function ReplyTo(outcomes: seq<PublishOutcome>, tries: nat): PublishReply {
    if tries == 0 || outcomes == [] then Returned(false)
    else match outcomes[0]
      case Confirmed => Returned(true)
      case Raised => Propagated
      case _ => ReplyTo(outcomes[1..], tries - 1)
  }

  /** Some attempt was accepted although its confirmation was lost. */
  predicate SomeUnconfirmed(outcomes: seq<PublishOutcome>, tries: nat) {
    exists k :: 0 <= k < tries && k < |outcomes| && outcomes[k] == ErrorAfterAccept
  }

  /**
    True means that a copy was left; false means that copies were left exactly if an attempt was accepted unconfirmed.
   */
  lemma {:induction false} RepliesTell(outcomes: seq<PublishOutcome>, tries: nat)
    ensures ReplyTo(outcomes, tries) == Returned(true) ==> 1 <= AcceptedBy(outcomes, tries)
    ensures ReplyTo(outcomes, tries) == Returned(false) ==>
              (AcceptedBy(outcomes, tries) > 0 <==> SomeUnconfirmed(outcomes, tries))
  {
    if tries > 0 && outcomes != [] && !outcomes[0].Confirmed? && !outcomes[0].Raised? {
      RepliesTell(outcomes[1..], tries - 1);
      if k :| 0 <= k < tries - 1 && k < |outcomes[1..]| && outcomes[1..][k] == ErrorAfterAccept {
        assert outcomes[k + 1] == ErrorAfterAccept;
      }
      if k :| 0 < k < tries && k < |outcomes| && outcomes[k] == ErrorAfterAccept {
        assert outcomes[1..][k - 1] == ErrorAfterAccept;
      }
    }
  }

  /** The publish loop: every attempt the broker accepts leaves a copy, confirmed or not. */
  method SendAttempts(queues: seq<Queue>, message: Copy,
        outcomes: seq<PublishOutcome>) returns (sent: seq<Copy>, reply: PublishReply)
    requires |outcomes| == MAX_PUBLISH_ATTEMPTS
    ensures sent == PutTimes(queues, message, AcceptedBy(outcomes, MAX_PUBLISH_ATTEMPTS))
    ensures reply == ReplyTo(outcomes, MAX_PUBLISH_ATTEMPTS)
  {
    sent := [];
    ghost var accepted := 0;
    for attempt := 0 to MAX_PUBLISH_ATTEMPTS
      invariant sent == PutTimes(queues, message, accepted)
      invariant accepted + AcceptedBy(outcomes[attempt..], MAX_PUBLISH_ATTEMPTS - attempt) ==
            AcceptedBy(outcomes, MAX_PUBLISH_ATTEMPTS)
      invariant ReplyTo(outcomes[attempt..], MAX_PUBLISH_ATTEMPTS - attempt) == ReplyTo(outcomes, MAX_PUBLISH_ATTEMPTS)
    {
      var outcome := outcomes[attempt];
      assert outcomes[attempt..][1..] == outcomes[attempt + 1..];
      if outcome.Raised? {
        return sent, Propagated;
      }
      if outcome.Confirmed? || outcome.ErrorAfterAccept? {
        sent := sent + Put(queues, message);
        accepted := accepted + 1;
      }
      if outcome.Confirmed? {
        return sent, Returned(true);
      }
    }
    return sent, Returned(false);
  }

  function Declarations(jobs: seq<JobType>, brand: int): seq<Event> {
    seq(|jobs|, k requires 0 <= k < |jobs| => Declare(jobs[k], brand))
  }

  lemma NextDeclaration(b: Broker, jobs: seq<JobType>, brand: int)
    requires jobs != []
    ensures Exec(b, Declarations(jobs, brand))
         == Exec(b.(bindings := Topology(b.bindings, jobs[0], brand)), Declarations(jobs[1..], brand))
  {
    assert Declarations(jobs, brand)[1..] == Declarations(jobs[1..], brand);
  }

  lemma {:induction false} AllDeclared(b: Broker, jobs: seq<JobType>, brand: int)
    requires ValidTopology(b.bindings)
    ensures var after := Exec(b, Declarations(jobs, brand));
            && after == b.(bindings := after.bindings) && ValidTopology(after.bindings)
            && forall j, d :: Declared(after.bindings, j, d) <==>
                Declared(b.bindings, j, d) || (j in jobs && d == brand)
    decreases |jobs|
  {
    if jobs != [] {
      TopologyDeclared(b.bindings, jobs[0], brand);
      NextDeclaration(b, jobs, brand);
      AllDeclared(b.(bindings := Topology(b.bindings, jobs[0], brand)), jobs[1..], brand);
      assert forall j :: j in jobs <==> j == jobs[0] || j in jobs[1..];
    }
  }

  class RabbitJobQueue {
    var broker: Broker

    constructor ()
      ensures broker == EMPTY
    {
      broker := EMPTY;
    }

    /** Declares one brand's queues for every job type of a set, given in some order. */
    method SetupBrandTopology(jobs: seq<JobType>, brand: int)
      requires ValidTopology(broker.bindings)
      modifies this
      ensures broker == old(broker).(bindings := broker.bindings) && ValidTopology(broker.bindings)
      ensures broker == Exec(old(broker), Declarations(jobs, brand))
      ensures forall j, b :: Declared(broker.bindings, j, b)
                <==> Declared(old(broker).bindings, j, b) || (j in jobs && b == brand)
    {
      for k := 0 to |jobs|
        invariant ValidTopology(broker.bindings)
        invariant Exec(broker, Declarations(jobs[k..], brand)) == Exec(old(broker), Declarations(jobs, brand))
      {
        NextDeclaration(broker, jobs[k..], brand);
        var bindings := DeclareBrandTopology(broker.bindings, jobs[k], brand);
        broker := broker.(bindings := bindings);
      }
      AllDeclared(old(broker), jobs, brand);
    }

    /** Sends the message up to three times, until one attempt is confirmed. */
    method Publish(job: JobType, brand: int, outcomes: seq<PublishOutcome>) returns (reply: PublishReply)
      requires |outcomes| == MAX_PUBLISH_ATTEMPTS
      modifies this
      ensures broker == Apply(old(broker), Event.Publish(job, brand, true, outcomes))
      ensures reply == ReplyTo(outcomes, MAX_PUBLISH_ATTEMPTS)
    {
      var queues := Route(broker.bindings, Jobs, PublishKey(job, brand));
      var message := Copy(|broker.published|, job, brand, true, 0, Lost);
      var sent;
      sent, reply := SendAttempts(queues, message, outcomes);
      broker := broker.(copies := broker.copies + sent, published :=
          broker.published + [Published(job, brand, |sent|)]);
    }

    method Acknowledge(i: nat)
      requires i < |broker.copies| && (At(broker.copies[i], Succeeded) || At(broker.copies[i], Copied))
      modifies this
      ensures broker == Apply(old(broker), Ack(i))
    {
      var c := broker.copies[i];
      var place := if At(c, Succeeded) then Done else Moved;
      broker := broker.(copies := broker.copies[i := c.(place := place)]);
      assert broker.copies == old(broker).copies[i := NextCopy(c, Ack(i))] + Sent(broker.bindings, c, Ack(i));
    }

    /** Publishes a copy of delivery `i` to the dead-letter exchange; the original stays unacknowledged. */
    method PublishCopy(i: nat, key: string, attempt: nat)
      requires i < |broker.copies| && Enabled(broker, SendCopy(i))
      requires key == CopyKey(broker.copies[i]) && attempt == Successor(broker.copies[i]).attempt
      modifies this
      ensures broker == Apply(old(broker), SendCopy(i))
    {
      var c := broker.copies[i];
      var queues := Route(broker.bindings, Dlx, key);
      broker := broker.(copies :=
          broker.copies[i := c.(place := InFlight(c.place.process, Copied))] + Put(queues, c.(attempt := attempt)));
    }

    method NackToRetry(i: nat, attempt: nat)
      requires i < |broker.copies| && At(broker.copies[i], Failed) && broker.copies[i].parseable
      requires attempt == broker.copies[i].attempt + 1 <= |RETRY_DELAYS|
      modifies this
      ensures broker == Apply(Apply(old(broker), SendCopy(i)), Ack(i))
    {
      var c := broker.copies[i];
      PublishCopy(i, RetryKey(c.job, c.brand, attempt), attempt);
      Acknowledge(i);
    }

    method SendToDead(i: nat, attempt: nat)
      requires i < |broker.copies| && Enabled(broker, SendCopy(i))
      requires CopyKey(broker.copies[i]) == DeadKey(broker.copies[i].job, broker.copies[i].brand)
      requires attempt == Successor(broker.copies[i]).attempt
      modifies this
      ensures broker == Apply(old(broker), SendCopy(i))
    {
      var c := broker.copies[i];
      PublishCopy(i, DeadKey(c.job, c.brand), attempt);
    }

    /** Runs the handler of delivery `i` once; an exception out of it counts as false. */
    method CallHandler(i: nat, run: HandlerRun) returns (ok: bool)
      requires Enabled(broker, Invoke(i))
      modifies this
      ensures ok <==> run == Returns(true, run.posted)
      ensures var c := old(broker).copies[i];
              broker == old(broker).(
                copies := old(broker).copies[i :=
                            c.(place := InFlight(c.place.process, if ok then Succeeded else Failed))],
                started := old(broker).started + [c.origin],
                finished := old(broker).finished + [Finished(c.origin, RawResult(ok, run.posted, run.Returns?))])
      ensures broker == Apply(Apply(old(broker), Invoke(i)), Finish(i, Outcome(run)))
    {
      var c := broker.copies[i];
      broker := broker.(copies := broker.copies[i := c.(place := InFlight(c.place.process, Running))],
                        started := broker.started + [c.origin]);
      assert broker.copies == old(broker).copies[i := NextCopy(c, Invoke(i))] + Sent(broker.bindings, c, Invoke(i));
      ghost var running := broker;
      match run {
        case Returns(result, _) => ok := result;
        case Raises(_) => ok := false;
      }
      var stage := if ok then Succeeded else Failed;
      broker := broker.(copies := broker.copies[i := c.(place := InFlight(c.place.process, stage))],
                        finished := broker.finished + [Finished(c.origin, RawResult(ok, run.posted, run.Returns?))]);
      assert broker.copies == running.copies[i := NextCopy(running.copies[i], Finish(i, Outcome(run)))] + [];
    }

    /** One received delivery, from parsing to acknowledgement. */
    method ProcessMessage(i: nat, run: HandlerRun)
      requires i < |broker.copies| && At(broker.copies[i], Received) && Idle(broker.copies, i)
      modifies this
      ensures broker == Exec(old(broker), Processing(old(broker).copies[i], i, Outcome(run)))
    {
      var message := broker.copies[i];
      ghost var before := broker;
      var attempt := message.attempt;
      if !message.parseable {
        SendToDead(i, attempt);
        Acknowledge(i);
        ExecTwo(before, SendCopy(i), Ack(i));
        return;
      }
      var ok := CallHandler(i, run);
      ghost var handled := broker;
      ExecHandled(before, Invoke(i), Finish(i, Outcome(run)), if ok then [Ack(i)] else [SendCopy(i)] + [Ack(i)]);
      if ok {
        Acknowledge(i);
        ExecCons(handled, Ack(i), []);
        assert [Ack(i)] + [] == [Ack(i)];
        return;
      }
      attempt := attempt + 1;
      if attempt > |RETRY_DELAYS| {
        SendToDead(i, attempt);
        Acknowledge(i);
      } else {
        NackToRetry(i, attempt);
      }
      ExecTwo(handled, SendCopy(i), Ack(i));
    }
  }

  lemma ExecOne(b: Broker, e: Event)
    ensures Exec(b, [e]) == Apply(b, e)
  {
    ExecCons(b, e, []);
    assert [e] + [] == [e];
  }

  lemma ExecTwo(b: Broker, e: Event, f: Event)
    ensures Exec(b, [e] + [f]) == Apply(Apply(b, e), f)
  {
    ExecCons(b, e, [f]);
    ExecOne(Apply(b, e), f);
  }

  lemma ExecHandled(b: Broker, e: Event, f: Event, es: seq<Event>)
    ensures Exec(b, [e] + ([f] + es)) == Exec(Apply(Apply(b, e), f), es)
  {
    ExecCons(b, e, [f] + es);
    ExecCons(Apply(b, e), f, es);
  }

  lemma AfterHandler(b: Broker, i: nat, result: HandlerResult) returns (handled: Broker)
    requires Valid(b) && i < |b.copies| && At(b.copies[i], Received) && Idle(b.copies, i) && b.copies[i].parseable
    ensures handled == Apply(Apply(b, Invoke(i)), Finish(i, result)) && Valid(handled)
    ensures handled.copies
         == b.copies[i :=
              b.copies[i].(place := InFlight(b.copies[i].place.process, if result.ok then Succeeded else Failed))]
  {
    LocalEffect(b, Invoke(i));
    ApplyValid(b, Invoke(i));
    var running := Apply(b, Invoke(i));
    LocalEffect(running, Finish(i, result));
    ApplyValid(running, Finish(i, result));
    handled := Apply(running, Finish(i, result));
  }

  lemma AfterSending(b: Broker, i: nat)
    requires Valid(b) && Enabled(b, SendCopy(i))
    ensures Exec(b, [SendCopy(i)] + [Ack(i)]).copies
         == b.copies[i := b.copies[i].(place := Moved)] + Copies(b.copies[i], SendCopy(i))
  {
    var c := b.copies[i];
    LocalEffect(b, SendCopy(i));
    ApplyValid(b, SendCopy(i));
    LocalEffect(Apply(b, SendCopy(i)), Ack(i));
    ExecTwo(b, SendCopy(i), Ack(i));
    UpdateTwice(b.copies, i, NextCopy(c, SendCopy(i)), c.(place := Moved), Copies(c, SendCopy(i)));
  }

  lemma UpdateTwice<T>(s: seq<T>, i: nat, x: T, y: T, more: seq<T>)
    requires i < |s|
    ensures (s[i := x] + more)[i := y] + [] == s[i := y] + more
  {
  }

  lemma AfterSuccess(b: Broker, i: nat)
    requires Valid(b) && i < |b.copies| && At(b.copies[i], Succeeded)
    ensures Exec(b, [Ack(i)]).copies == b.copies[i := b.copies[i].(place := Done)]
  {
    LocalEffect(b, Ack(i));
    ExecCons(b, Ack(i), []);
    assert [Ack(i)] + [] == [Ack(i)];
  }

  /**
    A processed delivery is done, or moved with exactly one successor in the pair's own retry or dead queue; for brand
    id 0 there is none.
   */
  lemma ProcessedOnce(b: Broker, i: nat, result: HandlerResult)
    requires Valid(b) && i < |b.copies| && At(b.copies[i], Received) && Idle(b.copies, i)
    ensures var c, after := b.copies[i], Exec(b, Processing(b.copies[i], i, result));
            after.copies ==
              if c.parseable && result.ok then b.copies[i := c.(place := Done)]
              else b.copies[i := c.(place := Moved)]
                   + if c.brand == 0 then [] else [Successor(c).(place := Queued(CopyQueue(c)))]
  {
    if !b.copies[i].parseable {
      AfterSending(b, i);
    } else if result.ok {
      ProcessedWell(b, i, result);
    } else {
      ProcessedBadly(b, i, result);
    }
  }

  lemma SameCopies(c: Copy, d: Copy, e: Event)
    requires d == c.(place := d.place)
    ensures Copies(c, e) == Copies(d, e)
  {
  }

  lemma ProcessedWell(b: Broker, i: nat, result: HandlerResult)
    requires Valid(b) && i < |b.copies| && At(b.copies[i], Received) && Idle(b.copies, i)
    requires b.copies[i].parseable && result.ok
    ensures Exec(b, [Invoke(i)] + ([Finish(i, result)] + [Ack(i)])).copies == b.copies[i := b.copies[i].(place := Done)]
  {
    var handled := AfterHandler(b, i, result);
    ExecHandled(b, Invoke(i), Finish(i, result), [Ack(i)]);
    AfterSuccess(handled, i);
  }

  lemma ProcessedBadly(b: Broker, i: nat, result: HandlerResult)
    requires Valid(b) && i < |b.copies| && At(b.copies[i], Received) && Idle(b.copies, i)
    requires b.copies[i].parseable && !result.ok
    ensures Exec(b, [Invoke(i)] + ([Finish(i, result)] + ([SendCopy(i)] + [Ack(i)]))).copies
         == b.copies[i := b.copies[i].(place := Moved)] + Copies(b.copies[i], SendCopy(i))
  {
    var handled := AfterHandler(b, i, result);
    ExecHandled(b, Invoke(i), Finish(i, result), [SendCopy(i)] + [Ack(i)]);
    AfterSending(handled, i);
    SameCopies(b.copies[i], handled.copies[i], SendCopy(i));
  }
}
