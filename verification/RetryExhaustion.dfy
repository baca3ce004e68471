/** The retry bound is reached: runs in which a message is retried to the end, however often a crash puts it back. */
module RetryExhaustion {
  import opened JobQueue
  import opened Routing
  import opened Sums

  const FAILURE: HandlerResult := RawResult(false, false, false)

  /** No delivery is being handled. */
  ghost predicate AtRest(b: Broker) {
    forall k :: 0 <= k < |b.copies| ==> !b.copies[k].place.InFlight?
  }

  /** Everything but the copies and the log of started handlers is as before. */
  ghost predicate SameElse(b: Broker, after: Broker) {
    after.bindings == b.bindings && after.published == b.published && after.crashes == b.crashes
  }

  lemma LocalStep(b: Broker, e: Event)
    requires Valid(b) && Local(e) && Enabled(b, e)
    ensures var c, after := b.copies[e.i], Apply(b, e);
            && Valid(after) && SameElse(b, after)
            && after.copies == b.copies[e.i := NextCopy(c, e)] + Copies(c, e)
            && after.started == b.started + if e.Invoke? then [c.origin] else []
  {
    LocalEffect(b, e);
    ApplyValid(b, e);
  }

  /** A copy that waits in the main queue of its pair. */
  ghost predicate Waits(b: Broker, i: nat) {
    && i < |b.copies| && b.copies[i].parseable && b.copies[i].brand != 0
    && b.copies[i].place == Queued(MainQueue(b.copies[i].job, b.copies[i].brand))
  }

  function FirstPart(i: nat): seq<Event> {
    [Deliver(i, 0)] + ([Invoke(i)] + ([Finish(i, FAILURE)] + [SendCopy(i)]))
  }

  lemma Delivered(b: Broker, i: nat) returns (after: Broker)
    requires Valid(b) && AtRest(b) && Waits(b, i)
    ensures after == Apply(b, Deliver(i, 0)) && Valid(after) && SameElse(b, after) && after.started == b.started
    ensures after.copies == b.copies[i := b.copies[i].(place := InFlight(0, Received))]
  {
    LocalStep(b, Deliver(i, 0));
    after := Apply(b, Deliver(i, 0));
  }

  lemma Called(b: Broker, i: nat) returns (after: Broker)
    requires Valid(b) && i < |b.copies| && b.copies[i].parseable && b.copies[i].place == InFlight(0, Received)
    requires forall k :: 0 <= k < |b.copies| && k != i ==> !b.copies[k].place.InFlight?
    ensures after == Apply(b, Invoke(i)) && Valid(after) && SameElse(b, after)
    ensures after.started == b.started + [b.copies[i].origin]
    ensures after.copies == b.copies[i := b.copies[i].(place := InFlight(0, Running))]
  {
    LocalStep(b, Invoke(i));
    after := Apply(b, Invoke(i));
  }

  lemma Refused(b: Broker, i: nat) returns (after: Broker)
    requires Valid(b) && i < |b.copies| && b.copies[i].place == InFlight(0, Running)
    ensures after == Apply(b, Finish(i, FAILURE)) && Valid(after) && SameElse(b, after) && after.started == b.started
    ensures after.copies == b.copies[i := b.copies[i].(place := InFlight(0, Failed))]
  {
    LocalStep(b, Finish(i, FAILURE));
    after := Apply(b, Finish(i, FAILURE));
  }

  lemma CopySent(b: Broker, i: nat) returns (after: Broker)
    requires Valid(b) && i < |b.copies| && b.copies[i].place == InFlight(0, Failed)
    ensures after == Apply(b, SendCopy(i)) && Valid(after) && SameElse(b, after) && after.started == b.started
    ensures after.copies
         == b.copies[i := b.copies[i].(place := InFlight(0, Copied))] + Copies(b.copies[i], SendCopy(i))
  {
    LocalStep(b, SendCopy(i));
    after := Apply(b, SendCopy(i));
  }

  /** The same position written again and again: only the last value stays. */
  lemma Overwritten(copies: seq<Copy>, i: nat, p: Copy, q: Copy)
    requires i < |copies|
    ensures copies[i := p][i := q] == copies[i := q] && copies[i := p][i] == p
  {
  }

  /** Delivered, handled without success, its successor published; the copy itself is not yet acknowledged. */
  lemma FailedAndCopied(b: Broker, i: nat) returns (after: Broker)
    requires Valid(b) && AtRest(b) && Waits(b, i)
    ensures after == Exec(b, FirstPart(i)) && Valid(after) && SameElse(b, after)
    ensures var c := b.copies[i];
            && after.copies == b.copies[i := c.(place := InFlight(0, Copied))] + Copies(c, SendCopy(i))
            && after.started == b.started + [c.origin]
  {
    var c := b.copies[i];
    var b1 := Delivered(b, i);
    Overwritten(b.copies, i, b1.copies[i], c.(place := InFlight(0, Running)));
    var b2 := Called(b1, i);
    Overwritten(b.copies, i, b2.copies[i], c.(place := InFlight(0, Failed)));
    after := SecondHalf(b2, i);
    Overwritten(b.copies, i, b2.copies[i], c.(place := InFlight(0, Copied)));
    SameCopies(c, b2.copies[i], SendCopy(i));
    ExecHandled(b, Deliver(i, 0), Invoke(i), [Finish(i, FAILURE)] + [SendCopy(i)]);
  }

  lemma SecondHalf(b: Broker, i: nat) returns (after: Broker)
    requires Valid(b) && i < |b.copies| && b.copies[i].place == InFlight(0, Running)
    ensures after == Exec(b, [Finish(i, FAILURE)] + [SendCopy(i)]) && Valid(after) && SameElse(b, after)
    ensures after.started == b.started
    ensures after.copies
         == b.copies[i := b.copies[i].(place := InFlight(0, Copied))] + Copies(b.copies[i], SendCopy(i))
  {
    var c := b.copies[i];
    var b1 := Refused(b, i);
    after := CopySent(b1, i);
    SameCopies(c, b1.copies[i], SendCopy(i));
    Overwritten(b.copies, i, b1.copies[i], c.(place := InFlight(0, Copied)));
    ExecTwo(b, Finish(i, FAILURE), SendCopy(i));
  }

  /** The successor of a copy that failed: one attempt more, in the next retry queue or, after three, the dead queue. */
  function Retried(c: Copy): Copy {
    var queue := if c.attempt < 3 then RetryQueue(c.job, c.brand, c.attempt + 1) else DeadQueue(c.job, c.brand);
    c.(attempt := c.attempt + 1, place := Queued(queue))
  }

  lemma CopiesRetried(c: Copy, e: Event)
    requires c.parseable && c.brand != 0 && e.SendCopy?
    ensures Copies(c, e) == [Retried(c)]
  {
  }

  /** One failed attempt, and a crash before the acknowledgement: the copy waits again, beside its successor. */
  lemma CrashedRound(b: Broker, i: nat) returns (es: seq<Event>, after: Broker)
    requires Valid(b) && AtRest(b) && Waits(b, i)
    ensures after == Exec(b, es) && Valid(after) && AtRest(after)
    ensures after.published == b.published && after.bindings == b.bindings
    ensures after.copies == b.copies + [Retried(b.copies[i])]
    ensures after.started == b.started + [b.copies[i].origin]
    ensures after.crashes == b.crashes + [{b.copies[i].origin}]
  {
    var c := b.copies[i];
    var copied := FailedAndCopied(b, i);
    CopiesRetried(c, SendCopy(i));
    after := Apply(copied, Crash(0));
    ApplyValid(copied, Crash(0));
    es := FirstPart(i) + [Crash(0)];
    ExecConcat(b, FirstPart(i), [Crash(0)]);
    ExecOne(copied, Crash(0));
    assert Struck(copied.copies, 0) == {c.origin} by {
      assert Busy(copied.copies[i]) && copied.copies[i].place.process == 0;
    }
    assert after.copies == b.copies + [Retried(c)];
  }

  lemma Acknowledged(b: Broker, i: nat) returns (after: Broker)
    requires Valid(b) && i < |b.copies| && b.copies[i].place == InFlight(0, Copied)
    ensures after == Apply(b, Ack(i)) && Valid(after) && SameElse(b, after) && after.started == b.started
    ensures after.copies == b.copies[i := b.copies[i].(place := Moved)]
  {
    LocalStep(b, Ack(i));
    after := Apply(b, Ack(i));
  }

  /** At rest again: the copy has moved and one more copy is queued. */
  lemma RestAgain(b: Broker, i: nat, moved: Copy, more: Copy, copies: seq<Copy>)
    requires AtRest(b) && i < |b.copies| && copies == b.copies[i := moved] + [more]
    requires !moved.place.InFlight? && !more.place.InFlight?
    ensures forall k :: 0 <= k < |copies| ==> !copies[k].place.InFlight?
  {
  }

  /** One failed attempt to the end: the copy has moved, its successor waits for its next attempt or is dead. */
  lemma FailedRound(b: Broker, i: nat) returns (es: seq<Event>, after: Broker)
    requires Valid(b) && AtRest(b) && Waits(b, i)
    ensures after == Exec(b, es) && Valid(after) && AtRest(after) && SameElse(b, after)
    ensures after.copies == b.copies[i := b.copies[i].(place := Moved)] + [Retried(b.copies[i])]
    ensures after.started == b.started + [b.copies[i].origin]
  {
    var c := b.copies[i];
    var copied := FailedAndCopied(b, i);
    CopiesRetried(c, SendCopy(i));
    after := Acknowledged(copied, i);
    es := FirstPart(i) + [Ack(i)];
    ExecConcat(b, FirstPart(i), [Ack(i)]);
    ExecOne(copied, Ack(i));
    UpdateTwice(b.copies, i, copied.copies[i], c.(place := Moved), [Retried(c)]);
    RestAgain(b, i, c.(place := Moved), Retried(c), after.copies);
  }

  ghost predicate InRetry(c: Copy) {
    c.place.Queued? && c.place.queue.RetryQueue?
  }

  lemma RetryPlaced(b: Broker, i: nat)
    requires Valid(b) && i < |b.copies| && InRetry(b.copies[i])
    ensures b.copies[i].parseable && 1 <= b.copies[i].attempt <= 3
  {
    assert InPlace(b.copies[i]);
  }

  lemma Expired(b: Broker, i: nat) returns (after: Broker)
    requires Valid(b) && i < |b.copies| && InRetry(b.copies[i])
    ensures after == Apply(b, Expire(i)) && Valid(after) && SameElse(b, after) && after.started == b.started
    ensures var c := b.copies[i]; after.copies == b.copies[i := c.(place := Queued(MainQueue(c.job, c.brand)))]
  {
    LocalStep(b, Expire(i));
    after := Apply(b, Expire(i));
  }

  /** A retry that has waited long enough, and fails again. */
  lemma RetryRound(b: Broker, i: nat) returns (es: seq<Event>, after: Broker)
    requires Valid(b) && AtRest(b) && i < |b.copies| && b.copies[i].brand != 0 && InRetry(b.copies[i])
    ensures after == Exec(b, es) && Valid(after) && AtRest(after) && SameElse(b, after)
    ensures after.copies == b.copies[i := b.copies[i].(place := Moved)] + [Retried(b.copies[i])]
    ensures after.started == b.started + [b.copies[i].origin]
  {
    var c := b.copies[i];
    RetryPlaced(b, i);
    var expired := Expired(b, i);
    assert Waits(expired, i) && AtRest(expired);
    var more;
    more, after := FailedRound(expired, i);
    es := [Expire(i)] + more;
    ExecCons(b, Expire(i), more);
    Overwritten(b.copies, i, expired.copies[i], c.(place := Moved));
  }

  /* ---------- Every attempt is paid for ---------- */

  /** Attempts a queued copy still has: four before the first one, one less for every attempt made. */
  function AttemptsLeft(): Copy -> int {
    (c: Copy) => if c.place.Queued? then 4 - c.attempt else 0
  }

  function IsQueued(): Copy -> int {
    (c: Copy) => if c.place.Queued? then 1 else 0
  }

  function Exhausted(job: JobType, brand: int): Copy {
    Copy(0, job, brand, true, 4, Queued(DeadQueue(job, brand)))
  }

  /** A copy of message 0 that is done with, waits for a retry, or is out of attempts. */
  ghost predicate Spends(c: Copy, job: JobType, brand: int) {
    && c.origin == 0 && c.job == job && c.brand == brand && c.parseable
    && (c.place == Moved || InRetry(c) || c == Exhausted(job, brand))
  }

  ghost predicate AllSpend(copies: seq<Copy>, job: JobType, brand: int) {
    forall k :: 0 <= k < |copies| ==> Spends(copies[k], job, brand)
  }

  lemma RetrySpends(c: Copy, job: JobType, brand: int)
    requires Spends(c, job, brand) && InRetry(c) && 1 <= c.attempt <= 3
    ensures Spends(Retried(c), job, brand) && Spends(c.(place := Moved), job, brand)
  {
  }

  /** One attempt more, one left less, and as many queued copies as before. */
  lemma RoundBalance(copies: seq<Copy>, i: nat)
    requires i < |copies| && InRetry(copies[i]) && 1 <= copies[i].attempt <= 3
    ensures var after := copies[i := copies[i].(place := Moved)] + [Retried(copies[i])];
            && Sum(after, AttemptsLeft()) == Sum(copies, AttemptsLeft()) - 1
            && Sum(after, IsQueued()) == Sum(copies, IsQueued())
  {
    var c := copies[i];
    var moved := copies[i := c.(place := Moved)];
    SumUpdate(copies, i, c.(place := Moved), AttemptsLeft());
    SumAppend(moved, Retried(c), AttemptsLeft());
    SumUpdate(copies, i, c.(place := Moved), IsQueued());
    SumAppend(moved, Retried(c), IsQueued());
  }

  lemma {:induction false} LeftNonNegative(copies: seq<Copy>)
    requires forall k :: 0 <= k < |copies| ==> InPlace(copies[k])
    ensures 0 <= Sum(copies, AttemptsLeft())
  {
    if copies != [] {
      assert InPlace(copies[0]);
      LeftNonNegative(copies[1..]);
    }
  }

  lemma NoneLeft(copies: seq<Copy>, job: JobType, brand: int)
    requires AllSpend(copies, job, brand) && forall k :: 0 <= k < |copies| ==> !InRetry(copies[k])
    ensures Sum(copies, AttemptsLeft()) == 0
  {
    SumOfNone(copies, AttemptsLeft());
  }

  /** Retries that keep failing: what was left is attempted, and every queued copy ends in the dead queue. */
  lemma {:induction false} Drained(b: Broker, job: JobType, brand: int) returns (es: seq<Event>, after: Broker)
    requires Valid(b) && brand != 0 && AllSpend(b.copies, job, brand)
    ensures after == Exec(b, es) && SameElse(b, after) && AllSpend(after.copies, job, brand)
    ensures forall k :: 0 <= k < |after.copies| ==> !InRetry(after.copies[k])
    ensures Invocations(after, 0) == Invocations(b, 0) + Sum(b.copies, AttemptsLeft())
    ensures Sum(after.copies, IsQueued()) == Sum(b.copies, IsQueued())
    decreases Sum(b.copies, AttemptsLeft())
  {
    if i :| 0 <= i < |b.copies| && InRetry(b.copies[i]) {
      RetryPlaced(b, i);
      var first, retried := RetryRound(b, i);
      RetrySpends(b.copies[i], job, brand);
      RoundBalance(b.copies, i);
      LeftNonNegative(retried.copies);
      SumAppend(b.started, 0, IsNumber(0));
      var more;
      more, after := Drained(retried, job, brand);
      es := first + more;
      ExecConcat(b, first, more);
    } else {
      es, after := [], b;
      NoneLeft(b.copies, job, brand);
    }
  }

  /* ---------- The bound is reached ---------- */

  function FirstCopy(job: JobType, brand: int): Copy {
    Copy(0, job, brand, true, 0, Queued(MainQueue(job, brand)))
  }

  /** After `k` crashed first attempts: the message still waits for its first, beside `k` retries. */
  ghost predicate CrashedTimes(b: Broker, job: JobType, brand: int, k: nat) {
    && b.published == [Published(job, brand, 1)]
    && b.copies == [FirstCopy(job, brand)] + seq(k, _ => Retried(FirstCopy(job, brand)))
    && Hits(b.crashes, 0) == k && Invocations(b, 0) == k
  }

  lemma {:induction false} CrashRounds(job: JobType, brand: int, k: nat) returns (es: seq<Event>, b: Broker)
    requires brand != 0
    ensures b == Exec(EMPTY, es) && Valid(b) && AtRest(b) && CrashedTimes(b, job, brand, k)
  {
    if k == 0 {
      b := PublishedOnce(job, brand);
      es := [Declare(job, brand)] + [Event.Publish(job, brand, true, [Confirmed])];
      ExecTwo(EMPTY, Declare(job, brand), Event.Publish(job, brand, true, [Confirmed]));
    } else {
      var before, round;
      es, before := CrashRounds(job, brand, k - 1);
      assert Waits(before, 0);
      round, b := CrashedRound(before, 0);
      OneCrashMore(before, b, job, brand, k);
      ExecConcat(EMPTY, es, round);
      es := es + round;
    }
  }

  lemma OneCrashMore(before: Broker, b: Broker, job: JobType, brand: int, k: nat)
    requires k > 0 && CrashedTimes(before, job, brand, k - 1) && b.published == before.published
    requires b.copies == before.copies + [Retried(FirstCopy(job, brand))]
    requires b.started == before.started + [0] && b.crashes == before.crashes + [{0}]
    ensures CrashedTimes(b, job, brand, k)
  {
    SumAppend(before.started, 0, IsNumber(0));
    assert b.crashes[..|before.crashes|] == before.crashes;
  }

  lemma {:induction false} SumOfEqual(c: Copy, k: nat, f: Copy -> int)
    ensures Sum(seq(k, _ => c), f) == k * f(c)
  {
    if k > 0 {
      assert seq(k, _ => c)[1..] == seq(k - 1, _ => c);
      SumOfEqual(c, k - 1, f);
    }
  }

  function AfterFirst(job: JobType, brand: int, k: nat): seq<Copy> {
    var c := FirstCopy(job, brand);
    [c.(place := Moved)] + (seq(k, _ => Retried(c)) + [Retried(c)])
  }

  lemma HeadUpdated(c: Copy, moved: Copy, retries: seq<Copy>, more: Copy)
    ensures ([c] + retries)[0 := moved] + [more] == [moved] + (retries + [more])
  {
  }

  lemma FirstAcknowledged(job: JobType, brand: int, k: nat) returns (es: seq<Event>, b: Broker)
    requires brand != 0
    ensures b == Exec(EMPTY, es) && Valid(b) && b.copies == AfterFirst(job, brand, k)
    ensures b.published == [Published(job, brand, 1)] && Hits(b.crashes, 0) == k && Invocations(b, 0) == k + 1
  {
    var c := FirstCopy(job, brand);
    var crashed, round;
    es, crashed := CrashRounds(job, brand, k);
    assert crashed.copies[0] == c && Waits(crashed, 0);
    round, b := FailedRound(crashed, 0);
    ExecConcat(EMPTY, es, round);
    es := es + round;
    SumAppend(crashed.started, 0, IsNumber(0));
    HeadUpdated(c, c.(place := Moved), seq(k, _ => Retried(c)), Retried(c));
  }

  lemma AfterFirstSpends(job: JobType, brand: int, k: nat)
    ensures AllSpend(AfterFirst(job, brand, k), job, brand)
  {
  }

  /** The first attempt of the message fails too: `k` + 1 retries wait, with three attempts each. */
  lemma FirstAttemptsMade(job: JobType, brand: int, k: nat) returns (es: seq<Event>, b: Broker)
    requires brand != 0
    ensures b == Exec(EMPTY, es) && Valid(b) && AllSpend(b.copies, job, brand)
    ensures b.published == [Published(job, brand, 1)] && Hits(b.crashes, 0) == k && Invocations(b, 0) == k + 1
    ensures Sum(b.copies, IsQueued()) == k + 1 && Sum(b.copies, AttemptsLeft()) == 3 * (k + 1)
  {
    es, b := FirstAcknowledged(job, brand, k);
    AfterFirstSpends(job, brand, k);
    FirstWaiting(job, brand, k);
    FirstLeft(job, brand, k);
  }

  lemma FirstWaiting(job: JobType, brand: int, k: nat)
    ensures Sum(AfterFirst(job, brand, k), IsQueued()) == k + 1
  {
    var c := FirstCopy(job, brand);
    FirstSums(c.(place := Moved), seq(k, _ => Retried(c)), Retried(c), k, IsQueued());
  }

  lemma FirstLeft(job: JobType, brand: int, k: nat)
    ensures Sum(AfterFirst(job, brand, k), AttemptsLeft()) == 3 * (k + 1)
  {
    var c := FirstCopy(job, brand);
    FirstSums(c.(place := Moved), seq(k, _ => Retried(c)), Retried(c), k, AttemptsLeft());
  }

  lemma FirstSums(moved: Copy, retries: seq<Copy>, c: Copy, k: nat, f: Copy -> int)
    requires retries == seq(k, _ => c) && f(moved) == 0
    ensures Sum([moved] + (retries + [c]), f) == (k + 1) * f(c)
  {
    SumOfEqual(c, k, f);
    SumAppend(retries, c, f);
    assert ([moved] + (retries + [c]))[1..] == retries + [c];
  }

  /**
    The retry bound is reached, for every job type, brand and number of crashes: a message accepted once and struck by
    `k` crashes is handled exactly four times for each of its 1 + k lives, and ends as 1 + k copies in its dead queue.
   */
  lemma BoundReached(job: JobType, brand: int, k: nat) returns (es: seq<Event>)
    requires brand != 0
    ensures var b := Exec(EMPTY, es);
            && b.published == [Published(job, brand, 1)] && Hits(b.crashes, 0) == k
            && Invocations(b, 0) == 4 * (1 + k)
            && (forall c :: c in b.copies ==>
                  c.place == Moved || c == Copy(0, job, brand, true, 4, Queued(DeadQueue(job, brand))))
            && Sum(b.copies, (c: Copy) => if c.place.Queued? then 1 else 0) == 1 + k
  {
    var attempted, b, more;
    es, attempted := FirstAttemptsMade(job, brand, k);
    more, b := Drained(attempted, job, brand);
    ExecConcat(EMPTY, es, more);
    es := es + more;
    assert forall c :: c in b.copies ==> Spends(c, job, brand) && !InRetry(c);
  }

  /* ---------- No attempt is skipped ---------- */

  /** Attempts that a copy stands for: those its header counts, and its own once its handler has been invoked. */
  function Stands(c: Copy): nat {
    if c.place.Queued? || c.place == Lost || (c.place.InFlight? && c.place.stage == Received) then c.attempt
    else c.attempt + 1
  }

  ghost predicate MadeCopy(started: seq<nat>, c: Copy) {
    c.parseable ==> Stands(c) <= Sum(started, IsNumber(c.origin))
  }

  ghost predicate Made(started: seq<nat>, copies: seq<Copy>) {
    forall k :: 0 <= k < |copies| ==> MadeCopy(started, copies[k])
  }

  lemma StartedGrows(started: seq<nat>, o: nat, c: Copy)
    requires MadeCopy(started, c)
    ensures MadeCopy(started + [o], c)
    ensures c.origin == o ==> Sum(started + [o], IsNumber(o)) == Sum(started, IsNumber(o)) + 1
  {
    SumAppend(started, o, IsNumber(c.origin));
  }

  lemma LocalMade(started: seq<nat>, c: Copy, e: Event)
    requires Local(e) && CopyEnabled(c, e) && MadeCopy(started, c) && InPlace(c)
    ensures var after := if e.Invoke? then started + [c.origin] else started;
            MadeCopy(after, NextCopy(c, e)) && forall d :: d in Copies(c, e) ==> MadeCopy(after, d)
  {
    if e.Invoke? {
      StartedGrows(started, c.origin, c);
    }
  }

  lemma MadeLocally(b: Broker, e: Event)
    requires Valid(b) && Made(b.started, b.copies) && Local(e) && Enabled(b, e)
    ensures Made(Apply(b, e).started, Apply(b, e).copies)
  {
    var c, after := b.copies[e.i], Apply(b, e);
    LocalStep(b, e);
    LocalMade(b.started, c, e);
    forall k | 0 <= k < |after.copies|
      ensures MadeCopy(after.started, after.copies[k])
    {
      if k < |b.copies| && k != e.i && e.Invoke? {
        StartedGrows(b.started, c.origin, b.copies[k]);
      }
    }
  }

  lemma MadeFresh(started: seq<nat>, c: Copy)
    requires c.attempt == 0 && c.place.Queued?
    ensures MadeCopy(started, c)
  {
    SumLowerBound(started, IsNumber(c.origin));
  }

  lemma MadeStep(b: Broker, e: Event)
    requires Valid(b) && Made(b.started, b.copies)
    ensures Made(Apply(b, e).started, Apply(b, e).copies)
  {
    if e.Publish? {
      var n := PublishEffect(b, e);
      MadeFresh(b.started, Fresh(b, e));
    } else if e.Crash? {
      assert forall k :: 0 <= k < |b.copies| ==> Stands(Recover(b.copies[k], e.process)) <= Stands(b.copies[k]);
    } else if Local(e) && Enabled(b, e) {
      MadeLocally(b, e);
    }
  }

  lemma {:induction false} MadeRun(b: Broker, es: seq<Event>)
    requires Valid(b) && Made(b.started, b.copies)
    ensures Made(Exec(b, es).started, Exec(b, es).copies)
    decreases |es|
  {
    if es != [] {
      ApplyValid(b, es[0]);
      MadeStep(b, es[0]);
      MadeRun(Apply(b, es[0]), es[1..]);
    }
  }

  /**
    In every run, attempts are counted only when they were made: a parseable copy never counts more than its message's
    handler was invoked; in a dead queue its handler has been invoked four times, unless its body cannot be parsed.
   */
  lemma AttemptsWereMade(b: Broker, c: Copy)
    requires Reachable(b) && c in b.copies && c.parseable
    ensures c.attempt <= Invocations(b, c.origin)
    ensures c.place.Queued? && c.place.queue.DeadQueue? ==> 4 <= Invocations(b, c.origin)
    ensures c.place == Moved ==> c.attempt + 1 <= Invocations(b, c.origin)
  {
    var es :| b == Exec(EMPTY, es);
    MadeRun(EMPTY, es);
    ReachableBounded(b, Holders, c.origin);
    var k :| 0 <= k < |b.copies| && b.copies[k] == c;
    assert MadeCopy(b.started, b.copies[k]) && InPlace(b.copies[k]);
  }
}
