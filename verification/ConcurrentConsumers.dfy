/** Which deliveries can be handled at the same time, and how many copies one publish call can leave. */
module ConcurrentConsumers {
  import opened Routing
  import opened JobQueue

  /** A process consuming one job type of one brand. */
  datatype Consumer = Consumer(process: nat, job: JobType, brand: int)

  ghost predicate Handles(c: Copy, x: Consumer) {
    c.place == InFlight(x.process, Running) && c.job == x.job && c.brand == x.brand
  }

  function Message(origin: nat, x: Consumer, place: Place): Copy {
    Copy(origin, x.job, x.brand, true, 0, place)
  }

  lemma PublishedCopy(b: Broker, x: Consumer) returns (after: Broker)
    requires Valid(b) && Declared(b.bindings, x.job, x.brand)
    ensures after == Apply(b, Event.Publish(x.job, x.brand, true, [Confirmed])) && Valid(after)
    ensures after.bindings == b.bindings && |after.published| == |b.published| + 1
    ensures after.copies == b.copies + [Message(|b.published|, x, Queued(MainQueue(x.job, x.brand)))]
  {
    var publish := Event.Publish(x.job, x.brand, true, [Confirmed]);
    ApplyValid(b, publish);
    var n := PublishEffect(b, publish);
    after := Apply(b, publish);
    assert seq(1, _ => Fresh(b, publish)) == [Fresh(b, publish)];
  }

  lemma DeclaredBoth(x: Consumer, y: Consumer) returns (b: Broker)
    ensures b == Apply(Apply(EMPTY, Declare(x.job, x.brand)), Declare(y.job, y.brand)) && Valid(b)
    ensures b.copies == [] && b.published == []
    ensures Declared(b.bindings, x.job, x.brand) && Declared(b.bindings, y.job, y.brand)
  {
    var first := Apply(EMPTY, Declare(x.job, x.brand));
    ApplyValid(EMPTY, Declare(x.job, x.brand));
    TopologyDeclared([], x.job, x.brand);
    ApplyValid(first, Declare(y.job, y.brand));
    TopologyDeclared(first.bindings, y.job, y.brand);
    b := Apply(first, Declare(y.job, y.brand));
  }

  lemma Moved(b: Broker, e: Event) returns (after: Broker)
    requires Valid(b) && Local(e) && Enabled(b, e) && !e.SendCopy?
    ensures after == Apply(b, e) && Valid(after) && after.copies == b.copies[e.i := NextCopy(b.copies[e.i], e)]
  {
    LocalEffect(b, e);
    ApplyValid(b, e);
    after := Apply(b, e);
  }

  function Publications(x: Consumer, y: Consumer): seq<Event> {
    [Declare(x.job, x.brand)] + ([Declare(y.job, y.brand)]
    + ([Event.Publish(x.job, x.brand, true, [Confirmed])] + [Event.Publish(y.job, y.brand, true, [Confirmed])]))
  }

  lemma BothPublished(x: Consumer, y: Consumer) returns (b: Broker)
    ensures b == Exec(EMPTY, Publications(x, y)) && Valid(b)
    ensures b.copies
         == [Message(0, x, Queued(MainQueue(x.job, x.brand))), Message(1, y, Queued(MainQueue(y.job, y.brand)))]
  {
    var first, second :=
      Event.Publish(x.job, x.brand, true, [Confirmed]), Event.Publish(y.job, y.brand, true, [Confirmed]);
    var declared := DeclaredBoth(x, y);
    var one := PublishedCopy(declared, x);
    b := PublishedCopy(one, y);
    ExecTwo(declared, first, second);
    ExecHandled(EMPTY, Declare(x.job, x.brand), Declare(y.job, y.brand), [first] + [second]);
  }

  function Deliveries(x: Consumer, y: Consumer): seq<Event> {
    Publications(x, y) + ([Deliver(0, x.process)] + [Deliver(1, y.process)])
  }

  /** Two messages delivered, to consumers that may be the same one: a consumer may hold what it does not yet handle. */
  lemma BothDelivered(x: Consumer, y: Consumer) returns (b: Broker)
    ensures b == Exec(EMPTY, Deliveries(x, y)) && Valid(b)
    ensures b.copies
         == [Message(0, x, InFlight(x.process, Received)), Message(1, y, InFlight(y.process, Received))]
  {
    var published := BothPublished(x, y);
    var one := Moved(published, Deliver(0, x.process));
    b := Moved(one, Deliver(1, y.process));
    ExecConcat(EMPTY, Publications(x, y), [Deliver(0, x.process)] + [Deliver(1, y.process)]);
    ExecTwo(published, Deliver(0, x.process), Deliver(1, y.process));
  }

  /** One handles while the other, or the same consumer, holds the next message. */
  lemma OneHandles(x: Consumer, y: Consumer) returns (b: Broker)
    ensures b == Exec(EMPTY, Deliveries(x, y) + [Invoke(0)]) && Valid(b)
    ensures b.copies
         == [Message(0, x, InFlight(x.process, Running)), Message(1, y, InFlight(y.process, Received))]
  {
    var both := BothDelivered(x, y);
    assert Idle(both.copies, 0);
    b := Moved(both, Invoke(0));
    ExecConcat(EMPTY, Deliveries(x, y), [Invoke(0)]);
    ExecOne(both, Invoke(0));
  }

  lemma BothHandle(x: Consumer, y: Consumer)
    requires x != y
    ensures var b := Exec(EMPTY, Deliveries(x, y) + [Invoke(0)] + [Invoke(1)]);
            |b.copies| == 2 && Handles(b.copies[0], x) && Handles(b.copies[1], y)
  {
    var one := OneHandles(x, y);
    assert Idle(one.copies, 1);
    var b := Moved(one, Invoke(1));
    ExecConcat(EMPTY, Deliveries(x, y) + [Invoke(0)], [Invoke(1)]);
    ExecOne(one, Invoke(1));
  }

  ghost predicate Overlap(b: Broker, x: Consumer, y: Consumer) {
    exists i, k :: 0 <= i < |b.copies| && 0 <= k < |b.copies| && i != k && Handles(b.copies[i], x)
      && Handles(b.copies[k], y)
  }

  lemma OneByOne(b: Broker, x: Consumer)
    requires Reachable(b)
    ensures !Overlap(b, x, x)
  {
    ReachableBounded(b, Holders, 0);
    forall i, k | 0 <= i < |b.copies| && 0 <= k < |b.copies| && i != k
      ensures !(Handles(b.copies[i], x) && Handles(b.copies[k], x))
    {
      var first, second := if i < k then i else k, if i < k then k else i;
      assert Busy(b.copies[first]) && Busy(b.copies[second]) ==> !SameConsumer(b.copies[first], b.copies[second]);
    }
  }

  /**
    Two messages can be handled at the same time in some run if and only if their consumers differ in process, job type
    or brand: every consumer handles its messages one by one, and no consumer waits for another.
   */
  lemma OverlapIff(x: Consumer, y: Consumer)
    ensures (exists es :: Overlap(Exec(EMPTY, es), x, y)) <==> x != y
  {
    if x != y {
      BothHandle(x, y);
      assert Overlap(Exec(EMPTY, Deliveries(x, y) + [Invoke(0)] + [Invoke(1)]), x, y);
    } else {
      forall es
        ensures !Overlap(Exec(EMPTY, es), x, y)
      {
        OneByOne(Exec(EMPTY, es), x);
      }
    }
  }

  /* ---------- Copies of one publish call ---------- */

  /** One publish call leaves at most three copies of a message, and three unconfirmed attempts leave three. */
  lemma AtMostThree(b: Broker, job: JobType, brand: int, parseable: bool, outcomes: seq<PublishOutcome>)
    requires ValidTopology(b.bindings)
    ensures var after := Apply(b, Event.Publish(job, brand, parseable, outcomes));
            && |b.copies| <= |after.copies| <= |b.copies| + 3
            && (outcomes == [ErrorAfterAccept, ErrorAfterAccept, ErrorAfterAccept]
                && Declared(b.bindings, job, brand)
                ==> |after.copies| == |b.copies| + 3)
  {
    var n := PublishEffect(b, Event.Publish(job, brand, parseable, outcomes));
    if outcomes == [ErrorAfterAccept, ErrorAfterAccept, ErrorAfterAccept] {
      assert outcomes[1..] == [ErrorAfterAccept, ErrorAfterAccept] && outcomes[1..][1..] == [ErrorAfterAccept];
      assert AcceptedBy(outcomes[1..][1..], 1) == 1;
      assert AcceptedBy(outcomes[1..], 2) == 2;
    }
  }
}
