/** The Telegram log handler: repeated texts are dropped, and sends are limited over a sliding minute. */
module TelegramLimits {
  import opened Counting

  const RATE_LIMIT_SECONDS: real := 60.0

  /** The hash is the key of a text; nothing is assumed of it. A queue size of zero or less is unbounded. */
  datatype Settings = Settings(hash: string -> string, queueSize: int, dedupWindow: nat, rateLimit: int)

  datatype Enqueue = Enqueue(key: string, at: real)

  /**
    The handler's fields; a text the worker has taken and not yet put back; and what was recorded: enqueues and sends.
   */
  datatype State = State(
    queue: seq<string>,
    dedup: map<string, real>,
    rate: seq<real>,
    held: seq<string>,
    enqueued: seq<Enqueue>,
    sent: seq<real>)

  const START: State := State([], map[], [], [], [], [])

  predicate HasRoom(c: Settings, queue: seq<string>) {
    c.queueSize <= 0 || |queue| < c.queueSize
  }

  /** A text never enqueued counts as enqueued at the epoch. */
  function LastEnqueued(dedup: map<string, real>, key: string): real {
    if key in dedup then dedup[key] else 0.0
  }

  predicate Accepts(c: Settings, s: State, text: string, now: real) {
    now - LastEnqueued(s.dedup, c.hash(text)) >= c.dedupWindow as real && HasRoom(c, s.queue)
  }

  function Emitted(c: Settings, s: State, text: string, now: real): State {
    if Accepts(c, s, text, now) then
      s.(queue := s.queue + [text],
         dedup := s.dedup[c.hash(text) := now],
         enqueued := s.enqueued + [Enqueue(c.hash(text), now)])
    else s
  }

  function Recent(rate: seq<real>, now: real): seq<real> {
    if rate == [] then []
    else (if now - rate[0] < RATE_LIMIT_SECONDS then [rate[0]] else []) + Recent(rate[1..], now)
  }

  /**
    The worker takes a text: it holds it back when the limit is reached, else posts it; a post that raises is not
    recorded.
   */
  function Worked(c: Settings, s: State, now: real, delivered: bool): State {
    if s.held != [] || s.queue == [] then s
    else
      var recent := Recent(s.rate, now);
      var taken := s.(queue := s.queue[1..], rate := recent);
      if |recent| >= c.rateLimit then taken.(held := [s.queue[0]])
      else if delivered then taken.(rate := recent + [now], sent := s.sent + [now])
      else taken
  }

  /** After its pause the worker puts the text back, as soon as there is room. */
  function Requeued(c: Settings, s: State): State {
    if s.held != [] && HasRoom(c, s.queue) then s.(queue := s.queue + s.held, held := []) else s
  }

  method Pruned(rate: seq<real>, now: real) returns (recent: seq<real>)
    ensures recent == Recent(rate, now)
  {
    recent := [];
    for i := 0 to |rate|
      invariant recent + Recent(rate[i..], now) == Recent(rate, now)
    {
      assert rate[i..][0] == rate[i] && rate[i..][1..] == rate[i + 1..];
      if now - rate[i] < RATE_LIMIT_SECONDS {
        recent := recent + [rate[i]];
      }
    }
    assert recent + [] == recent;
  }

  class TelegramHandler {
    const c: Settings
    var queue: seq<string>
    var dedup: map<string, real>
    var rate: seq<real>
    var held: seq<string>
    ghost var enqueued: seq<Enqueue>
    ghost var sent: seq<real>

    ghost function View(): State
      reads this
    {
      State(queue, dedup, rate, held, enqueued, sent)
    }

    constructor (c: Settings)
      ensures this.c == c && View() == START
    {
      this.c := c;
      queue, dedup, rate, held, enqueued, sent := [], map[], [], [], [], [];
    }

    method Emit(text: string, now: real)
      modifies this
      ensures View() == Emitted(c, old(View()), text, now)
    {
      var key := c.hash(text);
      var at := if key in dedup then dedup[key] else 0.0;
      if now - at < c.dedupWindow as real {
        return;
      }
      if c.queueSize <= 0 || |queue| < c.queueSize {
        queue := queue + [text];
        dedup := dedup[key := now];
        enqueued := enqueued + [Enqueue(key, now)];
      }
    }

    /** One round of the worker; `delivered` says whether the post came back without raising. */
    method Work(now: real, delivered: bool)
      modifies this
      ensures View() == Worked(c, old(View()), now, delivered)
    {
      if held != [] || queue == [] {
        return;
      }
      var text := queue[0];
      queue := queue[1..];
      rate := Pruned(rate, now);
      if |rate| >= c.rateLimit {
        held := [text];
        return;
      }
      if delivered {
        rate := rate + [now];
        sent := sent + [now];
      }
    }

    method Requeue()
      modifies this
      ensures View() == Requeued(c, old(View()))
    {
      if held != [] && (c.queueSize <= 0 || |queue| < c.queueSize) {
        queue := queue + held;
        held := [];
      }
    }
  }

  datatype Event = Emit(text: string, now: real) | Work(now: real, delivered: bool) | Requeue

  function Apply(c: Settings, s: State, e: Event): State {
    match e
    case Emit(text, now) => Emitted(c, s, text, now)
    case Work(now, delivered) => Worked(c, s, now, delivered)
    case Requeue => Requeued(c, s)
  }

  function Exec(c: Settings, s: State, es: seq<Event>): State
    decreases |es|
  {
    if es == [] then s else Apply(c, Exec(c, s, es[..|es| - 1]), es[|es| - 1])
  }

  /* ---------- Repeated texts ---------- */

  /** Any two enqueues of one key, the later first, are a whole window apart. */
  ghost predicate SpacedOut(c: Settings, enqueued: seq<Enqueue>) {
    forall i, j :: 0 <= i < j < |enqueued| && enqueued[i].key == enqueued[j].key ==>
      enqueued[j].at - enqueued[i].at >= c.dedupWindow as real
  }

  /** The dictionary holds each enqueued key with the moment of its latest enqueue. */
  ghost predicate DedupRemembers(s: State) {
    && (forall i :: 0 <= i < |s.enqueued| ==>
          s.enqueued[i].key in s.dedup && s.enqueued[i].at <= s.dedup[s.enqueued[i].key])
    && (forall key :: key in s.dedup ==> Enqueue(key, s.dedup[key]) in s.enqueued)
  }

  lemma EmitRemembered(c: Settings, s: State, text: string, now: real)
    requires DedupRemembers(s) && SpacedOut(c, s.enqueued)
    ensures DedupRemembers(Emitted(c, s, text, now)) && SpacedOut(c, Emitted(c, s, text, now).enqueued)
  {
    var t := Emitted(c, s, text, now);
    forall key | key in t.dedup
      ensures Enqueue(key, t.dedup[key]) in t.enqueued
    {
      assert t.enqueued != s.enqueued && key == c.hash(text) ==> Enqueue(key, now) == t.enqueued[|s.enqueued|];
    }
  }

  lemma {:induction false} RepeatsRemembered(c: Settings, es: seq<Event>)
    ensures DedupRemembers(Exec(c, START, es)) && SpacedOut(c, Exec(c, START, es).enqueued)
    decreases |es|
  {
    if es != [] {
      RepeatsRemembered(c, es[..|es| - 1]);
      if es[|es| - 1].Emit? {
        EmitRemembered(c, Exec(c, START, es[..|es| - 1]), es[|es| - 1].text, es[|es| - 1].now);
      }
    }
  }

  /** Whatever the clock does, two enqueues of the same key are at least the window apart. */
  lemma RepeatsSpacedOut(c: Settings, es: seq<Event>, i: nat, j: nat)
    requires i < j < |Exec(c, START, es).enqueued|
    requires Exec(c, START, es).enqueued[i].key == Exec(c, START, es).enqueued[j].key
    ensures Exec(c, START, es).enqueued[j].at - Exec(c, START, es).enqueued[i].at >= c.dedupWindow as real
  {
    RepeatsRemembered(c, es);
  }

  /**
    A text is enqueued exactly when there is room and every enqueue of its key so far, or else the epoch, lies a
    window back.
   */
  lemma EnqueuedIff(c: Settings, es: seq<Event>, text: string, now: real)
    ensures var s := Exec(c, START, es);
            Exec(c, START, es + [Emit(text, now)]).enqueued != s.enqueued
            <==> && HasRoom(c, s.queue)
                 && (forall i :: 0 <= i < |s.enqueued| && s.enqueued[i].key == c.hash(text) ==>
                       now - s.enqueued[i].at >= c.dedupWindow as real)
                 && ((forall i :: 0 <= i < |s.enqueued| ==> s.enqueued[i].key != c.hash(text)) ==>
                     now >= c.dedupWindow as real)
  {
    RepeatsRemembered(c, es);
    assert (es + [Emit(text, now)])[..|es|] == es;
    var s := Exec(c, START, es);
    if c.hash(text) in s.dedup {
      var i :| 0 <= i < |s.enqueued| && s.enqueued[i] == Enqueue(c.hash(text), s.dedup[c.hash(text)]);
    }
  }

  /** Room in the queue is the only bound on it: emitting and putting back never exceed it. */
  lemma {:induction false} QueueBounded(c: Settings, es: seq<Event>)
    requires c.queueSize > 0
    ensures |Exec(c, START, es).queue| <= c.queueSize && |Exec(c, START, es).held| <= 1
    decreases |es|
  {
    if es != [] {
      QueueBounded(c, es[..|es| - 1]);
    }
  }

  /* ---------- The sliding minute ---------- */

  /** The worker's clock readings, in order. */
  function Readings(es: seq<Event>): seq<real>
    decreases |es|
  {
    if es == [] then []
    else Readings(es[..|es| - 1]) + if es[|es| - 1].Work? then [es[|es| - 1].now] else []
  }

  ghost predicate NonDecreasing(s: seq<real>) {
    forall i, j :: 0 <= i < j < |s| ==> s[i] <= s[j]
  }

  ghost function SentIn(sent: seq<real>, from: real): nat {
    Count(sent, (t: real) => from <= t < from + RATE_LIMIT_SECONDS)
  }

  lemma {:induction false} RecentConcat(rate: seq<real>, more: seq<real>, now: real)
    ensures Recent(rate + more, now) == Recent(rate, now) + Recent(more, now)
  {
    if rate == [] {
      assert rate + more == more;
    } else {
      assert (rate + more)[1..] == rate[1..] + more;
      RecentConcat(rate[1..], more, now);
    }
  }

  /** What an earlier filtering dropped a later one drops too. */
  lemma {:induction false} RecentTwice(rate: seq<real>, now: real, later: real)
    requires now <= later
    ensures Recent(Recent(rate, now), later) == Recent(rate, later)
  {
    if rate != [] {
      RecentTwice(rate[1..], now, later);
      var head := if now - rate[0] < RATE_LIMIT_SECONDS then [rate[0]] else [];
      RecentConcat(head, Recent(rate[1..], now), later);
    }
  }

  lemma {:induction false} RecentCount(rate: seq<real>, now: real)
    ensures |Recent(rate, now)| == Count(rate, (t: real) => now - t < RATE_LIMIT_SECONDS)
  {
    var p := (t: real) => now - t < RATE_LIMIT_SECONDS;
    if rate != [] {
      RecentCount(rate[1..], now);
      assert rate == [rate[0]] + rate[1..];
      CountConcat([rate[0]], rate[1..], p);
      assert Count([rate[0]], p) == if p(rate[0]) then 1 else 0 by {
        assert [rate[0]] == [] + [rate[0]];
        CountAppend([], rate[0], p);
      }
    }
  }

  /** Filtered at any later time, the worker's list holds the same as the log of all sends. */
  ghost predicate KeepsRecent(s: State, now: real) {
    forall later: real {:trigger Recent(s.rate, later)} :: now <= later ==>
        Recent(s.rate, later) == Recent(s.sent, later)
  }

  ghost predicate SentBy(sent: seq<real>, now: real) {
    forall i :: 0 <= i < |sent| ==> sent[i] <= now
  }

  ghost predicate WithinLimit(c: Settings, sent: seq<real>) {
    forall from: real :: SentIn(sent, from) <= (if c.rateLimit < 0 then 0 else c.rateLimit)
  }

  ghost predicate Limited(c: Settings, s: State, now: real) {
    KeepsRecent(s, now) && SentBy(s.sent, now) && WithinLimit(c, s.sent)
  }

  lemma SendFitsMinute(c: Settings, sent: seq<real>, now: real, from: real)
    requires |Recent(sent, now)| < c.rateLimit && SentIn(sent, from) <= c.rateLimit
    ensures SentIn(sent + [now], from) <= c.rateLimit
  {
    var p := (t: real) => from <= t < from + RATE_LIMIT_SECONDS;
    CountAppend(sent, now, p);
    if p(now) {
      RecentCount(sent, now);
      CountLess(sent, p, (t: real) => now - t < RATE_LIMIT_SECONDS);
    }
  }

  lemma WorkKeeps(c: Settings, s: State, now: real, delivered: bool)
    requires Limited(c, s, now)
    ensures Limited(c, Worked(c, s, now, delivered), now)
  {
    var t := Worked(c, s, now, delivered);
    if t != s {
      forall later: real | now <= later
        ensures Recent(t.rate, later) == Recent(t.sent, later)
      {
        RecentTwice(s.rate, now, later);
        RecentConcat(Recent(s.rate, now), [now], later);
        RecentConcat(s.sent, [now], later);
      }
      if t.sent == s.sent + [now] {
        forall from: real
          ensures SentIn(t.sent, from) <= c.rateLimit
        {
          SendFitsMinute(c, s.sent, now, from);
        }
      }
    }
  }

  lemma {:induction false} MinuteKept(c: Settings, es: seq<Event>, now: real)
    requires NonDecreasing(Readings(es)) && forall t :: t in Readings(es) ==> t <= now
    ensures Limited(c, Exec(c, START, es), now)
    decreases |es|
  {
    if es != [] {
      var front, e := es[..|es| - 1], es[|es| - 1];
      var readings := Readings(front);
      assert forall i :: 0 <= i < |readings| ==> readings[i] == Readings(es)[i] && readings[i] in Readings(es);
      if e.Work? {
        assert Readings(es)[|readings|] == e.now && e.now in Readings(es);
        MinuteKept(c, front, e.now);
        WorkKeeps(c, Exec(c, START, front), e.now, e.delivered);
      } else {
        MinuteKept(c, front, now);
      }
    }
  }

  /**
    Over an unbounded run with a clock that does not go back, no half-open minute holds more recorded sends than the
    limit.
   */
  lemma SlidingMinute(c: Settings, es: seq<Event>, from: real)
    requires NonDecreasing(Readings(es))
    ensures SentIn(Exec(c, START, es).sent, from) <= if c.rateLimit < 0 then 0 else c.rateLimit
  {
    var readings := Readings(es);
    MinuteKept(c, es, if readings == [] then 0.0 else readings[|readings| - 1]);
  }

  ghost function SentInLastMinute(sent: seq<real>, now: real): nat {
    Count(sent, (t: real) => now - RATE_LIMIT_SECONDS < t <= now)
  }

  /**
    Nor is the limiter stricter than that: a free worker posts exactly when the last minute holds fewer sends than the
    limit.
   */
  lemma PostsWheneverAllowed(c: Settings, es: seq<Event>, now: real)
    requires NonDecreasing(Readings(es + [Work(now, true)]))
    requires Exec(c, START, es).held == [] && Exec(c, START, es).queue != []
    ensures Exec(c, START, es + [Work(now, true)]).sent != Exec(c, START, es).sent
       <==> SentInLastMinute(Exec(c, START, es).sent, now) < c.rateLimit
  {
    var all := es + [Work(now, true)];
    assert all[..|es|] == es;
    assert Readings(all) == Readings(es) + [now];
    forall i | 0 <= i < |Readings(es)|
      ensures Readings(es)[i] <= now
    {
      assert Readings(all)[i] <= Readings(all)[|Readings(es)|];
    }
    assert forall i :: 0 <= i < |Readings(es)| ==> Readings(es)[i] == Readings(all)[i];
    MinuteKept(c, es, now);
    LastMinuteCount(c, Exec(c, START, es), now);
  }

  lemma LastMinuteCount(c: Settings, s: State, now: real)
    requires Limited(c, s, now)
    ensures |Recent(s.rate, now)| == SentInLastMinute(s.sent, now)
  {
    RecentCount(s.sent, now);
    CountSame(s.sent, (t: real) => now - RATE_LIMIT_SECONDS < t <= now, (t: real) => now - t < RATE_LIMIT_SECONDS);
  }

  /* ---------- The worker can block itself ---------- */

  /** The worker waits to put a text back into a queue it alone empties. */
  ghost predicate Stuck(c: Settings, s: State) {
    c.queueSize > 0 && |s.queue| >= c.queueSize && s.held != []
  }

  /** Once that happens nothing is sent or enqueued any more. */
  lemma {:induction false} StuckForever(c: Settings, s: State, es: seq<Event>)
    requires Stuck(c, s)
    ensures Exec(c, s, es) == s
    decreases |es|
  {
    if es != [] {
      StuckForever(c, s, es[..|es| - 1]);
    }
  }

  lemma {:induction false} ExecAppend(c: Settings, s: State, es: seq<Event>, fs: seq<Event>)
    ensures Exec(c, s, es + fs) == Exec(c, Exec(c, s, es), fs)
    decreases |fs|
  {
    if fs == [] {
      assert es + fs == es;
    } else {
      assert (es + fs)[..|es + fs| - 1] == es + fs[..|fs| - 1];
      ExecAppend(c, s, es, fs[..|fs| - 1]);
    }
  }

  /** A moment at which nothing in the list is recent. */
  lemma {:induction false} Later(rate: seq<real>, from: real) returns (now: real)
    ensures from <= now && forall t: real :: now <= t ==> Recent(rate, t) == []
  {
    if rate == [] {
      now := from;
    } else {
      now := Later(rate[1..], if from < rate[0] + RATE_LIMIT_SECONDS then rate[0] + RATE_LIMIT_SECONDS else from);
    }
  }

  /** Putting back what is held and then posting, late enough, sends one of the texts left. */
  lemma OneSent(c: Settings, s: State, now: real)
    requires c.rateLimit > 0 && !Stuck(c, s) && |s.held| <= 1 && (s.queue != [] || s.held != [])
    requires Recent(s.rate, now) == []
    ensures var t := Exec(c, s, [Requeue, Work(now, true)]);
            t.held == [] && |t.queue| == |s.queue| + |s.held| - 1 && t.sent == s.sent + [now]
  {
    assert [Requeue, Work(now, true)][..1] == [Requeue] && [Requeue][..0] == [];
    assert Exec(c, s, [Requeue]) == Requeued(c, s);
  }

  lemma {:induction false} Drains(c: Settings, s: State) returns (es: seq<Event>)
    requires c.rateLimit > 0 && !Stuck(c, s) && |s.held| <= 1
    ensures var t := Exec(c, s, es);
            t.queue == [] && t.held == [] && |t.sent| == |s.sent| + |s.queue| + |s.held|
    decreases |s.queue| + |s.held|
  {
    es := [];
    if s.queue != [] || s.held != [] {
      var now := Later(s.rate, 0.0);
      var round := [Requeue, Work(now, true)];
      OneSent(c, s, now);
      var rest := Drains(c, Exec(c, s, round));
      ExecAppend(c, s, round, rest);
      es := round + rest;
    }
  }

  /** With a positive limit, the handler can still send everything it has taken on if and only if it is not stuck. */
  lemma DrainsIff(c: Settings, s: State)
    requires c.rateLimit > 0 && |s.held| <= 1
    ensures (exists es :: Exec(c, s, es).queue == [] && Exec(c, s, es).held == []) <==> !Stuck(c, s)
  {
    if Stuck(c, s) {
      forall es
        ensures Exec(c, s, es).held != []
      {
        StuckForever(c, s, es);
      }
    } else {
      var es := Drains(c, s);
    }
  }

  /* ---------- When it does ---------- */

  /** Texts of different keys, none of them enqueued yet. */
  ghost predicate Unseen(c: Settings, s: State, texts: seq<string>) {
    && (forall i :: 0 <= i < |texts| ==> c.hash(texts[i]) !in s.dedup)
    && (forall i, j :: 0 <= i < j < |texts| ==> c.hash(texts[i]) != c.hash(texts[j]))
  }

  function Rest(texts: seq<string>): seq<string> {
    if texts == [] then [] else texts[1..]
  }

  /** Every clock reading of the run is this moment. */
  ghost predicate AllAt(es: seq<Event>, now: real) {
    forall k :: 0 <= k < |es| && !es[k].Requeue? ==> es[k].now == now
  }

  /** The handler accepts the next unseen text now or, when there are none left, any text at a late enough moment. */
  lemma TakeOn(c: Settings, s: State, texts: seq<string>, now: real) returns (e: Event)
    requires HasRoom(c, s.queue) && Unseen(c, s, texts) && now >= c.dedupWindow as real
    ensures e.Emit? && (texts != [] ==> e.now == now)
    ensures var t := Apply(c, s, e);
            && t.queue == s.queue + [e.text] && t.held == s.held && t.rate == s.rate
            && Unseen(c, t, Rest(texts))
  {
    if texts == [] {
      e := Emit("", LastEnqueued(s.dedup, c.hash("")) + c.dedupWindow as real);
    } else {
      e := Emit(texts[0], now);
    }
  }

  lemma ExecOne(c: Settings, s: State, e: Event)
    ensures Exec(c, s, [e]) == Apply(c, s, e)
  {
    assert [e][..0] == [] && Exec(c, s, []) == s;
  }

  /** One text taken on and one round of the worker. */
  lemma OneRound(c: Settings, s: State, texts: seq<string>, now: real) returns (es: seq<Event>)
    requires c.queueSize > 0 && s.queue == [] && s.held == [] && Recent(s.rate, now) == s.rate
    requires Unseen(c, s, texts) && now >= c.dedupWindow as real
    ensures var t := Exec(c, s, es);
            && t.queue == [] && Unseen(c, t, Rest(texts))
            && (|s.rate| < c.rateLimit ==> t.held == [] && t.rate == s.rate + [now] && Recent(t.rate, now) == t.rate)
            && (|s.rate| >= c.rateLimit ==> t.held != [])
    ensures texts != [] ==> AllAt(es, now)
  {
    var e := TakeOn(c, s, texts, now);
    var work := Work(now, true);
    ExecOne(c, s, e);
    ExecOne(c, Apply(c, s, e), work);
    ExecAppend(c, s, [e], [work]);
    es := [e] + [work];
    RecentConcat(s.rate, [now], now);
    assert Recent([now], now) == [now];
  }

  /** Rounds until the limit is reached and a text is held back. */
  lemma {:induction false} HoldRun(c: Settings, s: State, texts: seq<string>,
        now: real) returns (es: seq<Event>, left: seq<string>)
    requires c.queueSize > 0 && s.queue == [] && s.held == [] && Recent(s.rate, now) == s.rate
    requires Unseen(c, s, texts) && now >= c.dedupWindow as real
    ensures var t := Exec(c, s, es); t.queue == [] && t.held != [] && Unseen(c, t, left)
    ensures c.rateLimit - |s.rate| + 1 <= |texts| && 1 <= |texts| ==>
              AllAt(es, now) && |left| >= |texts| - 1 - (if |s.rate| < c.rateLimit then c.rateLimit - |s.rate| else 0)
    decreases c.rateLimit - |s.rate|
  {
    es := OneRound(c, s, texts, now);
    left := Rest(texts);
    if |s.rate| < c.rateLimit {
      var more;
      more, left := HoldRun(c, Exec(c, s, es), Rest(texts), now);
      ExecAppend(c, s, es, more);
      es := es + more;
    }
  }

  /** Emits until the queue is full behind the text held back. */
  lemma {:induction false} FillRun(c: Settings, s: State, texts: seq<string>, now: real) returns (es: seq<Event>)
    requires c.queueSize > 0 && |s.queue| <= c.queueSize && s.held != []
    requires Unseen(c, s, texts) && now >= c.dedupWindow as real
    ensures Stuck(c, Exec(c, s, es))
    ensures c.queueSize - |s.queue| <= |texts| ==> AllAt(es, now)
    decreases c.queueSize - |s.queue|
  {
    if |s.queue| == c.queueSize {
      es := [];
    } else {
      var e := TakeOn(c, s, texts, now);
      ExecOne(c, s, e);
      var more := FillRun(c, Apply(c, s, e), Rest(texts), now);
      ExecAppend(c, s, [e], more);
      es := [e] + more;
    }
  }

  lemma StuckRun(c: Settings, texts: seq<string>, now: real) returns (es: seq<Event>)
    requires c.queueSize > 0 && Unseen(c, START, texts) && now >= c.dedupWindow as real
    ensures Stuck(c, Exec(c, START, es))
    ensures |texts| >= c.queueSize + 1 + (if c.rateLimit < 0 then 0 else c.rateLimit) ==> AllAt(es, now)
  {
    var hold, left := HoldRun(c, START, texts, now);
    var fill := FillRun(c, Exec(c, START, hold), left, now);
    ExecAppend(c, START, hold, fill);
    es := hold + fill;
  }

  ghost predicate GetsStuck(c: Settings, es: seq<Event>) {
    Stuck(c, Exec(c, START, es))
  }

  /** Some run blocks the handler for good if and only if its queue is bounded. */
  lemma StuckIff(c: Settings)
    ensures (exists es :: GetsStuck(c, es)) <==> c.queueSize > 0
  {
    if c.queueSize > 0 {
      var es := StuckRun(c, [], c.dedupWindow as real);
      assert GetsStuck(c, es);
    }
  }

  ghost predicate HasTexts(c: Settings, n: nat) {
    exists texts :: |texts| == n && Unseen(c, START, texts)
  }

  /** However many texts are asked for, there are that many with different keys. */
  ghost predicate ManyKeys(c: Settings) {
    forall n: nat :: HasTexts(c, n)
  }

  /** That holds with a single clock too, and even within one moment, when there are texts of enough different keys. */
  lemma StuckAtOnceIff(c: Settings, now: real)
    requires ManyKeys(c) && now >= c.dedupWindow as real
    ensures (exists es :: AllAt(es, now) && GetsStuck(c, es)) <==> c.queueSize > 0
  {
    if c.queueSize > 0 {
      var n: nat := c.queueSize + 1 + if c.rateLimit < 0 then 0 else c.rateLimit;
      assert HasTexts(c, n);
      var texts :| |texts| == n && Unseen(c, START, texts);
      var es := StuckRun(c, texts, now);
      assert AllAt(es, now) && GetsStuck(c, es);
    }
  }
}
