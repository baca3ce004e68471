/** Topic-exchange routing of the job queues: keys, bindings and what a published key reaches. */
module Routing {
  import opened Decimal

  datatype JobType = InitialReply | FollowupReply | AgentDirective | TicketClosed

  function JobValue(job: JobType): string {
    match job
    case InitialReply => "initial_reply"
    case FollowupReply => "followup_reply"
    case AgentDirective => "agent_directive"
    case TicketClosed => "ticket_closed"
  }

  const RETRY_DELAYS: seq<nat> := [60, 300, 900]
  const MAX_RETRIES: nat := 3

  ghost predicate Plain(s: string) {
    '.' !in s && s != "*" && s != "#" && s != ""
  }

  lemma DecFacts(n: int)
    ensures Plain(Dec(n))
    ensures Dec(n) != "unknown"
  {
    DigitsFacts(if n < 0 then -n else n);
    var s := Dec(n);
    assert n >= 0 ==> s[0] in Digits(n);
    assert "unknown"[0] == 'u';
  }

  /* ---------- Keys as words; topic matching (section 3.1.3.3 of AMQP 0-9-1) ---------- */

  function Words(key: string): (words: seq<string>)
    ensures |words| >= 1
  {
    if key == "" then [""]
    else
      var rest := Words(key[1..]);
      if key[0] == '.' then [""] + rest else [[key[0]] + rest[0]] + rest[1..]
  }

  predicate TopicMatches(pattern: seq<string>, words: seq<string>)
    decreases |pattern| + |words|
  {
    if pattern == [] then words == []
    else if pattern[0] == "#" then
      TopicMatches(pattern[1..], words) || (words != [] && TopicMatches(pattern, words[1..]))
    else
      words != [] && (pattern[0] == "*" || pattern[0] == words[0]) && TopicMatches(pattern[1..], words[1..])
  }

  /** A binding key without wildcards matches exactly itself. */
  lemma {:induction false} WildcardFreeMatch(pattern: seq<string>, words: seq<string>)
    requires "*" !in pattern && "#" !in pattern
    ensures TopicMatches(pattern, words) <==> pattern == words
    decreases |pattern|
  {
    if pattern != [] && words != [] {
      assert pattern == [pattern[0]] + pattern[1..] && words == [words[0]] + words[1..];
      WildcardFreeMatch(pattern[1..], words[1..]);
    }
  }

  /** A hash stands for any number of words, none included. */
  lemma {:induction false} HashMatches(rest: seq<string>, words: seq<string>)
    ensures TopicMatches(["#"] + rest, words) <==> exists k :: 0 <= k <= |words| && TopicMatches(rest, words[k..])
    decreases |words|
  {
    var pattern := ["#"] + rest;
    assert pattern[0] == "#" && pattern[1..] == rest;
    assert words[0..] == words;
    if words != [] {
      HashMatches(rest, words[1..]);
      if k :| 0 <= k <= |words[1..]| && TopicMatches(rest, words[1..][k..]) {
        assert words[1..][k..] == words[k + 1..];
      }
      if k :| 0 < k <= |words| && TopicMatches(rest, words[k..]) {
        assert words[1..][k - 1..] == words[k..];
      }
    }
  }

  lemma {:induction false} WordsOfOne(word: string)
    requires '.' !in word
    ensures Words(word) == [word]
  {
    if word != "" {
      WordsOfOne(word[1..]);
      assert [word[0]] + word[1..] == word;
    }
  }

  lemma {:induction false} WordsOfDotted(word: string, rest: string)
    requires '.' !in word
    ensures Words(word + "." + rest) == [word] + Words(rest)
  {
    var key := word + "." + rest;
    if word == "" {
      assert key[0] == '.' && key[1..] == rest;
    } else {
      assert key[0] == word[0] && key[1..] == word[1..] + "." + rest;
      WordsOfDotted(word[1..], rest);
      assert [word[0]] + word[1..] == word;
    }
  }

  lemma JobValueFacts(job: JobType)
    ensures Plain(JobValue(job))
  {
  }

  lemma JobValueInjective(a: JobType, b: JobType)
    requires JobValue(a) == JobValue(b)
    ensures a == b
  {
    var va, vb := JobValue(a), JobValue(b);
    assert va[0] == vb[0];
  }

  /* ---------- Keys, queues and bindings ---------- */

  datatype Exchange = Jobs | Dlx

  datatype Queue =
    | MainQueue(job: JobType, brand: int)
    | RetryQueue(job: JobType, brand: int, n: nat)
    | DeadQueue(job: JobType, brand: int)

  datatype Binding = Binding(exchange: Exchange, key: string, queue: Queue)

  function PublishKey(job: JobType, brand: int): string {
    JobValue(job) + "." + Dec(brand)
  }

  /** The brand part of a dead-letter key: a brand header that is 0 counts as missing. */
  function BrandWord(brand: int): string {
    if brand == 0 then "unknown" else Dec(brand)
  }

  function RetryKey(job: JobType, brand: int, attempt: nat): string {
    JobValue(job) + "." + (BrandWord(brand) + "." + ("retry" + "." + Dec(attempt)))
  }

  function DeadKey(job: JobType, brand: int): string {
    JobValue(job) + "." + (BrandWord(brand) + "." + "dead")
  }

  /** The binding that a topology declaration makes for a queue. */
  function BindingFor(q: Queue): Binding {
    match q
    case MainQueue(job, brand) => Binding(Jobs, PublishKey(job, brand), q)
    case RetryQueue(job, brand, n) =>
      Binding(Dlx, JobValue(job) + "." + (Dec(brand) + "." + ("retry" + "." + Dec(n))), q)
    case DeadQueue(job, brand) => Binding(Dlx, JobValue(job) + "." + (Dec(brand) + "." + "dead"), q)
  }

  ghost predicate Declarable(b: Binding) {
    b == BindingFor(b.queue) && (b.queue.RetryQueue? ==> 1 <= b.queue.n <= MAX_RETRIES)
  }

  /** Binding is idempotent: the broker keeps one copy of a repeated declaration. */
  function Bind(bindings: seq<Binding>, b: Binding): seq<Binding> {
    if b in bindings then bindings else bindings + [b]
  }

  ghost predicate Unique<T>(s: seq<T>) {
    forall i, j :: 0 <= i < j < |s| ==> s[i] != s[j]
  }

  ghost predicate HasQueue(bindings: seq<Binding>, q: Queue) {
    exists i :: 0 <= i < |bindings| && bindings[i].queue == q
  }

  ghost predicate Declared(bindings: seq<Binding>, job: JobType, brand: int) {
    && HasQueue(bindings, MainQueue(job, brand))
    && (forall n: nat :: 1 <= n <= MAX_RETRIES ==> HasQueue(bindings, RetryQueue(job, brand, n)))
    && HasQueue(bindings, DeadQueue(job, brand))
  }

  /** Every binding was made by a topology declaration, none twice, and declarations were whole. */
  ghost predicate ValidTopology(bindings: seq<Binding>) {
    && Unique(bindings)
    && (forall b :: b in bindings ==> Declarable(b))
    && (forall b :: b in bindings ==> Declared(bindings, b.queue.job, b.queue.brand))
  }

  lemma BoundQueue(bindings: seq<Binding>, q: Queue)
    requires forall b :: b in bindings ==> Declarable(b)
    ensures HasQueue(bindings, q) <==> BindingFor(q) in bindings && Declarable(BindingFor(q))
  {
    if i :| 0 <= i < |bindings| && bindings[i].queue == q {
      assert bindings[i] in bindings;
    }
    if BindingFor(q) in bindings {
      var i :| 0 <= i < |bindings| && bindings[i] == BindingFor(q);
      assert bindings[i].queue == q;
    }
  }

  /** The queues a message published to `exchange` with `key` reaches, one copy each. */
  function Route(bindings: seq<Binding>, exchange: Exchange, key: string): seq<Queue> {
    if bindings == [] then []
    else
      var rest := Route(bindings[1..], exchange, key);
      if bindings[0].exchange == exchange && TopicMatches(Words(bindings[0].key), Words(key))
      then [bindings[0].queue] + rest
      else rest
  }

  function KeyWords(b: Binding): seq<string> {
    match b.queue
    case MainQueue(job, brand) => [JobValue(job), Dec(brand)]
    case RetryQueue(job, brand, n) => [JobValue(job), Dec(brand), "retry", Dec(n)]
    case DeadQueue(job, brand) => [JobValue(job), Dec(brand), "dead"]
  }

  lemma TwoWords(job: JobType, word: string)
    requires '.' !in word
    ensures Words(JobValue(job) + "." + word) == [JobValue(job), word]
  {
    JobValueFacts(job);
    WordsOfDotted(JobValue(job), word);
    WordsOfOne(word);
  }

  lemma ThreeWords(job: JobType, word: string, last: string)
    requires '.' !in word && '.' !in last
    ensures Words(JobValue(job) + "." + (word + "." + last)) == [JobValue(job), word, last]
  {
    JobValueFacts(job);
    WordsOfOne(last);
    WordsOfDotted(word, last);
    WordsOfDotted(JobValue(job), word + "." + last);
  }

  lemma FourWords(job: JobType, word: string, third: string, last: string)
    requires '.' !in word && '.' !in third && '.' !in last
    ensures Words(JobValue(job) + "." + (word + "." + (third + "." + last))) == [JobValue(job), word, third, last]
  {
    JobValueFacts(job);
    WordsOfOne(last);
    WordsOfDotted(third, last);
    WordsOfDotted(word, third + "." + last);
    WordsOfDotted(JobValue(job), word + "." + (third + "." + last));
  }

  lemma WordsOfBinding(b: Binding)
    requires Declarable(b)
    ensures Words(b.key) == KeyWords(b)
    ensures "*" !in KeyWords(b) && "#" !in KeyWords(b)
  {
    JobValueFacts(b.queue.job);
    DecFacts(b.queue.brand);
    match b.queue
    case MainQueue(job, brand) => TwoWords(job, Dec(brand));
    case RetryQueue(job, brand, n) =>
      DecFacts(n);
      FourWords(job, Dec(brand), "retry", Dec(n));
    case DeadQueue(job, brand) => ThreeWords(job, Dec(brand), "dead");
  }

  /** No two different declarable bindings of one exchange share a key. */
  lemma KeyWordsInjective(a: Binding, b: Binding)
    requires Declarable(a) && Declarable(b) && a.exchange == b.exchange && KeyWords(a) == KeyWords(b)
    ensures a == b
  {
    var wa, wb := KeyWords(a), KeyWords(b);
    assert wa[0] == wb[0] && wa[1] == wb[1];
    JobValueInjective(a.queue.job, b.queue.job);
    DecInjective(a.queue.brand, b.queue.brand);
    if |wa| == 4 {
      assert wa[3] == wb[3];
      DecInjective(a.queue.n, b.queue.n);
    }
  }

  lemma {:induction false} RouteMissing(bindings: seq<Binding>, exchange: Exchange, key: string)
    requires forall b :: b in bindings ==> Declarable(b)
    requires forall b :: b in bindings && b.exchange == exchange ==> KeyWords(b) != Words(key)
    ensures Route(bindings, exchange, key) == []
  {
    if bindings != [] {
      WordsOfBinding(bindings[0]);
      WildcardFreeMatch(KeyWords(bindings[0]), Words(key));
      assert bindings[0] in bindings;
      RouteMissing(bindings[1..], exchange, key);
    }
  }

  lemma {:induction false} RouteFound(bindings: seq<Binding>, b: Binding, key: string)
    requires Unique(bindings) && (forall x :: x in bindings ==> Declarable(x))
    requires b in bindings && KeyWords(b) == Words(key)
    ensures Route(bindings, b.exchange, key) == [b.queue]
  {
    var first, rest := bindings[0], bindings[1..];
    WordsOfBinding(first);
    WildcardFreeMatch(KeyWords(first), Words(key));
    assert Unique(rest) by {
      assert forall i :: 0 <= i < |rest| ==> rest[i] == bindings[i + 1];
    }
    if first == b {
      forall x | x in rest && x.exchange == b.exchange
        ensures KeyWords(x) != Words(key)
      {
        if KeyWords(x) == Words(key) {
          KeyWordsInjective(x, b);
          assert false;
        }
      }
      RouteMissing(rest, b.exchange, key);
    } else {
      if first.exchange == b.exchange && KeyWords(first) == Words(key) {
        KeyWordsInjective(first, b);
        assert false;
      }
      RouteFound(rest, b, key);
    }
  }

  /** A published job reaches exactly its own main queue, if that topology was declared, and nothing otherwise. */
  lemma RoutePublish(bindings: seq<Binding>, job: JobType, brand: int)
    requires ValidTopology(bindings)
    ensures Route(bindings, Jobs, PublishKey(job, brand))
         == if Declared(bindings, job, brand) then [MainQueue(job, brand)] else []
  {
    var b := BindingFor(MainQueue(job, brand));
    WordsOfBinding(b);
    BoundQueue(bindings, b.queue);
    if b in bindings {
      RouteFound(bindings, b, b.key);
    } else {
      forall x | x in bindings && x.exchange == Jobs
        ensures KeyWords(x) != Words(b.key)
      {
        if KeyWords(x) == KeyWords(b) {
          KeyWordsInjective(x, b);
          assert false;
        }
      }
      RouteMissing(bindings, Jobs, b.key);
    }
  }

  /** The keys as they are written on the wire. */
  lemma RouteNamed(bindings: seq<Binding>, brand: int)
    requires ValidTopology(bindings)
    ensures Route(bindings, Jobs, "initial_reply." + Dec(brand))
         == if Declared(bindings, InitialReply, brand) then [MainQueue(InitialReply, brand)] else []
    ensures Route(bindings, Jobs, "followup_reply." + Dec(brand))
         == if Declared(bindings, FollowupReply, brand) then [MainQueue(FollowupReply, brand)] else []
    ensures Route(bindings, Jobs, "agent_directive." + Dec(brand))
         == if Declared(bindings, AgentDirective, brand) then [MainQueue(AgentDirective, brand)] else []
    ensures Route(bindings, Jobs, "ticket_closed." + Dec(brand))
         == if Declared(bindings, TicketClosed, brand) then [MainQueue(TicketClosed, brand)] else []
  {
    NamedKey(bindings, InitialReply, "initial_reply.", brand);
    NamedKey(bindings, FollowupReply, "followup_reply.", brand);
    NamedKey(bindings, AgentDirective, "agent_directive.", brand);
    NamedKey(bindings, TicketClosed, "ticket_closed.", brand);
  }

  lemma NamedKey(bindings: seq<Binding>, job: JobType, prefix: string, brand: int)
    requires ValidTopology(bindings) && prefix == JobValue(job) + "."
    ensures Route(bindings, Jobs, prefix + Dec(brand))
         == if Declared(bindings, job, brand) then [MainQueue(job, brand)] else []
  {
    RoutePublish(bindings, job, brand);
  }

  lemma RouteToQueue(bindings: seq<Binding>, q: Queue)
    requires ValidTopology(bindings) && HasQueue(bindings, q)
    ensures Route(bindings, BindingFor(q).exchange, BindingFor(q).key) == [q]
  {
    BoundQueue(bindings, q);
    WordsOfBinding(BindingFor(q));
    RouteFound(bindings, BindingFor(q), BindingFor(q).key);
  }

  /** A dead-letter key reaches the brand's own retry or dead queue exactly when the brand id is not 0. */
  lemma RouteRetry(bindings: seq<Binding>, job: JobType, brand: int, attempt: nat)
    requires ValidTopology(bindings) && Declared(bindings, job, brand) && 1 <= attempt <= MAX_RETRIES
    ensures Route(bindings, Dlx, RetryKey(job, brand, attempt))
         == if brand != 0 then [RetryQueue(job, brand, attempt)] else []
  {
    if brand != 0 {
      RouteToQueue(bindings, RetryQueue(job, brand, attempt));
    } else {
      UnknownBrandUnbound(bindings, job, attempt);
    }
  }

  lemma RouteDead(bindings: seq<Binding>, job: JobType, brand: int)
    requires ValidTopology(bindings) && Declared(bindings, job, brand)
    ensures Route(bindings, Dlx, DeadKey(job, brand)) == if brand != 0 then [DeadQueue(job, brand)] else []
  {
    if brand != 0 {
      RouteToQueue(bindings, DeadQueue(job, brand));
    } else {
      UnknownBrandUnbound(bindings, job, 0);
    }
  }

  lemma UnknownBrandUnbound(bindings: seq<Binding>, job: JobType, attempt: nat)
    requires ValidTopology(bindings)
    ensures Route(bindings, Dlx, RetryKey(job, 0, attempt)) == []
    ensures Route(bindings, Dlx, DeadKey(job, 0)) == []
  {
    DecFacts(attempt);
    FourWords(job, "unknown", "retry", Dec(attempt));
    ThreeWords(job, "unknown", "dead");
    UnboundBrandWord(bindings, RetryKey(job, 0, attempt));
    UnboundBrandWord(bindings, DeadKey(job, 0));
  }

  lemma UnboundBrandWord(bindings: seq<Binding>, key: string)
    requires ValidTopology(bindings)
    requires |Words(key)| >= 2 && Words(key)[1] == "unknown"
    ensures Route(bindings, Dlx, key) == []
  {
    forall x | x in bindings && x.exchange == Dlx
      ensures KeyWords(x) != Words(key)
    {
      DecFacts(x.queue.brand);
      assert KeyWords(x)[1] == Dec(x.queue.brand);
    }
    RouteMissing(bindings, Dlx, key);
  }

  /* ---------- Declaring a topology ---------- */

  function RetryDeclared(bindings: seq<Binding>, job: JobType, brand: int, upTo: nat): seq<Binding> {
    if upTo == 0 then bindings
    else Bind(RetryDeclared(bindings, job, brand, upTo - 1), BindingFor(RetryQueue(job, brand, upTo)))
  }

  function Topology(bindings: seq<Binding>, job: JobType, brand: int): seq<Binding> {
    Bind(RetryDeclared(Bind(bindings, BindingFor(MainQueue(job, brand))), job, brand, MAX_RETRIES),
         BindingFor(DeadQueue(job, brand)))
  }

  ghost predicate OfPair(b: Binding, job: JobType, brand: int) {
    Declarable(b) && b.queue.job == job && b.queue.brand == brand
  }

  lemma {:induction false} RetryDeclaredFacts(bindings: seq<Binding>, job: JobType, brand: int, upTo: nat)
    requires Unique(bindings)
    ensures Unique(RetryDeclared(bindings, job, brand, upTo))
    ensures forall x :: x in RetryDeclared(bindings, job, brand, upTo)
                   <==> || x in bindings
                        || (&& x.queue.RetryQueue? && 1 <= x.queue.n <= upTo
                            && x == BindingFor(RetryQueue(job, brand, x.queue.n)))
  {
    if upTo > 0 {
      RetryDeclaredFacts(bindings, job, brand, upTo - 1);
    }
  }

  lemma TopologyMembers(bindings: seq<Binding>, job: JobType, brand: int)
    requires Unique(bindings)
    ensures Unique(Topology(bindings, job, brand))
    ensures forall x :: x in Topology(bindings, job, brand) <==> x in bindings || OfPair(x, job, brand)
  {
    RetryDeclaredFacts(Bind(bindings, BindingFor(MainQueue(job, brand))), job, brand, MAX_RETRIES);
  }

  lemma QueuesAfter(bindings: seq<Binding>, job: JobType, brand: int, q: Queue)
    requires ValidTopology(bindings) && (q.RetryQueue? ==> 1 <= q.n <= MAX_RETRIES)
    ensures HasQueue(Topology(bindings, job, brand), q) <==> HasQueue(bindings, q) || (q.job == job && q.brand == brand)
  {
    TopologyMembers(bindings, job, brand);
    BoundQueue(bindings, q);
    BoundQueue(Topology(bindings, job, brand), q);
  }

  lemma DeclaredAfter(bindings: seq<Binding>, job: JobType, brand: int, j: JobType, b: int)
    requires ValidTopology(bindings)
    ensures Declared(Topology(bindings, job, brand), j, b) <==> Declared(bindings, j, b) || (j == job && b == brand)
  {
    QueuesAfter(bindings, job, brand, MainQueue(j, b));
    QueuesAfter(bindings, job, brand, DeadQueue(j, b));
    forall n: nat | 1 <= n <= MAX_RETRIES
      ensures HasQueue(Topology(bindings, job, brand), RetryQueue(j, b, n))
         <==> HasQueue(bindings, RetryQueue(j, b, n)) || (j == job && b == brand)
    {
      QueuesAfter(bindings, job, brand, RetryQueue(j, b, n));
    }
  }

  /** Declaring a pair keeps the topology valid, adds this pair only, and repeating it changes nothing. */
  lemma TopologyDeclared(bindings: seq<Binding>, job: JobType, brand: int)
    requires ValidTopology(bindings)
    ensures ValidTopology(Topology(bindings, job, brand))
    ensures forall j, b :: Declared(Topology(bindings, job, brand), j, b) <==>
          Declared(bindings, j, b) || (j == job && b == brand)
    ensures Topology(Topology(bindings, job, brand), job, brand) == Topology(bindings, job, brand)
  {
    var result := Topology(bindings, job, brand);
    TopologyMembers(bindings, job, brand);
    forall j, b
      ensures Declared(result, j, b) <==> Declared(bindings, j, b) || (j == job && b == brand)
    {
      DeclaredAfter(bindings, job, brand, j, b);
    }
    RetryRedeclared(result, job, brand, MAX_RETRIES);
  }

  lemma {:induction false} RetryRedeclared(bindings: seq<Binding>, job: JobType, brand: int, upTo: nat)
    requires forall b :: OfPair(b, job, brand) ==> b in bindings
    requires upTo <= MAX_RETRIES
    ensures RetryDeclared(bindings, job, brand, upTo) == bindings
    ensures Bind(bindings, BindingFor(MainQueue(job, brand))) == bindings
    ensures Bind(bindings, BindingFor(DeadQueue(job, brand))) == bindings
  {
    assert OfPair(BindingFor(MainQueue(job, brand)), job, brand) &&
        OfPair(BindingFor(DeadQueue(job, brand)), job, brand);
    if upTo > 0 {
      RetryRedeclared(bindings, job, brand, upTo - 1);
      assert OfPair(BindingFor(RetryQueue(job, brand, upTo)), job, brand);
    }
  }

  method DeclareBrandTopology(bindings: seq<Binding>, job: JobType, brand: int) returns (result: seq<Binding>)
    requires ValidTopology(bindings)
    ensures result == Topology(bindings, job, brand)
    ensures ValidTopology(result) && Declared(result, job, brand)
    ensures forall j, b :: Declared(result, j, b) ==> Declared(bindings, j, b) || (j == job && b == brand)
  {
    TopologyDeclared(bindings, job, brand);
    result := Bind(bindings, BindingFor(MainQueue(job, brand)));
    var i := 0;
    while i < |RETRY_DELAYS|
      invariant 0 <= i <= |RETRY_DELAYS|
      invariant result == RetryDeclared(Bind(bindings, BindingFor(MainQueue(job, brand))), job, brand, i)
    {
      i := i + 1;
      result := Bind(result, BindingFor(RetryQueue(job, brand, i)));
    }
    result := Bind(result, BindingFor(DeadQueue(job, brand)));
  }
}
