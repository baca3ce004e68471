/** Compiled filters cached per brand by version stamp, while several processes change the rules. */
module FilterCache {
  import opened RuleFilter
  import opened Wrappers

  /** Committed rows: each brand's version stamp, in whole seconds, and the rule table. */
  datatype Committed = Committed(stamps: map<int, int>, rules: seq<Rule>)

  datatype Entry = Entry(version: Option<int>, filter: Config)

  function Version(db: Committed, brand: int): Option<int> {
    if brand in db.stamps then Some(db.stamps[brand]) else None
  }

  predicate Concerns(rule: Rule, brand: int) {
    rule.isActive && (rule.brand.None? || rule.brand.value == brand)
  }

  /** The active rules of every brand and of this one. */
  function RulesFor(rules: seq<Rule>, brand: int): seq<Rule> {
    if rules == [] then []
    else (if Concerns(rules[0], brand) then [rules[0]] else []) + RulesFor(rules[1..], brand)
  }

  /** The filter the committed rules compile to, if they do. */
  function FilterOf(lib: Lib, db: Committed, brand: int): Option<Config> {
    FromRules(lib, RulesFor(db.rules, brand))
  }

  predicate IsHit(byBrand: map<int, Entry>, brand: int, version: Option<int>) {
    brand in byBrand && byBrand[brand].version == version
  }

  /** What a call returns, and the entries it leaves, reading the stamp of one commit and the rules of another. */
  function CallResult(lib: Lib, byBrand: map<int, Entry>, checked: Committed, loaded: Committed, brand: int)
    : (Option<Config>, map<int, Entry>)
  {
    if IsHit(byBrand, brand, Version(checked, brand)) then (Some(byBrand[brand].filter), byBrand)
    else
      var filter := FilterOf(lib, loaded, brand);
      (filter, if filter.None? then byBrand else byBrand[brand := Entry(Version(checked, brand), filter.value)])
  }

  class TicketsFilterCache {
    var byBrand: map<int, Entry>

    constructor ()
      ensures byBrand == map[]
    {
      byBrand := map[];
    }

    /** The stamp is read from `checked` and the rules from `loaded`: a commit may fall between the two reads. */
    method GetFilter(lib: Lib, checked: Committed, loaded: Committed, brand: int) returns (filter: Option<Config>)
      modifies this
      ensures (filter, byBrand) == CallResult(lib, old(byBrand), checked, loaded, brand)
    {
      var version := Version(checked, brand);
      if brand in byBrand && byBrand[brand].version == version {
        return Some(byBrand[brand].filter);
      }
      var rules: seq<Rule> := [];
      for i := 0 to |loaded.rules|
        invariant byBrand == old(byBrand)
        invariant rules + RulesFor(loaded.rules[i..], brand) == RulesFor(loaded.rules, brand)
      {
        assert loaded.rules[i..][0] == loaded.rules[i] && loaded.rules[i..][1..] == loaded.rules[i + 1..];
        if Concerns(loaded.rules[i], brand) {
          rules := rules + [loaded.rules[i]];
        }
      }
      assert loaded.rules[|loaded.rules|..] == [];
      assert rules == RulesFor(loaded.rules, brand);
      filter := ProcessRules(lib, rules);
      if filter.None? {
        return;
      }
      byBrand := byBrand[brand := Entry(version, filter.value)];
    }

    method Clear()
      modifies this
      ensures byBrand == map[]
    {
      byBrand := map[];
    }
  }

  /** A transaction that changes rules stamps every supported brand with its clock. */
  function RuleChange(db: Committed, supported: set<int>, rules: seq<Rule>, now: int): Committed {
    Committed(map b | b in supported + db.stamps.Keys :: if b in supported then now else db.stamps[b], rules)
  }

  /* ---------- Concurrent calls against a history of commits ---------- */

  /** How far a call has come. `since` and `until` count the commits before its first and last step. */
  datatype Call =
    | Checked(process: nat, brand: int, version: Option<int>, since: nat)
    | Missed(process: nat, brand: int, version: Option<int>, since: nat)
    | Loaded(process: nat, brand: int, version: Option<int>, since: nat, rules: seq<Rule>)
    | Raised
    | Returned(brand: int, filter: Config, since: nat, until: nat)

  datatype State = State(now: nat, caches: map<nat, map<int, Entry>>, calls: map<nat, Call>)

  datatype Event =
    | Commit
    | Check(call: nat, process: nat, brand: int)
    | LookUp(call: nat)
    | Load(call: nat)
    | Store(call: nat)
    | ClearCache(process: nat)

  const START: State := State(0, map[], map[])

  function CacheOf(s: State, process: nat): map<int, Entry> {
    if process in s.caches then s.caches[process] else map[]
  }

  function Apply(lib: Lib, h: seq<Committed>, s: State, e: Event): State
    requires s.now < |h|
    ensures Apply(lib, h, s, e).now < |h|
  {
    match e
    case Commit => if s.now + 1 < |h| then s.(now := s.now + 1) else s
    case Check(call, process, brand) =>
      if call in s.calls then s
      else s.(calls := s.calls[call := Checked(process, brand, Version(h[s.now], brand), s.now)])
    case LookUp(call) =>
      if call !in s.calls || !s.calls[call].Checked? then s
      else
        var c := s.calls[call];
        var cache := CacheOf(s, c.process);
        if IsHit(cache, c.brand, c.version) then
          s.(calls := s.calls[call := Returned(c.brand, cache[c.brand].filter, c.since, s.now)])
        else s.(calls := s.calls[call := Missed(c.process, c.brand, c.version, c.since)])
    case Load(call) =>
      if call !in s.calls || !s.calls[call].Missed? then s
      else
        var c := s.calls[call];
        s.(calls := s.calls[call := Loaded(c.process, c.brand, c.version, c.since, h[s.now].rules)])
    case Store(call) =>
      if call !in s.calls || !s.calls[call].Loaded? then s
      else
        var c := s.calls[call];
        var filter := FromRules(lib, RulesFor(c.rules, c.brand));
        if filter.None? then s.(calls := s.calls[call := Raised])
        else
          s.(caches := s.caches[c.process := CacheOf(s, c.process)[c.brand := Entry(c.version, filter.value)]],
             calls := s.calls[call := Returned(c.brand, filter.value, c.since, s.now)])
    case ClearCache(process) => s.(caches := s.caches[process := map[]])
  }

  function Exec(lib: Lib, h: seq<Committed>, s: State, es: seq<Event>): State
    requires s.now < |h|
    ensures Exec(lib, h, s, es).now < |h|
    decreases |es|
  {
    if es == [] then s else Apply(lib, h, Exec(lib, h, s, es[..|es| - 1]), es[|es| - 1])
  }

  lemma LookedUp(lib: Lib, h: seq<Committed>, s: State, call: nat, process: nat, brand: int)
    requires s.now < |h| && call !in s.calls
    ensures var version, cache := Version(h[s.now], brand), CacheOf(s, process);
            Apply(lib, h, Apply(lib, h, s, Check(call, process, brand)), LookUp(call))
              == s.(calls := s.calls[call :=
                   if IsHit(cache, brand, version) then Returned(brand, cache[brand].filter, s.now, s.now)
                   else Missed(process, brand, version, s.now)])
  {
    var checked := Checked(process, brand, Version(h[s.now], brand), s.now);
    var t := Apply(lib, h, s, Check(call, process, brand));
    assert t == s.(calls := s.calls[call := checked]) && CacheOf(t, process) == CacheOf(s, process);
    var u := Apply(lib, h, t, LookUp(call));
    assert u.calls == s.calls[call := u.calls[call]];
  }

  /**
    The four steps of a call, with commits between its two reads but nothing else of its process, do what `GetFilter`
    does: same result, same entries.
   */
  lemma StepsAreGetFilter(lib: Lib, h: seq<Committed>, s: State, call: nat, process: nat, brand: int, later: nat)
    requires s.now <= later < |h| && call !in s.calls
    ensures var t := Apply(lib, h, Apply(lib, h, s, Check(call, process, brand)), LookUp(call)).(now := later);
            var u := Apply(lib, h, Apply(lib, h, t, Load(call)), Store(call));
            var r := CallResult(lib, CacheOf(s, process), h[s.now], h[later], brand);
            && CacheOf(u, process) == r.1
            && (r.0.Some? ==> u.calls[call].Returned? && u.calls[call].filter == r.0.value)
            && (r.0.None? ==> u.calls[call].Raised?)
            && forall other :: other != process ==> CacheOf(u, other) == CacheOf(s, other)
  {
    LookedUp(lib, h, s, call, process, brand);
  }

  /** The filter is what the rules committed at some moment of the call compile to. */
  ghost predicate Current(lib: Lib, h: seq<Committed>, c: Call) {
    c.Returned? ==> exists k :: c.since <= k <= c.until && k < |h| && FilterOf(lib, h[k], c.brand) == Some(c.filter)
  }

  ghost predicate AllCurrent(lib: Lib, h: seq<Committed>, brand: int, s: State) {
    forall call :: call in s.calls && s.calls[call].Returned? && s.calls[call].brand == brand ==>
        Current(lib, h, s.calls[call])
  }

  /**
    The stamp after commits `i` and `p` is the same, yet the filter after commit `j` between them differs from the one
    after `p`.
   */
  ghost predicate Misleads(lib: Lib, h: seq<Committed>, brand: int, i: nat, j: nat, p: nat) {
    && i <= j <= p < |h|
    && Version(h[i], brand) == Version(h[p], brand)
    && FilterOf(lib, h[j], brand).Some? && FilterOf(lib, h[j], brand) != FilterOf(lib, h[p], brand)
  }

  ghost predicate StampsTell(lib: Lib, h: seq<Committed>, brand: int) {
    forall i, j, p :: !Misleads(lib, h, brand, i, j, p)
  }

  /** The entry was filled by a call that read the stamp after commit `i` and the rules after commit `j`. */
  ghost predicate FilledAt(lib: Lib, h: seq<Committed>, brand: int, e: Entry, i: nat, j: nat) {
    i <= j < |h| && Version(h[i], brand) == e.version && FilterOf(lib, h[j], brand) == Some(e.filter)
  }

  ghost predicate Filled(lib: Lib, h: seq<Committed>, brand: int, e: Entry, now: nat) {
    exists i: nat, j: nat {:trigger FilledAt(lib, h, brand, e, i, j)} :: j <= now && FilledAt(lib, h, brand, e, i, j)
  }

  ghost predicate CacheValid(lib: Lib, h: seq<Committed>, brand: int, s: State) {
    forall process :: brand in CacheOf(s, process) ==> Filled(lib, h, brand, CacheOf(s, process)[brand], s.now)
  }

  ghost predicate CallValid(h: seq<Committed>, c: Call, now: nat) {
    match c
    case Checked(_, b, version, since) => since <= now < |h| && version == Version(h[since], b)
    case Missed(_, b, version, since) => since <= now < |h| && version == Version(h[since], b)
    case Loaded(_, b, version, since, rules) =>
      && since <= now < |h| && version == Version(h[since], b)
      && exists j :: since <= j <= now && h[j].rules == rules
    case _ => true
  }

  ghost predicate Valid(lib: Lib, h: seq<Committed>, brand: int, s: State) {
    && CacheValid(lib, h, brand, s)
    && (forall call :: call in s.calls ==> CallValid(h, s.calls[call], s.now))
    && AllCurrent(lib, h, brand, s)
  }

  /** A hit: the entry may be newer than the stamp the call read, never older. */
  lemma HitIsCurrent(lib: Lib, h: seq<Committed>, brand: int, e: Entry, since: nat, now: nat)
    requires StampsTell(lib, h, brand) && Filled(lib, h, brand, e, now)
    requires since <= now < |h| && e.version == Version(h[since], brand)
    ensures exists k :: since <= k <= now && FilterOf(lib, h[k], brand) == Some(e.filter)
  {
    var i: nat, j: nat :| j <= now && FilledAt(lib, h, brand, e, i, j);
    if j < since {
      assert !Misleads(lib, h, brand, i, j, since);
      assert FilterOf(lib, h[since], brand) == Some(e.filter);
    }
  }

  /** A commit leaves caches and calls as they are. */
  lemma CommitValid(lib: Lib, h: seq<Committed>, brand: int, s: State)
    requires s.now + 1 < |h| && Valid(lib, h, brand, s)
    ensures Valid(lib, h, brand, s.(now := s.now + 1))
  {
    var t := s.(now := s.now + 1);
    forall process | brand in CacheOf(t, process)
      ensures Filled(lib, h, brand, CacheOf(t, process)[brand], t.now)
    {
      var i: nat, j: nat :| j <= s.now && FilledAt(lib, h, brand, CacheOf(s, process)[brand], i, j);
    }
  }

  lemma LookUpValid(lib: Lib, h: seq<Committed>, brand: int, s: State, call: nat)
    requires s.now < |h| && StampsTell(lib, h, brand) && Valid(lib, h, brand, s)
    requires call in s.calls && s.calls[call].Checked?
    ensures Valid(lib, h, brand, Apply(lib, h, s, LookUp(call)))
  {
    var c := s.calls[call];
    var t := Apply(lib, h, s, LookUp(call));
    if c.brand == brand && IsHit(CacheOf(s, c.process), brand, c.version) {
      HitIsCurrent(lib, h, brand, CacheOf(s, c.process)[brand], c.since, s.now);
      assert Current(lib, h, t.calls[call]);
    }
    assert forall process :: CacheOf(t, process) == CacheOf(s, process);
  }

  lemma StoreValid(lib: Lib, h: seq<Committed>, brand: int, s: State, call: nat)
    requires s.now < |h| && Valid(lib, h, brand, s)
    requires call in s.calls && s.calls[call].Loaded?
    ensures Valid(lib, h, brand, Apply(lib, h, s, Store(call)))
  {
    var c := s.calls[call];
    var t := Apply(lib, h, s, Store(call));
    var filter := FromRules(lib, RulesFor(c.rules, c.brand));
    var j :| c.since <= j <= s.now && h[j].rules == c.rules;
    assert FilterOf(lib, h[j], c.brand) == filter;
    assert forall process :: process != c.process ==> CacheOf(t, process) == CacheOf(s, process);
    if filter.Some? {
      assert FilledAt(lib, h, c.brand, Entry(c.version, filter.value), c.since, j);
      if c.brand != brand && brand in CacheOf(t, c.process) {
        assert CacheOf(t, c.process)[brand] == CacheOf(s, c.process)[brand];
      }
    }
  }

  lemma ApplyValid(lib: Lib, h: seq<Committed>, brand: int, s: State, e: Event)
    requires s.now < |h| && StampsTell(lib, h, brand) && Valid(lib, h, brand, s)
    ensures Valid(lib, h, brand, Apply(lib, h, s, e))
  {
    match e
    case Commit =>
      if s.now + 1 < |h| {
        CommitValid(lib, h, brand, s);
      }
    case LookUp(call) =>
      if call in s.calls && s.calls[call].Checked? {
        LookUpValid(lib, h, brand, s, call);
      }
    case Store(call) =>
      if call in s.calls && s.calls[call].Loaded? {
        StoreValid(lib, h, brand, s, call);
      }
    case ClearCache(process) =>
      assert forall other :: other != process ==> CacheOf(Apply(lib, h, s, e), other) == CacheOf(s, other);
    case _ =>
      assert forall process :: CacheOf(Apply(lib, h, s, e), process) == CacheOf(s, process);
  }

  lemma {:induction false} ExecValid(lib: Lib, h: seq<Committed>, brand: int, es: seq<Event>)
    requires |h| > 0 && StampsTell(lib, h, brand)
    ensures Valid(lib, h, brand, Exec(lib, h, START, es))
    decreases |es|
  {
    if es != [] {
      ExecValid(lib, h, brand, es[..|es| - 1]);
      ApplyValid(lib, h, brand, Exec(lib, h, START, es[..|es| - 1]), es[|es| - 1]);
    }
  }

  /* ---------- The converse: a stamp that does not tell serves a stale filter ---------- */

  lemma {:induction false} ExecAppend(lib: Lib, h: seq<Committed>, s: State, es: seq<Event>, fs: seq<Event>)
    requires s.now < |h|
    ensures Exec(lib, h, s, es + fs) == Exec(lib, h, Exec(lib, h, s, es), fs)
    decreases |fs|
  {
    if fs == [] {
      assert es + fs == es;
    } else {
      assert (es + fs)[..|es + fs| - 1] == es + fs[..|fs| - 1];
      ExecAppend(lib, h, s, es, fs[..|fs| - 1]);
    }
  }

  function Commits(n: nat): seq<Event> {
    seq(n, _ => Commit)
  }

  lemma {:induction false} ExecCommits(lib: Lib, h: seq<Committed>, s: State, n: nat)
    requires s.now + n < |h|
    ensures Exec(lib, h, s, Commits(n)) == s.(now := s.now + n)
  {
    if n > 0 {
      assert Commits(n)[..n - 1] == Commits(n - 1);
      ExecCommits(lib, h, s, n - 1);
    }
  }

  lemma ExecOne(lib: Lib, h: seq<Committed>, s: State, e: Event)
    requires s.now < |h|
    ensures Exec(lib, h, s, [e]) == Apply(lib, h, s, e)
  {
    assert [e][..0] == [];
    assert Exec(lib, h, s, []) == s;
  }

  lemma Then(lib: Lib, h: seq<Committed>, es: seq<Event>, e: Event) returns (more: seq<Event>)
    requires |h| > 0
    ensures Exec(lib, h, START, more) == Apply(lib, h, Exec(lib, h, START, es), e)
  {
    more := es + [e];
    ExecAppend(lib, h, START, es, [e]);
    ExecOne(lib, h, Exec(lib, h, START, es), e);
  }

  /** Process 0 reads the stamp after commit `i` and misses. */
  lemma MissRun(lib: Lib, h: seq<Committed>, brand: int, i: nat) returns (es: seq<Event>)
    requires i < |h|
    ensures Exec(lib, h, START, es) == State(i, map[], map[0 := Missed(0, brand, Version(h[i], brand), i)])
  {
    ExecCommits(lib, h, START, i);
    es := Then(lib, h, Commits(i), Check(0, 0, brand));
    assert Exec(lib, h, START, es).calls == map[0 := Checked(0, brand, Version(h[i], brand), i)];
    es := Then(lib, h, es, LookUp(0));
    assert Exec(lib, h, START, es).calls == map[0 := Missed(0, brand, Version(h[i], brand), i)];
  }

  lemma Wait(lib: Lib, h: seq<Committed>, es: seq<Event>, now: nat) returns (more: seq<Event>)
    requires |h| > 0 && Exec(lib, h, START, es).now <= now < |h|
    ensures Exec(lib, h, START, more) == Exec(lib, h, START, es).(now := now)
  {
    var s := Exec(lib, h, START, es);
    ExecCommits(lib, h, s, now - s.now);
    ExecAppend(lib, h, START, es, Commits(now - s.now));
    more := es + Commits(now - s.now);
  }

  /** It reads the rules after commit `j` and fills its cache under the older stamp. */
  lemma FillRun(lib: Lib, h: seq<Committed>, brand: int, i: nat, j: nat) returns (es: seq<Event>)
    requires i <= j < |h| && FilterOf(lib, h[j], brand).Some?
    ensures var s := Exec(lib, h, START, es);
            s.now == j && 1 !in s.calls &&
                CacheOf(s, 0) == map[brand := Entry(Version(h[i], brand), FilterOf(lib, h[j], brand).value)]
  {
    es := MissRun(lib, h, brand, i);
    es := Wait(lib, h, es, j);
    es := Then(lib, h, es, Load(0));
    assert Exec(lib, h, START, es).calls == map[0 := Loaded(0, brand, Version(h[i], brand), i, h[j].rules)];
    es := Then(lib, h, es, Store(0));
  }

  /** A second call, wholly after commit `p`, hits that entry. */
  lemma StaleRun(lib: Lib, h: seq<Committed>, brand: int, i: nat, j: nat, p: nat) returns (es: seq<Event>)
    requires i <= j <= p < |h| && Version(h[i], brand) == Version(h[p], brand) && FilterOf(lib, h[j], brand).Some?
    ensures var s := Exec(lib, h, START, es);
            1 in s.calls && s.calls[1] == Returned(brand, FilterOf(lib, h[j], brand).value, p, p)
  {
    es := FillRun(lib, h, brand, i, j);
    es := Wait(lib, h, es, p);
    es := Then(lib, h, es, Check(1, 0, brand));
    es := Then(lib, h, es, LookUp(1));
  }

  /**
    Whatever the interleaving, every call returns the filter of rules committed during the call: exactly when the
    stamps tell the filters apart.
   */
  lemma CoherentIff(lib: Lib, h: seq<Committed>, brand: int)
    requires |h| > 0
    ensures (forall es :: AllCurrent(lib, h, brand, Exec(lib, h, START, es))) <==> StampsTell(lib, h, brand)
  {
    if StampsTell(lib, h, brand) {
      forall es
        ensures AllCurrent(lib, h, brand, Exec(lib, h, START, es))
      {
        ExecValid(lib, h, brand, es);
      }
    } else {
      var i, j, p :| Misleads(lib, h, brand, i, j, p);
      MisleadingIsStale(lib, h, brand, i, j, p);
    }
  }

  lemma MisleadingIsStale(lib: Lib, h: seq<Committed>, brand: int, i: nat, j: nat, p: nat)
    requires Misleads(lib, h, brand, i, j, p)
    ensures exists es :: !AllCurrent(lib, h, brand, Exec(lib, h, START, es))
  {
    var es := StaleRun(lib, h, brand, i, j, p);
    var s := Exec(lib, h, START, es);
    assert !Current(lib, h, s.calls[1]);
    assert !AllCurrent(lib, h, brand, s);
  }

  /* ---------- Hits against the rules at the version check ---------- */

  /** A look-up that would hit now would return what the rules committed at the call's version check compile to. */
  ghost predicate HitExact(lib: Lib, h: seq<Committed>, s: State, c: Call)
    requires c.Checked?
  {
    IsHit(CacheOf(s, c.process), c.brand, c.version) ==>
      c.since < |h| && FilterOf(lib, h[c.since], c.brand) == Some(CacheOf(s, c.process)[c.brand].filter)
  }

  ghost predicate HitsExact(lib: Lib, h: seq<Committed>, brand: int, s: State) {
    forall call :: call in s.calls && s.calls[call].Checked? && s.calls[call].brand == brand ==>
        HitExact(lib, h, s, s.calls[call])
  }

  /** Process 0 reads the stamp after commit `i` and misses; a second call of it reads the stamp after commit `p`. */
  lemma TwoChecks(lib: Lib, h: seq<Committed>, brand: int, i: nat, p: nat) returns (es: seq<Event>)
    requires i <= p < |h|
    ensures Exec(lib, h, START, es)
         == State(p, map[], map[0 := Missed(0, brand, Version(h[i], brand), i),
                                1 := Checked(0, brand, Version(h[p], brand), p)])
  {
    es := MissRun(lib, h, brand, i);
    es := Wait(lib, h, es, p);
    es := Then(lib, h, es, Check(1, 0, brand));
    assert Exec(lib, h, START, es).calls
      == map[0 := Missed(0, brand, Version(h[i], brand), i), 1 := Checked(0, brand, Version(h[p], brand), p)];
  }

  /** The first call fills the cache with the rules of commit `j` before the second looks it up. */
  lemma PendingRun(lib: Lib, h: seq<Committed>, brand: int, p: nat, j: nat) returns (es: seq<Event>)
    requires p <= j < |h| && FilterOf(lib, h[j], brand).Some?
    ensures var s := Exec(lib, h, START, es);
            && s.now == j && 1 in s.calls && s.calls[1] == Checked(0, brand, Version(h[p], brand), p)
            && CacheOf(s, 0) == map[brand := Entry(Version(h[p], brand), FilterOf(lib, h[j], brand).value)]
  {
    es := TwoChecks(lib, h, brand, p, p);
    es := Wait(lib, h, es, j);
    es := Then(lib, h, es, Load(0));
    assert Exec(lib, h, START, es).calls[0] == Loaded(0, brand, Version(h[p], brand), p, h[j].rules);
    es := Then(lib, h, es, Store(0));
  }

  /** A call that checked its version after commit `p` can return the filter of any later commit whose rules compile. */
  lemma NewerHit(lib: Lib, h: seq<Committed>, brand: int, p: nat, j: nat) returns (es: seq<Event>)
    requires p <= j < |h| && FilterOf(lib, h[j], brand).Some?
    ensures var s := Exec(lib, h, START, es);
            1 in s.calls && s.calls[1] == Returned(brand, FilterOf(lib, h[j], brand).value, p, j)
  {
    es := PendingRun(lib, h, brand, p, j);
    es := Then(lib, h, es, LookUp(1));
  }

  /** Two commits, the later with rules that compile to another filter. */
  ghost predicate Changes(lib: Lib, h: seq<Committed>, brand: int, p: nat, j: nat) {
    p <= j < |h| && FilterOf(lib, h[j], brand).Some? && FilterOf(lib, h[j], brand) != FilterOf(lib, h[p], brand)
  }

  ghost predicate NeverChanges(lib: Lib, h: seq<Committed>, brand: int) {
    forall p, j :: !Changes(lib, h, brand, p, j)
  }

  lemma ValidHitsExact(lib: Lib, h: seq<Committed>, brand: int, s: State)
    requires s.now < |h| && Valid(lib, h, brand, s) && StampsTell(lib, h, brand) && NeverChanges(lib, h, brand)
    ensures HitsExact(lib, h, brand, s)
  {
    forall call | call in s.calls && s.calls[call].Checked? && s.calls[call].brand == brand
      ensures HitExact(lib, h, s, s.calls[call])
    {
      var c := s.calls[call];
      assert CallValid(h, c, s.now);
      if IsHit(CacheOf(s, c.process), brand, c.version) {
        var e := CacheOf(s, c.process)[brand];
        HitIsCurrent(lib, h, brand, e, c.since, s.now);
        var k :| c.since <= k <= s.now && FilterOf(lib, h[k], brand) == Some(e.filter);
        assert !Changes(lib, h, brand, c.since, k);
      }
    }
  }

  lemma ChangeIsInexact(lib: Lib, h: seq<Committed>, brand: int, p: nat, j: nat)
    requires Changes(lib, h, brand, p, j)
    ensures exists es :: !HitsExact(lib, h, brand, Exec(lib, h, START, es))
  {
    var es := PendingRun(lib, h, brand, p, j);
    var s := Exec(lib, h, START, es);
    assert !HitExact(lib, h, s, s.calls[1]);
    assert !HitsExact(lib, h, brand, s);
  }

  lemma StaleIsInexact(lib: Lib, h: seq<Committed>, brand: int, i: nat, j: nat, p: nat)
    requires Misleads(lib, h, brand, i, j, p)
    ensures exists es :: !HitsExact(lib, h, brand, Exec(lib, h, START, es))
  {
    var es := FillRun(lib, h, brand, i, j);
    es := Wait(lib, h, es, p);
    es := Then(lib, h, es, Check(1, 0, brand));
    var s := Exec(lib, h, START, es);
    assert s.calls[1] == Checked(0, brand, Version(h[p], brand), p);
    assert !HitExact(lib, h, s, s.calls[1]);
    assert !HitsExact(lib, h, brand, s);
  }

  /**
    Every hit of every run is the filter of the rules committed at its version check, if and only if the stamps tell the
    filters apart and no committed change compiles to another filter. With stamps that tell, any change at all allows a
    hit that is newer than its check.
   */
  lemma HitsExactIff(lib: Lib, h: seq<Committed>, brand: int)
    requires |h| > 0
    ensures (forall es :: HitsExact(lib, h, brand, Exec(lib, h, START, es)))
       <==> StampsTell(lib, h, brand) && NeverChanges(lib, h, brand)
  {
    if p, j :| Changes(lib, h, brand, p, j) {
      ChangeIsInexact(lib, h, brand, p, j);
    } else if i, j, p :| Misleads(lib, h, brand, i, j, p) {
      StaleIsInexact(lib, h, brand, i, j, p);
    } else {
      forall es
        ensures HitsExact(lib, h, brand, Exec(lib, h, START, es))
      {
        ExecValid(lib, h, brand, es);
        ValidHitsExact(lib, h, brand, Exec(lib, h, START, es));
      }
    }
  }

  /** The event stores a filter of the brand in the process's cache. */
  ghost predicate StoresInto(s: State, e: Event, process: nat, brand: int) {
    e.Store? && e.call in s.calls && s.calls[e.call].Loaded? && s.calls[e.call].process == process &&
        s.calls[e.call].brand == brand
  }

  /** No call of the process stores a filter of the brand during these events. */
  ghost predicate Quiet(lib: Lib, h: seq<Committed>, s: State, es: seq<Event>, process: nat, brand: int)
    requires s.now < |h|
  {
    forall k :: 0 <= k < |es| ==> !StoresInto(Exec(lib, h, s, es[..k]), es[k], process, brand)
  }

  /** The process's entry of the brand is still the same, or gone; and so is the version the call checked. */
  ghost predicate Unstirred(s: State, t: State, call: nat, process: nat, brand: int) {
    && (brand in CacheOf(t, process) ==>
          brand in CacheOf(s, process) && CacheOf(t, process)[brand] == CacheOf(s, process)[brand])
    && (call in s.calls ==> call in t.calls && (t.calls[call].Checked? ==> t.calls[call] == s.calls[call]))
  }

  lemma QuietStep(lib: Lib, h: seq<Committed>, s: State, e: Event, call: nat, process: nat, brand: int)
    requires s.now < |h| && !StoresInto(s, e, process, brand)
    ensures Unstirred(s, Apply(lib, h, s, e), call, process, brand)
  {
  }

  lemma QuietFront(lib: Lib, h: seq<Committed>, s: State, es: seq<Event>, process: nat, brand: int)
    requires s.now < |h| && es != [] && Quiet(lib, h, s, es, process, brand)
    ensures Quiet(lib, h, s, es[..|es| - 1], process, brand)
    ensures !StoresInto(Exec(lib, h, s, es[..|es| - 1]), es[|es| - 1], process, brand)
  {
    var front := es[..|es| - 1];
    forall k | 0 <= k < |front|
      ensures !StoresInto(Exec(lib, h, s, front[..k]), front[k], process, brand)
    {
      assert front[..k] == es[..k];
      assert !StoresInto(Exec(lib, h, s, es[..k]), es[k], process, brand);
    }
  }

  lemma UnstirredThen(s: State, t: State, u: State, call: nat, process: nat, brand: int)
    requires Unstirred(s, t, call, process, brand) && Unstirred(t, u, call, process, brand)
    ensures Unstirred(s, u, call, process, brand)
  {
  }

  lemma {:induction false} QuietRun(lib: Lib, h: seq<Committed>, s: State, es: seq<Event>,
                                    call: nat, process: nat, brand: int)
    requires s.now < |h| && Quiet(lib, h, s, es, process, brand)
    ensures Unstirred(s, Exec(lib, h, s, es), call, process, brand)
    decreases |es|
  {
    if es != [] {
      var front, e := es[..|es| - 1], es[|es| - 1];
      QuietFront(lib, h, s, es, process, brand);
      QuietRun(lib, h, s, front, call, process, brand);
      var t := Exec(lib, h, s, front);
      QuietStep(lib, h, t, e, call, process, brand);
      UnstirredThen(s, t, Apply(lib, h, t, e), call, process, brand);
    }
  }

  /**
    A hit is exact, even when the fill straddled a commit, if no call of the process stores a filter of the brand
    between the version check and the look-up; so in particular when the two are one step.
   */
  lemma QuietHitIsExact(lib: Lib, h: seq<Committed>, brand: int, es: seq<Event>, call: nat, process: nat,
        fs: seq<Event>)
    requires |h| > 0 && StampsTell(lib, h, brand)
    requires call !in Exec(lib, h, START, es).calls
    requires Quiet(lib, h, Apply(lib, h, Exec(lib, h, START, es), Check(call, process, brand)), fs, process, brand)
    ensures var s := Exec(lib, h, START, es);
            var t := Exec(lib, h, Apply(lib, h, s, Check(call, process, brand)), fs);
            && call in t.calls
            && (t.calls[call].Checked? && IsHit(CacheOf(t, process), brand, t.calls[call].version) ==>
                 var filter := CacheOf(t, process)[brand].filter;
                 && FilterOf(lib, h[s.now], brand) == Some(filter)
                 && Apply(lib, h, t, LookUp(call)).calls[call] == Returned(brand, filter, s.now, t.now))
  {
    var s := Exec(lib, h, START, es);
    var u := Apply(lib, h, s, Check(call, process, brand));
    QuietRun(lib, h, u, fs, call, process, brand);
    var t := Exec(lib, h, u, fs);
    assert CacheOf(u, process) == CacheOf(s, process);
    if t.calls[call].Checked? && IsHit(CacheOf(t, process), brand, t.calls[call].version) {
      ExecValid(lib, h, brand, es);
      HitIsCurrent(lib, h, brand, CacheOf(s, process)[brand], s.now, s.now);
    }
  }

  /* ---------- Rule-change transactions ---------- */

  /** Every commit after the first is a rule change; `clocks` are the seconds they read. */
  ghost predicate RuleChanges(h: seq<Committed>, supported: set<int>, clocks: seq<int>) {
    && |h| == |clocks| + 1
    && forall k :: 0 <= k < |clocks| ==> h[k + 1] == RuleChange(h[k], supported, h[k + 1].rules, clocks[k])
  }

  /** No two changes read the same second, and none reads the second already stored. */
  ghost predicate NeverReused(first: Option<int>, clocks: seq<int>) {
    && (forall a, b :: 0 <= a < b < |clocks| ==> clocks[a] != clocks[b])
    && forall a :: 0 <= a < |clocks| ==> first != Some(clocks[a])
  }

  lemma StampAfter(h: seq<Committed>, supported: set<int>, clocks: seq<int>, brand: int, k: nat)
    requires RuleChanges(h, supported, clocks) && k < |clocks|
    ensures Version(h[k + 1], brand) == if brand in supported then Some(clocks[k]) else Version(h[k], brand)
  {
    assert h[k + 1] == RuleChange(h[k], supported, h[k + 1].rules, clocks[k]);
  }

  lemma NeverReusedTells(lib: Lib, h: seq<Committed>, supported: set<int>, clocks: seq<int>, brand: int)
    requires RuleChanges(h, supported, clocks) && brand in supported && NeverReused(Version(h[0], brand), clocks)
    ensures StampsTell(lib, h, brand)
  {
    forall i: nat, j: nat, p: nat
      ensures !Misleads(lib, h, brand, i, j, p)
    {
      if i < p < |h| {
        StampAfter(h, supported, clocks, brand, p - 1);
        if i > 0 {
          StampAfter(h, supported, clocks, brand, i - 1);
          assert clocks[i - 1] != clocks[p - 1];
        }
        assert Version(h[i], brand) != Version(h[p], brand);
      }
    }
  }

  /** Stamps that are never reused keep a supported brand's cache coherent in every process and every interleaving. */
  lemma NeverReusedIsCoherent(lib: Lib, h: seq<Committed>, supported: set<int>, clocks: seq<int>, brand: int,
        es: seq<Event>)
    requires RuleChanges(h, supported, clocks) && brand in supported && NeverReused(Version(h[0], brand), clocks)
    ensures AllCurrent(lib, h, brand, Exec(lib, h, START, es))
  {
    NeverReusedTells(lib, h, supported, clocks, brand);
    ExecValid(lib, h, brand, es);
  }

  /** With stamps that are never reused, a hit with no store of the process in between is exact. */
  lemma NeverReusedQuietHit(lib: Lib, h: seq<Committed>, supported: set<int>, clocks: seq<int>, brand: int,
                            es: seq<Event>, call: nat, process: nat, fs: seq<Event>)
    requires RuleChanges(h, supported, clocks) && brand in supported && NeverReused(Version(h[0], brand), clocks)
    requires call !in Exec(lib, h, START, es).calls
    requires Quiet(lib, h, Apply(lib, h, Exec(lib, h, START, es), Check(call, process, brand)), fs, process, brand)
    ensures var s := Exec(lib, h, START, es);
            var t := Exec(lib, h, Apply(lib, h, s, Check(call, process, brand)), fs);
            && call in t.calls
            && (t.calls[call].Checked? && IsHit(CacheOf(t, process), brand, t.calls[call].version) ==>
                 var filter := CacheOf(t, process)[brand].filter;
                 && FilterOf(lib, h[s.now], brand) == Some(filter)
                 && Apply(lib, h, t, LookUp(call)).calls[call] == Returned(brand, filter, s.now, t.now))
  {
    NeverReusedTells(lib, h, supported, clocks, brand);
    QuietHitIsExact(lib, h, brand, es, call, process, fs);
  }

  /**
    With stamps that are never reused, hits are exact in every run if and only if the compiled filter never changes.
   */
  lemma NeverReusedHitsExactIff(lib: Lib, h: seq<Committed>, supported: set<int>, clocks: seq<int>, brand: int)
    requires RuleChanges(h, supported, clocks) && brand in supported && NeverReused(Version(h[0], brand), clocks)
    ensures (forall es :: HitsExact(lib, h, brand, Exec(lib, h, START, es))) <==> NeverChanges(lib, h, brand)
  {
    NeverReusedTells(lib, h, supported, clocks, brand);
    HitsExactIff(lib, h, brand);
  }

  /**
    Two changes within one second that leave different filters: some interleaving serves the first filter after the
    second change.
   */
  lemma SameSecondIsStale(lib: Lib, h: seq<Committed>, supported: set<int>, clocks: seq<int>, brand: int,
        a: nat, b: nat)
    requires RuleChanges(h, supported, clocks) && brand in supported
    requires a < b < |clocks| && clocks[a] == clocks[b]
    requires FilterOf(lib, h[a + 1], brand).Some? && FilterOf(lib, h[a + 1], brand) != FilterOf(lib, h[b + 1], brand)
    ensures exists es :: !AllCurrent(lib, h, brand, Exec(lib, h, START, es))
  {
    StampAfter(h, supported, clocks, brand, a);
    StampAfter(h, supported, clocks, brand, b);
    MisleadingIsStale(lib, h, brand, a + 1, a + 1, b + 1);
  }

  lemma {:induction false} UnsupportedStampNeverMoves(h: seq<Committed>, supported: set<int>, clocks: seq<int>,
        brand: int, k: nat)
    requires RuleChanges(h, supported, clocks) && brand !in supported && k < |h|
    ensures Version(h[k], brand) == Version(h[0], brand)
  {
    if k > 0 {
      StampAfter(h, supported, clocks, brand, k - 1);
      UnsupportedStampNeverMoves(h, supported, clocks, brand, k - 1);
    }
  }

  /** A brand that is not supported is served coherently only if its rules never compile to anything new. */
  lemma UnsupportedBrandIff(lib: Lib, h: seq<Committed>, supported: set<int>, clocks: seq<int>, brand: int)
    requires RuleChanges(h, supported, clocks) && brand !in supported
    ensures (forall es :: AllCurrent(lib, h, brand, Exec(lib, h, START, es)))
       <==> forall j, p :: 0 <= j <= p < |h| && FilterOf(lib, h[j], brand).Some? ==>
           FilterOf(lib, h[j], brand) == FilterOf(lib, h[p], brand)
  {
    forall k | 0 <= k < |h|
      ensures Version(h[k], brand) == Version(h[0], brand)
    {
      UnsupportedStampNeverMoves(h, supported, clocks, brand, k);
    }
    CoherentIff(lib, h, brand);
    if StampsTell(lib, h, brand) {
      forall j, p | 0 <= j <= p < |h| && FilterOf(lib, h[j], brand).Some?
        ensures FilterOf(lib, h[j], brand) == FilterOf(lib, h[p], brand)
      {
        assert !Misleads(lib, h, brand, j, j, p);
      }
    }
  }
}
