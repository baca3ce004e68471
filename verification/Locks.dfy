/** Lease locks with a time to live, over clocks that differ and are cut to whole seconds. */
module Locks {
  datatype Lease = Lease(holder: string, until: int)

  datatype AcquireResult = Acquired | HeldBy(holder: string)

  /** The clock with its microseconds dropped. */
  function Utcnow(clock: real): int {
    clock.Floor
  }

  /** A lease can be taken when there is none, or when it has run out by the taker's clock. */
  predicate Available(rows: map<string, Lease>, name: string, now: int) {
    name in rows ==> rows[name].until <= now
  }

  function Release(rows: map<string, Lease>, name: string, holder: string): map<string, Lease> {
    if name in rows && rows[name].holder == holder then rows - {name} else rows
  }

  class LocksRepository {
    var rows: map<string, Lease>

    method AcquireLock(name: string, holder: string, ttl: nat, clock: real) returns (result: AcquireResult)
      modifies this
      ensures result.Acquired? <==> Available(old(rows), name, Utcnow(clock))
      ensures result.Acquired? ==> rows == old(rows)[name := Lease(holder, Utcnow(clock) + ttl)]
      ensures !result.Acquired? ==> rows == old(rows) && name in rows && result.holder == rows[name].holder
    {
      var now := Utcnow(clock);
      var until := now + ttl;
      if name !in rows {
        rows := rows[name := Lease(holder, until)];
        return Acquired;
      }
      if rows[name].until <= now {
        rows := rows[name := rows[name].(holder := holder, until := until)];
        return Acquired;
      }
      return HeldBy(rows[name].holder);
    }

    method ReleaseLock(name: string, holder: string)
      modifies this
      ensures rows == Release(old(rows), name, holder)
    {
      if name in rows && rows[name].holder == holder {
        rows := map n | n in rows && n != name :: rows[n];
        assert rows == old(rows) - {name};
      }
    }
  }

  /** A release touches neither another name nor a lease of another holder. */
  lemma ReleaseSparesOthers(rows: map<string, Lease>, name: string, holder: string, other: string)
    requires other in rows && (other != name || rows[other].holder != holder)
    ensures var after := Release(rows, name, holder);
            && other in after && after[other] == rows[other]
            && Release(after, name, holder) == after
            && (name in after ==> after[name].holder != holder)
  {
  }

  /* ---------- Processes, clocks and critical sections ---------- */

  /**
    Clock error, lease length, longest critical section counted from its clock read, and each process's holder name.
   */
  datatype Env = Env(skew: real, ttl: nat, limit: real, holder: nat -> string)

  ghost predicate Sensible(env: Env) {
    0.0 <= env.skew && 0.0 <= env.limit
  }

  ghost predicate DistinctHolders(env: Env) {
    forall p: nat, q: nat :: env.holder(p) == env.holder(q) ==> p == q
  }

  /** `inside` maps a lock name and a process in that lock's section to the real time of its acquire clock read. */
  datatype State = State(rows: map<string, Lease>, inside: map<(string, nat), real>, time: real)

  const EMPTY: State := State(map[], map[], 0.0)

  datatype Event =
    | TryAcquire(name: string, process: nat, read: real, clock: real, at: real)
    | Leave(name: string, process: nat, at: real)
    | ReleaseBy(name: string, process: nat, at: real)

  /**
    Time moves on, sections end in time, clocks are within the skew, and a process releases only outside its section.
   */
  ghost predicate Enabled(env: Env, s: State, e: Event) {
    && s.time <= e.at
    && (forall k :: k in s.inside ==> e.at - s.inside[k] <= env.limit)
    && match e
       case TryAcquire(name, process, read, clock, at) =>
         (name, process) !in s.inside && read <= at && -env.skew <= clock - read <= env.skew
       case Leave(name, process, at) => (name, process) in s.inside
       case ReleaseBy(name, process, at) => (name, process) !in s.inside
  }

  ghost function Apply(env: Env, s: State, e: Event): State {
    if !Enabled(env, s, e) then s else
    match e
    case TryAcquire(name, process, read, clock, at) =>
      if Available(s.rows, name, Utcnow(clock))
      then
        var lease := Lease(env.holder(process), Utcnow(clock) + env.ttl);
        State(s.rows[name := lease], s.inside[(name, process) := read], at)
      else s.(time := at)
    case Leave(name, process, at) => s.(inside := s.inside - {(name, process)}, time := at)
    case ReleaseBy(name, process, at) => s.(rows := Release(s.rows, name, env.holder(process)), time := at)
  }

  ghost function Exec(env: Env, s: State, es: seq<Event>): State
    decreases |es|
  {
    if es == [] then s else Exec(env, Apply(env, s, es[0]), es[1..])
  }

  ghost predicate Exclusive(s: State) {
    forall k, l :: k in s.inside && l in s.inside && k.0 == l.0 ==> k.1 == l.1
  }

  /** Whoever is inside owns the lease, and it runs longer than its section may last by anyone's clock. */
  ghost predicate Covered(env: Env, s: State) {
    && Exclusive(s)
    && forall k :: k in s.inside ==>
         && k.0 in s.rows && s.rows[k.0].holder == env.holder(k.1)
         && s.inside[k] - env.skew - 1.0 + env.ttl as real < s.rows[k.0].until as real
  }

  lemma CoveredStep(env: Env, s: State, e: Event)
    requires Sensible(env) && DistinctHolders(env) && env.limit <= env.ttl as real - 2.0 * env.skew - 1.0
    requires Covered(env, s)
    ensures Covered(env, Apply(env, s, e))
  {
    if Enabled(env, s, e) {
      match e
      case TryAcquire(name, process, read, clock, at) =>
        assert Utcnow(clock) as real <= clock < Utcnow(clock) as real + 1.0;
      case Leave(name, process, at) =>
      case ReleaseBy(name, process, at) =>
        forall k | k in s.inside
          ensures k.0 == name ==> env.holder(k.1) != env.holder(process)
        {
          assert k == (k.0, k.1);
        }
    }
  }

  lemma {:induction false} CoveredRun(env: Env, s: State, es: seq<Event>)
    requires Sensible(env) && DistinctHolders(env) && env.limit <= env.ttl as real - 2.0 * env.skew - 1.0
    requires Covered(env, s)
    ensures Covered(env, Exec(env, s, es))
    decreases |es|
  {
    if es != [] {
      CoveredStep(env, s, es[0]);
      CoveredRun(env, Apply(env, s, es[0]), es[1..]);
    }
  }

  /** While a process is inside, the lock row is its own: nobody's release or late acquire has removed it. */
  lemma LeaseKeptInside(env: Env, es: seq<Event>, name: string, process: nat)
    requires Sensible(env) && DistinctHolders(env) && env.limit <= env.ttl as real - 2.0 * env.skew - 1.0
    requires (name, process) in Exec(env, EMPTY, es).inside
    ensures var s := Exec(env, EMPTY, es); name in s.rows && s.rows[name].holder == env.holder(process)
  {
    CoveredRun(env, EMPTY, es);
  }

  /* ---------- Why neither assumption can be dropped ---------- */

  lemma ExecTwo(env: Env, s: State, e: Event, f: Event)
    ensures Exec(env, s, [e, f]) == Apply(env, Apply(env, s, e), f)
  {
    var after := Apply(env, s, e);
    assert [e, f][1..] == [f] && [f][1..] == [];
    assert Exec(env, after, [f]) == Apply(env, after, f);
  }

  lemma ExecThree(env: Env, s: State, e: Event, f: Event, g: Event)
    ensures Exec(env, s, [e, f, g]) == Apply(env, Apply(env, Apply(env, s, e), f), g)
  {
    assert [e, f, g][1..] == [f, g];
    ExecTwo(env, Apply(env, s, e), f, g);
  }

  /** Sections longer than ttl - 2 * skew - 1 overlap: a slow clock reads late in a second, a fast one takes over. */
  lemma LongSectionsOverlap(env: Env) returns (es: seq<Event>)
    requires Sensible(env) && env.ttl as real - 2.0 * env.skew - 1.0 < env.limit
    ensures !Exclusive(Exec(env, EMPTY, es))
  {
    var excess := env.limit - (env.ttl as real - 2.0 * env.skew - 1.0);
    var eta := if excess < 1.0 then excess else 1.0;
    var readA := 1.0 - eta + env.skew;
    var readB := env.ttl as real - env.skew;
    var atB := if readA <= readB then readB else readA;
    var a := TryAcquire("", 0, readA, 1.0 - eta, readA);
    var b := TryAcquire("", 1, readB, env.ttl as real, atB);
    es := [a, b];
    ExecTwo(env, EMPTY, a, b);
    assert Utcnow(1.0 - eta) == 0 && Utcnow(env.ttl as real) == env.ttl;
    var s := Apply(env, EMPTY, a);
    assert s.inside == map[("", 0) := readA];
    var t := Apply(env, s, b);
    assert ("", 0) in t.inside && ("", 1) in t.inside;
  }

  /** Two processes with one holder name: the loser's release removes the winner's lease, and the loser gets in. */
  lemma SharedHolderOverlaps(env: Env, p: nat, q: nat) returns (es: seq<Event>)
    requires Sensible(env) && p != q && env.holder(p) == env.holder(q)
    ensures !Exclusive(Exec(env, EMPTY, es))
  {
    var a := TryAcquire("", p, 0.0, 0.0, 0.0);
    var r := ReleaseBy("", q, 0.0);
    var b := TryAcquire("", q, 0.0, 0.0, 0.0);
    es := [a, r, b];
    ExecThree(env, EMPTY, a, r, b);
    var s := Apply(env, EMPTY, a);
    assert s.inside == map[("", p) := 0.0];
    var t := Apply(env, s, r);
    assert t.rows == map[] && t.inside == s.inside;
    var u := Apply(env, t, b);
    assert ("", p) in u.inside && ("", q) in u.inside;
  }

  /**
    No two processes are ever in the section of one lock together, in any run, exactly when holder names are
    distinct and sections end within ttl - 2 * skew - 1 seconds of their acquire clock read.
   */
  lemma ExclusionIff(env: Env)
    requires Sensible(env)
    ensures (forall es :: Exclusive(Exec(env, EMPTY, es)))
       <==> DistinctHolders(env) && env.limit <= env.ttl as real - 2.0 * env.skew - 1.0
  {
    if env.ttl as real - 2.0 * env.skew - 1.0 < env.limit {
      var es := LongSectionsOverlap(env);
    } else if p: nat, q: nat :| env.holder(p) == env.holder(q) && p != q {
      var es := SharedHolderOverlaps(env, p, q);
    } else {
      forall es
        ensures Exclusive(Exec(env, EMPTY, es))
      {
        CoveredRun(env, EMPTY, es);
      }
    }
  }

  const POLL_INTERVAL_SECONDS: nat := 90

  /** The poller's lease: cycles of at most 179 - 2 * skew seconds never overlap between distinctly named pollers. */
  lemma PollerLease(env: Env, es: seq<Event>)
    requires Sensible(env) && DistinctHolders(env) && env.ttl == 2 * POLL_INTERVAL_SECONDS
    requires env.limit == 179.0 - 2.0 * env.skew
    ensures Exclusive(Exec(env, EMPTY, es))
  {
    ExclusionIff(env);
  }

  /** A lock that its owner leaves and releases can be taken by another process at once, for a full lease. */
  lemma HandOver(env: Env, s: State, name: string, p: nat, q: nat, read: real, clock: real)
    requires (name, p) in s.inside && (name, q) !in s.inside && p != q && Covered(env, s)
    requires forall k :: k in s.inside ==> s.time - s.inside[k] <= env.limit
    requires read <= s.time && -env.skew <= clock - read <= env.skew
    ensures var left := Apply(env, s, Leave(name, p, s.time));
            var released := Apply(env, left, ReleaseBy(name, p, s.time));
            var taken := Apply(env, released, TryAcquire(name, q, read, clock, s.time));
            && name !in released.rows
            && taken.inside == (s.inside - {(name, p)})[(name, q) := read]
            && taken.rows == s.rows[name := Lease(env.holder(q), clock.Floor + env.ttl)]
  {
    var left := Apply(env, s, Leave(name, p, s.time));
    assert left.inside == s.inside - {(name, p)};
  }
}
