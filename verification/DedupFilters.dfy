/** The duplicate filter on log records: a counter per key that starts over after a fixed window. */
module DedupFilters {
  import opened Counting

  datatype Slot = Slot(count: int, first: real)

  /** A record that arrived: its key, when, the window it fell in (by its start), and whether it was let through. */
  datatype Arrival = Arrival(key: string, at: real, first: real, admitted: bool)

  datatype Settings = Settings(window: nat, maxOccurrences: int)

  function SlotOf(cache: map<string, Slot>, key: string, now: real): Slot {
    if key in cache then cache[key] else Slot(0, now)
  }

  function NextSlot(c: Settings, cache: map<string, Slot>, key: string, now: real): Slot {
    var slot := SlotOf(cache, key, now);
    if now - slot.first > c.window as real then Slot(1, now) else Slot(slot.count + 1, slot.first)
  }

  /** The first record of a later window always passes; any other, while the count is within bounds. */
  predicate Admits(c: Settings, cache: map<string, Slot>, key: string, now: real) {
    now - SlotOf(cache, key, now).first > c.window as real || SlotOf(cache, key, now).count + 1 <= c.maxOccurrences
  }

  class DedupFilter {
    const c: Settings
    var cache: map<string, Slot>

    constructor (c: Settings)
      ensures this.c == c && cache == map[]
    {
      this.c := c;
      cache := map[];
    }

    method Filter(key: string, now: real) returns (pass: bool)
      modifies this
      ensures pass == Admits(c, old(cache), key, now)
      ensures cache == old(cache)[key := NextSlot(c, old(cache), key, now)]
    {
      var slot := if key in cache then cache[key] else Slot(0, now);
      if now - slot.first > c.window as real {
        cache := cache[key := Slot(1, now)];
        return true;
      }
      var count := slot.count + 1;
      cache := cache[key := Slot(count, slot.first)];
      return count <= c.maxOccurrences;
    }
  }

  datatype State = State(cache: map<string, Slot>, log: seq<Arrival>)

  const START: State := State(map[], [])

  datatype Record = Record(key: string, at: real)

  function Apply(c: Settings, s: State, r: Record): State {
    var slot := NextSlot(c, s.cache, r.key, r.at);
    State(s.cache[r.key := slot], s.log + [Arrival(r.key, r.at, slot.first, Admits(c, s.cache, r.key, r.at))])
  }

  function Exec(c: Settings, s: State, rs: seq<Record>): State
    decreases |rs|
  {
    if rs == [] then s else Apply(c, Exec(c, s, rs[..|rs| - 1]), rs[|rs| - 1])
  }

  ghost predicate InOrder(rs: seq<Record>) {
    forall i, j :: 0 <= i < j < |rs| ==> rs[i].at <= rs[j].at
  }

  /* ---------- What each window admits ---------- */

  ghost function Arrivals(log: seq<Arrival>, key: string, first: real): nat {
    Count(log, (a: Arrival) => a.key == key && a.first == first)
  }

  ghost function Admitted(log: seq<Arrival>, key: string, first: real): nat {
    Count(log, (a: Arrival) => a.key == key && a.first == first && a.admitted)
  }

  function Min(a: int, b: int): int {
    if a <= b then a else b
  }

  ghost predicate WindowExact(c: Settings, log: seq<Arrival>, key: string, first: real) {
    Admitted(log, key, first) == Min(Arrivals(log, key, first), c.maxOccurrences)
  }

  /** The slot counts the arrivals of the current window, the latest of the key's. */
  ghost predicate SlotCounts(s: State, key: string) {
    && (key !in s.cache ==> forall a :: a in s.log ==> a.key != key)
    && (key in s.cache ==>
          && s.cache[key].count == Arrivals(s.log, key, s.cache[key].first)
          && forall a :: a in s.log && a.key == key ==> a.first <= s.cache[key].first)
  }

  lemma ApplyCounts(c: Settings, s: State, r: Record, key: string, first: real)
    requires c.maxOccurrences >= 1 && SlotCounts(s, key) && WindowExact(c, s.log, key, first)
    requires key in s.cache ==> s.cache[key].first <= r.at
    ensures SlotCounts(Apply(c, s, r), key) && WindowExact(c, Apply(c, s, r).log, key, first)
  {
    var t := Apply(c, s, r);
    var a := t.log[|s.log|];
    CountAppend(s.log, a, (a: Arrival) => a.key == key && a.first == first);
    CountAppend(s.log, a, (a: Arrival) => a.key == key && a.first == first && a.admitted);
    if r.key == key {
      var latest := t.cache[key].first;
      CountAppend(s.log, a, (a: Arrival) => a.key == key && a.first == latest);
      if key !in s.cache || s.cache[key].first != latest {
        CountNone(s.log, (a: Arrival) => a.key == key && a.first == latest);
      }
    } else if key in s.cache {
      CountAppend(s.log, a, (a: Arrival) => a.key == key && a.first == s.cache[key].first);
    }
  }

  /** The slot's window began no later than the last record. */
  ghost predicate NotAhead(s: State, now: real) {
    forall key :: key in s.cache ==> s.cache[key].first <= now
  }

  lemma {:induction false} ExecNotAhead(c: Settings, rs: seq<Record>, now: real)
    requires forall i :: 0 <= i < |rs| ==> rs[i].at <= now
    ensures NotAhead(Exec(c, START, rs), now)
    decreases |rs|
  {
    if rs != [] {
      ExecNotAhead(c, rs[..|rs| - 1], now);
    }
  }

  lemma {:induction false} ExecCounts(c: Settings, rs: seq<Record>, key: string, first: real)
    requires c.maxOccurrences >= 1 && InOrder(rs)
    ensures SlotCounts(Exec(c, START, rs), key) && WindowExact(c, Exec(c, START, rs).log, key, first)
    decreases |rs|
  {
    if rs != [] {
      var front, r := rs[..|rs| - 1], rs[|rs| - 1];
      ExecCounts(c, front, key, first);
      ExecNotAhead(c, front, r.at);
      ApplyCounts(c, Exec(c, START, front), r, key, first);
    }
  }

  /** With a maximum of none, a key's first window admits nothing, yet its next one admits its first record. */
  lemma NoneAdmitsOne(c: Settings, key: string) returns (rs: seq<Record>, first: real, later: real)
    requires c.maxOccurrences <= 0
    ensures InOrder(rs) && first < later
    ensures var log := Exec(c, START, rs).log;
            && Arrivals(log, key, first) == Arrivals(log, key, later) == 1
            && Admitted(log, key, first) == 0 && Admitted(log, key, later) == 1
  {
    first, later := 0.0, c.window as real + 1.0;
    var one := [Record(key, first)];
    assert one[..0] == [] && Exec(c, START, []) == START;
    rs := one + [Record(key, later)];
    assert rs[..1] == one;
    var s, t := Exec(c, START, one), Exec(c, START, rs);
    assert s.log == [Arrival(key, first, first, false)];
    assert t.log == s.log + [Arrival(key, later, later, true)];
    forall f: real
      ensures Arrivals(t.log, key, f) == (if f == first || f == later then 1 else 0)
      ensures Admitted(t.log, key, f) == if f == later then 1 else 0
    {
      CountTwo(s.log[0], t.log[1], (a: Arrival) => a.key == key && a.first == f);
      CountTwo(s.log[0], t.log[1], (a: Arrival) => a.key == key && a.first == f && a.admitted);
    }
  }

  lemma CountTwo(a: Arrival, b: Arrival, p: Arrival -> bool)
    ensures Count([a] + [b], p) == (if p(a) then 1 else 0) + if p(b) then 1 else 0
  {
    assert [] + [a] == [a];
    CountAppend([], a, p);
    CountAppend([a], b, p);
  }

  /**
    Every window of every key admits exactly the smaller of its arrivals and the maximum, in all runs: if and only if
    the maximum is positive.
   */
  lemma WindowExactIff(c: Settings)
    ensures (forall rs, key, first :: InOrder(rs) ==> WindowExact(c, Exec(c, START, rs).log, key, first)) <==>
          c.maxOccurrences >= 1
  {
    if c.maxOccurrences >= 1 {
      forall rs, key, first | InOrder(rs)
        ensures WindowExact(c, Exec(c, START, rs).log, key, first)
      {
        ExecCounts(c, rs, key, first);
      }
    } else {
      var rs, first, later := NoneAdmitsOne(c, "");
      assert !WindowExact(c, Exec(c, START, rs).log, "", later);
    }
  }

  /* ---------- Any closed interval as long as a window ---------- */

  ghost predicate Within(c: Settings, a: Arrival, from: real) {
    from <= a.at <= from + c.window as real
  }

  ghost function AdmittedIn(c: Settings, log: seq<Arrival>, key: string, from: real): nat {
    Count(log, (a: Arrival) => a.key == key && a.admitted && Within(c, a, from))
  }

  /** Those of windows before the one that began at `first`. */
  ghost function EarlierIn(c: Settings, log: seq<Arrival>, key: string, first: real, from: real): nat {
    Count(log, (a: Arrival) => a.key == key && a.admitted && a.first < first && Within(c, a, from))
  }

  ghost function AdmittedAtStart(log: seq<Arrival>, key: string, first: real): nat {
    Count(log, (a: Arrival) => a.key == key && a.first == first && a.admitted && a.at <= first)
  }

  /** An interval that reaches the current window misses the start of the one before, and everything earlier. */
  ghost predicate Spread(c: Settings, s: State, key: string, from: real) {
    && AdmittedIn(c, s.log, key, from) <= 2 * c.maxOccurrences - 1
    && (key in s.cache ==>
          var first := s.cache[key].first;
          && AdmittedAtStart(s.log, key, first) >= 1
          && (first <= from + c.window as real ==> EarlierIn(c, s.log, key, first, from) <= c.maxOccurrences - 1)
          && forall a :: a in s.log && a.key == key ==> (a.first < first ==> a.at <= first) && a.first <= first)
  }

  /** When a window begins, what it finds inside the interval is all of the previous window, less its start. */
  lemma FreshWindow(c: Settings, s: State, key: string, from: real, now: real)
    requires c.maxOccurrences >= 1 && SlotCounts(s, key) && key in s.cache && Spread(c, s, key, from)
    requires WindowExact(c, s.log, key, s.cache[key].first)
    requires now - s.cache[key].first > c.window as real
    requires now <= from + c.window as real
    ensures AdmittedIn(c, s.log, key, from) <= c.maxOccurrences - 1
  {
    var first := s.cache[key].first;
    var inside := (a: Arrival) => a.key == key && a.admitted && Within(c, a, from);
    var late := (a: Arrival) => a.key == key && a.first == first && a.admitted && first < a.at;
    CountLess(s.log, inside, late);
    CountSplit(s.log, late, (a: Arrival) => a.key == key && a.first == first && a.admitted && a.at <= first,
               (a: Arrival) => a.key == key && a.first == first && a.admitted);
  }

  lemma SpreadOther(c: Settings, s: State, r: Record, key: string, from: real)
    requires Spread(c, s, key, from) && SlotCounts(s, key) && r.key != key
    ensures Spread(c, Apply(c, s, r), key, from)
  {
    var t := Apply(c, s, r);
    var a := t.log[|s.log|];
    CountAppend(s.log, a, (a: Arrival) => a.key == key && a.admitted && Within(c, a, from));
    if key in s.cache {
      var first := s.cache[key].first;
      CountAppend(s.log, a, (a: Arrival) => a.key == key && a.first == first && a.admitted && a.at <= first);
      CountAppend(s.log, a, (a: Arrival) => a.key == key && a.admitted && a.first < first && Within(c, a, from));
    }
  }

  /** A record that opens a window: the key's first, or one that comes after the last window has run out. */
  lemma SpreadOpen(c: Settings, s: State, r: Record, from: real)
    requires c.maxOccurrences >= 1 && SlotCounts(s, r.key) && Spread(c, s, r.key, from)
    requires r.key in s.cache ==> WindowExact(c, s.log, r.key, s.cache[r.key].first)
    requires r.key in s.cache ==> r.at - s.cache[r.key].first > c.window as real
    requires forall a :: a in s.log ==> a.at <= r.at
    ensures Spread(c, Apply(c, s, r), r.key, from)
  {
    var key, now := r.key, r.at;
    var t := Apply(c, s, r);
    var a := t.log[|s.log|];
    var inside := (a: Arrival) => a.key == key && a.admitted && Within(c, a, from);
    var earlier := (a: Arrival) => a.key == key && a.admitted && a.first < now && Within(c, a, from);
    var start := (a: Arrival) => a.key == key && a.first == now && a.admitted && a.at <= now;
    CountAppend(s.log, a, inside);
    CountAppend(s.log, a, earlier);
    CountAppend(s.log, a, start);
    assert a == Arrival(key, now, now, true);
    if key !in s.cache {
      CountNone(s.log, inside);
      CountNone(s.log, earlier);
    } else {
      CountSame(s.log, inside, earlier);
      if now <= from + c.window as real {
        FreshWindow(c, s, key, from, now);
      }
    }
  }

  /** A record inside the current window. */
  lemma SpreadMore(c: Settings, s: State, r: Record, from: real)
    requires c.maxOccurrences >= 1 && SlotCounts(s, r.key) && Spread(c, s, r.key, from)
    requires r.key in s.cache && s.cache[r.key].first <= r.at && r.at - s.cache[r.key].first <= c.window as real
    requires WindowExact(c, s.log, r.key, s.cache[r.key].first)
    ensures Spread(c, Apply(c, s, r), r.key, from)
  {
    var key, first := r.key, s.cache[r.key].first;
    var t := Apply(c, s, r);
    var a := t.log[|s.log|];
    var inside := (a: Arrival) => a.key == key && a.admitted && Within(c, a, from);
    var earlier := (a: Arrival) => a.key == key && a.admitted && a.first < first && Within(c, a, from);
    var current := (a: Arrival) => a.key == key && a.admitted && a.first == first && Within(c, a, from);
    CountAppend(s.log, a, inside);
    CountAppend(s.log, a, earlier);
    CountAppend(s.log, a, (a: Arrival) => a.key == key && a.first == first && a.admitted && a.at <= first);
    if a.admitted && Within(c, a, from) {
      CountSplit(s.log, earlier, current, inside);
      CountLess(s.log, current, (a: Arrival) => a.key == key && a.first == first && a.admitted);
    }
  }

  lemma {:induction false} LogNotAhead(c: Settings, rs: seq<Record>, now: real)
    requires forall i :: 0 <= i < |rs| ==> rs[i].at <= now
    ensures forall a :: a in Exec(c, START, rs).log ==> a.at <= now
    decreases |rs|
  {
    if rs != [] {
      LogNotAhead(c, rs[..|rs| - 1], now);
    }
  }

  lemma {:induction false} ExecSpread(c: Settings, rs: seq<Record>, key: string, from: real)
    requires c.maxOccurrences >= 1 && InOrder(rs)
    ensures Spread(c, Exec(c, START, rs), key, from)
    decreases |rs|
  {
    if rs != [] {
      var front, r := rs[..|rs| - 1], rs[|rs| - 1];
      ExecSpread(c, front, key, from);
      ExecNotAhead(c, front, r.at);
      LogNotAhead(c, front, r.at);
      var s := Exec(c, START, front);
      ExecCounts(c, front, key, 0.0);
      if r.key != key {
        SpreadOther(c, s, r, key, from);
      } else {
        if key in s.cache {
          ExecCounts(c, front, key, s.cache[key].first);
        }
        if key in s.cache && r.at - s.cache[key].first <= c.window as real {
          SpreadMore(c, s, r, from);
        } else {
          SpreadOpen(c, s, r, from);
        }
      }
    }
  }

  /** A closed interval as long as the window admits at most twice the maximum of one key, less one. */
  lemma ClosedWindow(c: Settings, rs: seq<Record>, key: string, from: real)
    requires c.maxOccurrences >= 1 && InOrder(rs)
    ensures AdmittedIn(c, Exec(c, START, rs).log, key, from) <= 2 * c.maxOccurrences - 1
  {
    ExecSpread(c, rs, key, from);
  }

  /** `n` more records of one key at one moment of its current window, all within bounds. */
  lemma {:induction false} Burst(c: Settings, rs: seq<Record>, key: string, at: real, n: nat,
        from: real) returns (more: seq<Record>)
    requires InOrder(rs) && forall i :: 0 <= i < |rs| ==> rs[i].at <= at
    requires var s := Exec(c, START, rs);
             key in s.cache && at - s.cache[key].first <= c.window as real && s.cache[key].count + n <= c.maxOccurrences
    requires from <= at <= from + c.window as real
    ensures InOrder(more) && forall i :: 0 <= i < |more| ==> more[i].at <= at
    ensures var s, t := Exec(c, START, rs), Exec(c, START, more);
            && key in t.cache && t.cache[key] == Slot(s.cache[key].count + n, s.cache[key].first)
            && AdmittedIn(c, t.log, key, from) == AdmittedIn(c, s.log, key, from) + n
  {
    more := rs;
    if n > 0 {
      var fewer := Burst(c, rs, key, at, n - 1, from);
      more := fewer + [Record(key, at)];
      assert more[..|fewer|] == fewer;
      var s, t := Exec(c, START, fewer), Exec(c, START, more);
      CountAppend(s.log, t.log[|s.log|], (a: Arrival) => a.key == key && a.admitted && Within(c, a, from));
    }
  }

  /** The bound is exact: a window's late records and the next one's first fill it. */
  lemma ClosedWindowReached(c: Settings, key: string) returns (rs: seq<Record>, from: real)
    requires c.maxOccurrences >= 1 && c.window >= 1
    ensures InOrder(rs) && AdmittedIn(c, Exec(c, START, rs).log, key, from) == 2 * c.maxOccurrences - 1
  {
    from := 0.5;
    var end := c.window as real;
    var one := FirstRecord(c, key, from);
    var first := Burst(c, one, key, end, c.maxOccurrences - 1, from);
    var next := NextWindow(c, first, key, end + 0.5, from);
    rs := Burst(c, next, key, end + 0.5, c.maxOccurrences - 1, from);
  }

  /** A window that begins before the interval does. */
  lemma FirstRecord(c: Settings, key: string, from: real) returns (rs: seq<Record>)
    requires c.maxOccurrences >= 1 && 0.0 < from
    ensures InOrder(rs) && forall i :: 0 <= i < |rs| ==> rs[i].at <= 0.0
    ensures var s := Exec(c, START, rs);
            key in s.cache && s.cache[key] == Slot(1, 0.0) && AdmittedIn(c, s.log, key, from) == 0
  {
    rs := [Record(key, 0.0)];
    assert rs[..0] == [] && Exec(c, START, []) == START;
    var s := Exec(c, START, rs);
    assert s.log == [Arrival(key, 0.0, 0.0, true)];
    CountNone(s.log, (a: Arrival) => a.key == key && a.admitted && Within(c, a, from));
  }

  /** A record that begins the next window inside the interval. */
  lemma NextWindow(c: Settings, rs: seq<Record>, key: string, at: real, from: real) returns (more: seq<Record>)
    requires InOrder(rs) && forall i :: 0 <= i < |rs| ==> rs[i].at <= at
    requires var s := Exec(c, START, rs); key in s.cache && at - s.cache[key].first > c.window as real
    requires from <= at <= from + c.window as real
    ensures InOrder(more) && forall i :: 0 <= i < |more| ==> more[i].at <= at
    ensures var s, t := Exec(c, START, rs), Exec(c, START, more);
            && key in t.cache && t.cache[key] == Slot(1, at)
            && AdmittedIn(c, t.log, key, from) == AdmittedIn(c, s.log, key, from) + 1
  {
    more := rs + [Record(key, at)];
    assert more[..|rs|] == rs;
    var s, t := Exec(c, START, rs), Exec(c, START, more);
    CountAppend(s.log, t.log[|s.log|], (a: Arrival) => a.key == key && a.admitted && Within(c, a, from));
  }
}
