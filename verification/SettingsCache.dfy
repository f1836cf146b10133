/**
 * The cache of the effective runtime settings: single-flight refresh, the last good snapshot when a
 * refresh fails, and generations so that an invalidated load never comes back. Promises are events:
 * a load is done at one moment and stops being the one in flight at a later one.
 */
module SettingsCache {
  import opened Prelude

  type Rows = map<string, string>

  type Values = map<string, string>

  /** How stored rows and the previous values make the effective ones. */
  type Effective = (Rows, Option<Values>) -> Values

  type LoadId = nat

  /** `load` is where the values come from; `starred` marks a snapshot served after a failed load. */
  datatype Snapshot = Snapshot(values: Values, load: LoadId, starred: bool)

  datatype Result = Pending | Served(snapshot: Snapshot) | Rejected

  datatype Load = Load(generation: nat, result: Result)

  datatype State = State(
    snapshot: Option<Snapshot>,
    loadedAt: int,
    current: bool,
    inflight: Option<LoadId>,
    generation: nat,
    loads: seq<Load>)

  datatype Event =
    | Get(now: int)
    | Invalidate
    | Loaded(load: LoadId, rows: Option<Rows>, now: int)
    | Cleared(load: LoadId)

  datatype Reply = Immediate(snapshot: Snapshot) | Await(load: LoadId)

  // ----- Specification -----

  predicate Hit(s: State, now: int, ttlMs: int) {
    s.snapshot.Some? && s.current && now - s.loadedAt < ttlMs
  }

  function Answer(s: State, now: int, ttlMs: int): Reply {
    if Hit(s, now, ttlMs) then Immediate(s.snapshot.value)
    else if s.inflight.Some? then Await(s.inflight.value)
    else Await(|s.loads|)
  }

  function PreviousValues(s: State): Option<Values> {
    if s.snapshot.Some? then Some(s.snapshot.value.values) else None
  }

  function Resolved(s: State, i: LoadId, r: Result): State
    requires i < |s.loads|
  {
    s.(loads := s.loads[i := s.loads[i].(result := r)])
  }

  function Step(s: State, e: Event, f: Effective, ttlMs: int): State {
    match e
    case Get(now) =>
      if Hit(s, now, ttlMs) || s.inflight.Some? then s
      else s.(inflight := Some(|s.loads|), loads := s.loads + [Load(s.generation, Pending)])
    case Invalidate => s.(generation := s.generation + 1, current := false, inflight := None)
    case Loaded(i, rows, now) =>
      if i >= |s.loads| || s.loads[i].result != Pending then s
      else if rows.None? then
        Resolved(s, i, if s.snapshot.None? then Rejected else Served(s.snapshot.value.(starred := true)))
      else
        var next := Snapshot(f(rows.value, PreviousValues(s)), i, false);
        var t := Resolved(s, i, Served(next));
        if s.loads[i].generation == s.generation then t.(snapshot := Some(next), loadedAt := now, current := true)
        else t
    case Cleared(i) =>
      if i < |s.loads| && s.loads[i].result != Pending && s.inflight == Some(i) then s.(inflight := None) else s
  }

  function After(s: State, es: seq<Event>, f: Effective, ttlMs: int): State {
    if es == [] then s else Step(After(s, es[..|es| - 1], f, ttlMs), es[|es| - 1], f, ttlMs)
  }

  const EMPTY := State(None, 0, false, None, 0, [])

  // ----- The class -----

  class RuntimeSettingsCache {
    const ttlMs: int
    const effective: Effective
    var snapshot: Option<Snapshot>
    var loadedAt: int
    var current: bool
    var inflight: Option<LoadId>
    var generation: nat
    var loads: seq<Load>

    ghost function Abs(): State
      reads this
    {
      State(snapshot, loadedAt, current, inflight, generation, loads)
    }

    constructor (ttl: int, f: Effective)
      ensures Abs() == EMPTY && ttlMs == ttl && effective == f
      ensures snapshot == None && !current && inflight == None && loads == []
    {
      ttlMs, effective := ttl, f;
      snapshot, loadedAt, current, inflight, generation, loads := None, 0, false, None, 0, [];
    }

    method Refresh() returns (i: LoadId)
      modifies this
      ensures loads == old(loads) + [Load(generation, Pending)] && i == |old(loads)| && inflight == Some(i)
      ensures Abs() == old(Abs()).(inflight := inflight, loads := loads)
    {
      i := |loads|;
      loads := loads + [Load(generation, Pending)];
      inflight := Some(i);
    }

    method GetSettings(now: int) returns (r: Reply)
      modifies this
      ensures Abs() == Step(old(Abs()), Get(now), effective, ttlMs)
      ensures r == Answer(old(Abs()), now, ttlMs)
      ensures snapshot == old(snapshot) && loadedAt == old(loadedAt) && current == old(current)
      ensures r.Immediate? || old(inflight).Some? ==> inflight == old(inflight) && loads == old(loads)
      ensures r.Await? && old(inflight).None? ==>
        inflight == Some(r.load) && loads == old(loads) + [Load(generation, Pending)]
    {
      if snapshot.Some? && current && now - loadedAt < ttlMs {
        return Immediate(snapshot.value);
      }
      if inflight.Some? {
        return Await(inflight.value);
      }
      var i := Refresh();
      r := Await(i);
    }

    method InvalidateAll()
      modifies this
      ensures Abs() == Step(old(Abs()), Invalidate, effective, ttlMs)
      ensures !current && inflight == None && generation > old(generation)
      ensures snapshot == old(snapshot) && loads == old(loads)
    {
      generation := generation + 1;
      current := false;
      inflight := None;
    }

    method OnLoaded(i: LoadId, rows: Option<Rows>, now: int)
      requires i < |loads| && loads[i].result == Pending
      modifies this
      ensures Abs() == Step(old(Abs()), Loaded(i, rows, now), effective, ttlMs)
    {
      var gen := loads[i].generation;
      if rows.None? {
        var r := if snapshot.None? then Rejected else Served(snapshot.value.(starred := true));
        loads := loads[i := Load(gen, r)];
        return;
      }
      var previous := if snapshot.Some? then Some(snapshot.value.values) else None;
      var next := Snapshot(effective(rows.value, previous), i, false);
      loads := loads[i := Load(gen, Served(next))];
      if gen == generation {
        snapshot := Some(next);
        loadedAt := now;
        current := true;
      }
    }

    method OnCleared(i: LoadId)
      requires i < |loads| && loads[i].result != Pending
      modifies this
      ensures Abs() == Step(old(Abs()), Cleared(i), effective, ttlMs)
      ensures inflight == if old(inflight) == Some(i) then None else old(inflight)
      ensures snapshot == old(snapshot) && current == old(current) && loads == old(loads)
    {
      if inflight == Some(i) {
        inflight := None;
      }
    }
  }

  // ----- Invariants; `floor` is how many loads had started at the last invalidation -----

  /** The load in flight belongs to this generation, and every unfinished load of it is that one. */
  ghost predicate SingleFlight(s: State, floor: nat) {
    && floor <= |s.loads|
    && (s.inflight.Some? ==> floor <= s.inflight.value < |s.loads|)
    && (forall i :: 0 <= i < |s.loads| ==> (s.loads[i].generation == s.generation <==> i >= floor))
    && (forall i :: 0 <= i < |s.loads| ==> s.loads[i].generation <= s.generation)
    && (forall i :: floor <= i < |s.loads| && s.loads[i].result == Pending ==> s.inflight == Some(i))
    && (forall i, j :: 0 <= i < j < |s.loads| && s.loads[i].generation == s.loads[j].generation ==>
          s.loads[i].result != Pending || s.loads[j].result != Pending)
  }

  /** A fresh snapshot comes from a load started since the last invalidation. */
  ghost predicate SnapshotOk(s: State, floor: nat) {
    && (s.current ==> s.snapshot.Some? && s.snapshot.value.load >= floor)
    && (s.snapshot.Some? ==> s.snapshot.value.load < |s.loads| && !s.snapshot.value.starred)
  }

  /** What each finished load served: its own values, or a snapshot known at the time, marked. */
  ghost predicate ResultsOk(s: State) {
    forall i :: 0 <= i < |s.loads| && s.loads[i].result.Served? ==>
      s.loads[i].result.snapshot.starred || s.loads[i].result.snapshot.load == i
  }

  ghost predicate Inv(s: State, floor: nat) {
    SingleFlight(s, floor) && SnapshotOk(s, floor) && ResultsOk(s)
  }

  function FloorAfter(s: State, floor: nat, e: Event): nat {
    if e.Invalidate? then |s.loads| else floor
  }

  lemma ResolvedKeepsFlight(s: State, i: LoadId, r: Result, floor: nat)
    requires SingleFlight(s, floor) && i < |s.loads| && r != Pending
    ensures SingleFlight(Resolved(s, i, r), floor)
  {
    var t := Resolved(s, i, r);
    assert forall j :: 0 <= j < |s.loads| ==> t.loads[j].generation == s.loads[j].generation;
    assert forall j :: 0 <= j < |s.loads| && t.loads[j].result == Pending ==> s.loads[j].result == Pending;
  }

  lemma StartedKeepsFlight(s: State, floor: nat)
    requires SingleFlight(s, floor) && s.inflight.None?
    ensures SingleFlight(s.(inflight := Some(|s.loads|), loads := s.loads + [Load(s.generation, Pending)]), floor)
  {
  }

  lemma InvalidatedKeepsFlight(s: State, floor: nat)
    requires SingleFlight(s, floor)
    ensures SingleFlight(s.(generation := s.generation + 1, current := false, inflight := None), |s.loads|)
  {
  }

  lemma ClearedKeepsFlight(s: State, i: LoadId, floor: nat)
    requires SingleFlight(s, floor) && i < |s.loads| && s.loads[i].result != Pending && s.inflight == Some(i)
    ensures SingleFlight(s.(inflight := None), floor)
  {
  }

  lemma StepKeepsFlight(s: State, e: Event, f: Effective, ttlMs: int, floor: nat)
    requires SingleFlight(s, floor)
    ensures SingleFlight(Step(s, e, f, ttlMs), FloorAfter(s, floor, e))
  {
    hide SingleFlight;
    if !e.Loaded? {
      QuietStepKeepsFlight(s, e, f, ttlMs, floor);
    } else if e.load < |s.loads| && s.loads[e.load].result == Pending {
      ResolvedKeepsFlight(s, e.load, Step(s, e, f, ttlMs).loads[e.load].result, floor);
      SameFlight(Resolved(s, e.load, Step(s, e, f, ttlMs).loads[e.load].result), Step(s, e, f, ttlMs), floor);
    }
  }

  lemma SameFlight(s: State, t: State, floor: nat)
    requires SingleFlight(s, floor)
    requires t.inflight == s.inflight && t.generation == s.generation && t.loads == s.loads
    ensures SingleFlight(t, floor)
  {
  }

  lemma QuietStepKeepsFlight(s: State, e: Event, f: Effective, ttlMs: int, floor: nat)
    requires SingleFlight(s, floor) && !e.Loaded?
    ensures SingleFlight(Step(s, e, f, ttlMs), FloorAfter(s, floor, e))
  {
    hide SingleFlight;
    match e
    case Get(now) =>
      if !Hit(s, now, ttlMs) && s.inflight.None? {
        StartedKeepsFlight(s, floor);
      }
    case Invalidate => InvalidatedKeepsFlight(s, floor);
    case Cleared(i) =>
      if i < |s.loads| && s.loads[i].result != Pending && s.inflight == Some(i) {
        ClearedKeepsFlight(s, i, floor);
      }
  }

  lemma StepKeepsSnapshot(s: State, e: Event, f: Effective, ttlMs: int, floor: nat)
    requires SingleFlight(s, floor) && SnapshotOk(s, floor)
    ensures SnapshotOk(Step(s, e, f, ttlMs), FloorAfter(s, floor, e))
  {
  }

  lemma StepKeepsResults(s: State, e: Event, f: Effective, ttlMs: int)
    requires ResultsOk(s)
    ensures ResultsOk(Step(s, e, f, ttlMs)) && |s.loads| <= |Step(s, e, f, ttlMs).loads|
  {
  }

  lemma StepKeepsInv(s: State, e: Event, f: Effective, ttlMs: int, floor: nat)
    requires Inv(s, floor)
    ensures Inv(Step(s, e, f, ttlMs), FloorAfter(s, floor, e))
    ensures |s.loads| <= |Step(s, e, f, ttlMs).loads|
  {
    hide Step, SingleFlight, SnapshotOk, ResultsOk;
    StepKeepsFlight(s, e, f, ttlMs, floor);
    StepKeepsSnapshot(s, e, f, ttlMs, floor);
    StepKeepsResults(s, e, f, ttlMs);
  }

  /** The floor after a run. */
  function Floor(s: State, floor: nat, es: seq<Event>, f: Effective, ttlMs: int): nat {
    if es == [] then floor
    else FloorAfter(After(s, es[..|es| - 1], f, ttlMs), Floor(s, floor, es[..|es| - 1], f, ttlMs), es[|es| - 1])
  }

  lemma {:induction false} RunKeepsInv(s: State, es: seq<Event>, f: Effective, ttlMs: int, floor: nat)
    requires Inv(s, floor)
    ensures Inv(After(s, es, f, ttlMs), Floor(s, floor, es, f, ttlMs))
    ensures floor <= Floor(s, floor, es, f, ttlMs) && |s.loads| <= |After(s, es, f, ttlMs).loads|
  {
    hide Inv, Step;
    if es != [] {
      var init := es[..|es| - 1];
      RunKeepsInv(s, init, f, ttlMs, floor);
      StepKeepsInv(After(s, init, f, ttlMs), es[|es| - 1], f, ttlMs, Floor(s, floor, init, f, ttlMs));
      FloorIsInRange(After(s, init, f, ttlMs), Floor(s, floor, init, f, ttlMs));
    }
  }

  lemma FloorIsInRange(s: State, floor: nat)
    requires Inv(s, floor)
    ensures floor <= |s.loads|
  {
  }

  /**
   * A read begun after an invalidation gives values loaded since it, or waits for a load started
   * since it, whatever happened in between.
   */
  lemma ReadAfterInvalidate(before: seq<Event>, after: seq<Event>, now: int, f: Effective, ttlMs: int)
    ensures var s := After(EMPTY, before, f, ttlMs);
      var t := After(Step(s, Invalidate, f, ttlMs), after, f, ttlMs);
      var r := Answer(t, now, ttlMs);
      && (r.Immediate? ==> r.snapshot.load >= |s.loads| && !r.snapshot.starred)
      && (r.Await? ==> r.load >= |s.loads|)
  {
    var s := After(EMPTY, before, f, ttlMs);
    RunKeepsInv(EMPTY, before, f, ttlMs, 0);
    StepKeepsInv(s, Invalidate, f, ttlMs, Floor(EMPTY, 0, before, f, ttlMs));
    RunKeepsInv(Step(s, Invalidate, f, ttlMs), after, f, ttlMs, |s.loads|);
  }

  /** How a load ends, at the moment it is done. */
  lemma LoadEnds(s: State, i: LoadId, rows: Option<Rows>, now: int, f: Effective, ttlMs: int, floor: nat)
    requires Inv(s, floor) && i < |s.loads| && s.loads[i].result == Pending
    ensures var t := Step(s, Loaded(i, rows, now), f, ttlMs);
      && (rows.Some? ==> t.loads[i].result.Served? && t.loads[i].result.snapshot.load == i
                         && !t.loads[i].result.snapshot.starred)
      && (rows.None? && s.snapshot.Some? ==>
            t.loads[i].result == Served(s.snapshot.value.(starred := true)) && t.snapshot == s.snapshot)
      && (rows.None? && s.snapshot.None? ==> t.loads[i].result == Rejected)
      && (i < floor ==> t.snapshot == s.snapshot && t.current == s.current)
      && (rows.Some? && i >= floor ==> t.current && t.snapshot == Some(t.loads[i].result.snapshot))
  {
  }

  /** What a load that is done serves: its own values, else the last good snapshot marked, else an error. */
  function Ending(s: State, i: LoadId, rows: Option<Rows>, f: Effective): Result {
    if rows.Some? then Served(Snapshot(f(rows.value, PreviousValues(s)), i, false))
    else if s.snapshot.Some? then Served(s.snapshot.value.(starred := true))
    else Rejected
  }

  /** Load `i` was done by event `k` of the run, and what it served then is what it serves at the end. */
  ghost predicate EndsAt(s: State, es: seq<Event>, f: Effective, ttlMs: int, i: LoadId, k: nat) {
    && k < |es| && es[k].Loaded? && es[k].load == i
    && var v, u := After(s, es[..k], f, ttlMs), After(s, es, f, ttlMs);
    && i < |v.loads| && v.loads[i].result == Pending
    && i < |u.loads| && u.loads[i].result == Ending(v, i, es[k].rows, f)
  }

  /** A load that is done stays as it is, and the others go on. */
  lemma DoneStays(s: State, e: Event, f: Effective, ttlMs: int, i: LoadId)
    requires i < |s.loads|
    ensures var t := Step(s, e, f, ttlMs);
      i < |t.loads|
      && t.loads[i].result == if e.Loaded? && e.load == i && s.loads[i].result == Pending then Ending(s, i, e.rows, f)
                              else s.loads[i].result
  {
  }

  lemma StartsPending(s: State, e: Event, f: Effective, ttlMs: int, i: LoadId)
    requires |s.loads| <= i < |Step(s, e, f, ttlMs).loads|
    ensures Step(s, e, f, ttlMs).loads[i].result == Pending
  {
  }

  /** A load started in the run and done by its end was done at one event of it. */
  lemma {:induction false} DoneAtOneEvent(s: State, es: seq<Event>, f: Effective, ttlMs: int, i: LoadId)
    requires |s.loads| <= i < |After(s, es, f, ttlMs).loads|
    requires After(s, es, f, ttlMs).loads[i].result != Pending
    ensures exists k: nat :: EndsAt(s, es, f, ttlMs, i, k)
  {
    hide Step, Ending;
    if es != [] {
      var n := |es| - 1;
      var v := After(s, es[..n], f, ttlMs);
      if i < |v.loads| {
        DoneStays(v, es[n], f, ttlMs, i);
        if v.loads[i].result == Pending {
          assert EndsAt(s, es, f, ttlMs, i, n);
        } else {
          DoneAtOneEvent(s, es[..n], f, ttlMs, i);
          var k: nat :| EndsAt(s, es[..n], f, ttlMs, i, k);
          assert es[..n][..k] == es[..k];
          assert EndsAt(s, es, f, ttlMs, i, k);
        }
      } else {
        StartsPending(v, es[n], f, ttlMs, i);
        assert false;
      }
    }
  }

  /** The snapshot is what its load served. */
  ghost predicate FromItsLoad(s: State) {
    s.snapshot.Some? ==>
      var j := s.snapshot.value.load; j < |s.loads| && s.loads[j].result == Served(s.snapshot.value)
  }

  lemma StepKeepsFromItsLoad(s: State, e: Event, f: Effective, ttlMs: int)
    requires FromItsLoad(s)
    ensures FromItsLoad(Step(s, e, f, ttlMs))
  {
    if s.snapshot.Some? {
      DoneStays(s, e, f, ttlMs, s.snapshot.value.load);
    }
  }

  lemma {:induction false} SnapshotIsFromItsLoad(s: State, es: seq<Event>, f: Effective, ttlMs: int)
    requires FromItsLoad(s)
    ensures FromItsLoad(After(s, es, f, ttlMs))
  {
    hide FromItsLoad, Step;
    if es != [] {
      var v := After(s, es[..|es| - 1], f, ttlMs);
      SnapshotIsFromItsLoad(s, es[..|es| - 1], f, ttlMs);
      StepKeepsFromItsLoad(v, es[|es| - 1], f, ttlMs);
    }
  }

  lemma {:induction false} AfterJoins(s: State, es: seq<Event>, more: seq<Event>, f: Effective, ttlMs: int)
    ensures After(s, es + more, f, ttlMs) == After(After(s, es, f, ttlMs), more, f, ttlMs)
  {
    if more == [] {
      assert es + more == es;
    } else {
      var n := |more| - 1;
      assert (es + more)[..|es + more| - 1] == es + more[..n];
      AfterJoins(s, es, more[..n], f, ttlMs);
    }
  }

  /** The snapshot that a run has loaded, and when it did. */
  lemma {:induction false} SnapshotSince(s: State, es: seq<Event>, f: Effective, ttlMs: int)
    requires var u := After(s, es, f, ttlMs); u.snapshot.Some? && u.snapshot.value.load >= |s.loads|
    requires FromItsLoad(s)
    ensures var u := After(s, es, f, ttlMs);
      exists k: nat :: EndsAt(s, es, f, ttlMs, u.snapshot.value.load, k)
                       && es[k].rows.Some? && es[k].now == u.loadedAt
  {
    hide Step;
    if es == [] {
      assert false;
    } else {
      var n := |es| - 1;
      var v, u := After(s, es[..n], f, ttlMs), After(s, es, f, ttlMs);
      var i := u.snapshot.value.load;
      SnapshotIsFromItsLoad(s, es[..n], f, ttlMs);
      SnapshotChanges(v, es[n], f, ttlMs);
      if u.snapshot == v.snapshot && u.loadedAt == v.loadedAt {
        SnapshotSince(s, es[..n], f, ttlMs);
        var k: nat :| EndsAt(s, es[..n], f, ttlMs, i, k) && es[..n][k].rows.Some? && es[..n][k].now == v.loadedAt;
        DoneStays(v, es[n], f, ttlMs, i);
        assert es[..n][..k] == es[..k] && es[..n][k] == es[k];
        assert EndsAt(s, es, f, ttlMs, i, k);
      } else {
        DoneStays(v, es[n], f, ttlMs, i);
        assert EndsAt(s, es, f, ttlMs, i, n);
      }
    }
  }

  /** The snapshot changes only when a load is done, to what that load served, at that moment. */
  lemma SnapshotChanges(s: State, e: Event, f: Effective, ttlMs: int)
    ensures var t := Step(s, e, f, ttlMs);
      (t.snapshot == s.snapshot && t.loadedAt == s.loadedAt)
      || (e.Loaded? && e.load < |s.loads| && s.loads[e.load].result == Pending && e.rows.Some?
          && t.loadedAt == e.now && t.snapshot.Some? && t.snapshot.value.load == e.load
          && Served(t.snapshot.value) == Ending(s, e.load, e.rows, f))
  {
  }

  /**
   * What a read is answered: the snapshot at once exactly while it is current and younger than its
   * lifetime, else the load in flight, else a new one.
   */
  lemma AnsweredExactly(s: State, now: int, ttlMs: int)
    ensures var young := s.snapshot.Some? && s.current && now < s.loadedAt + ttlMs;
      Answer(s, now, ttlMs) ==
        if young then Immediate(s.snapshot.value)
        else Await(if s.inflight.Some? then s.inflight.value else |s.loads|)
  {
  }

  /**
   * What a read begun after an invalidation finally gets, whatever happens before it, in between and
   * later. At once: values that some load started since the invalidation made of the rows it read,
   * less than a lifetime ago.
   * Else the end of a load started since: its own values, the last good snapshot of the moment it
   * was done, marked, or an error exactly when there was none; and that answer does not change.
   */
  lemma ReaderGets(
    before: seq<Event>, between: seq<Event>, now: int, later: seq<Event>, f: Effective, ttlMs: int)
    ensures var s := After(EMPTY, before, f, ttlMs);
      var i, es := Step(s, Invalidate, f, ttlMs), between + [Get(now)] + later;
      var r, u := Answer(After(i, between, f, ttlMs), now, ttlMs), After(i, es, f, ttlMs);
      && (r.Immediate? ==>
            && r.snapshot.load >= |s.loads|
            && exists k: nat :: EndsAt(i, between, f, ttlMs, r.snapshot.load, k) && between[k].rows.Some?
                && now - between[k].now < ttlMs
                && r.snapshot == Snapshot(f(between[k].rows.value, PreviousValues(After(i, between[..k], f, ttlMs))),
                                          r.snapshot.load, false))
      && (r.Await? ==>
            && |s.loads| <= r.load < |u.loads|
            && (u.loads[r.load].result != Pending ==> exists k: nat :: EndsAt(i, es, f, ttlMs, r.load, k)))
  {
    var s := After(EMPTY, before, f, ttlMs);
    var i, es := Step(s, Invalidate, f, ttlMs), between + [Get(now)] + later;
    var t := After(i, between, f, ttlMs);
    var r, u := Answer(t, now, ttlMs), After(i, es, f, ttlMs);
    ReadAfterInvalidate(before, between, now, f, ttlMs);
    if r.Immediate? {
      SnapshotIsFromItsLoad(EMPTY, before, f, ttlMs);
      SnapshotIsFromItsLoad(i, between, f, ttlMs);
      SnapshotSince(i, between, f, ttlMs);
    } else {
      ReadingGrows(before, between, now, later, f, ttlMs);
      if u.loads[r.load].result != Pending {
        DoneAtOneEvent(i, es, f, ttlMs, r.load);
      }
    }
  }

  lemma ReadingGrows(
    before: seq<Event>, between: seq<Event>, now: int, later: seq<Event>, f: Effective, ttlMs: int)
    requires var t := After(Step(After(EMPTY, before, f, ttlMs), Invalidate, f, ttlMs), between, f, ttlMs);
      Answer(t, now, ttlMs).Await?
    ensures var i := Step(After(EMPTY, before, f, ttlMs), Invalidate, f, ttlMs);
      Answer(After(i, between, f, ttlMs), now, ttlMs).load < |After(i, between + [Get(now)] + later, f, ttlMs).loads|
  {
    var s := After(EMPTY, before, f, ttlMs);
    var i := Step(s, Invalidate, f, ttlMs);
    var es := between + [Get(now)];
    RunKeepsInv(EMPTY, before, f, ttlMs, 0);
    StepKeepsInv(s, Invalidate, f, ttlMs, Floor(EMPTY, 0, before, f, ttlMs));
    RunKeepsInv(i, between, f, ttlMs, |s.loads|);
    RunKeepsInv(i, es, f, ttlMs, |s.loads|);
    assert es[..|es| - 1] == between;
    assert After(i, es, f, ttlMs) == Step(After(i, between, f, ttlMs), Get(now), f, ttlMs);
    AfterJoins(i, es, later, f, ttlMs);
    RunKeepsInv(After(i, es, f, ttlMs), later, f, ttlMs, Floor(i, |s.loads|, es, f, ttlMs));
  }

  /** Never two unfinished loads of one generation. */
  lemma OneLoadPerGeneration(es: seq<Event>, f: Effective, ttlMs: int, i: nat, j: nat)
    requires var s := After(EMPTY, es, f, ttlMs);
      i < j < |s.loads| && s.loads[i].result == Pending && s.loads[j].result == Pending
    ensures var s := After(EMPTY, es, f, ttlMs);
      s.loads[i].generation != s.loads[j].generation
  {
    RunKeepsInv(EMPTY, es, f, ttlMs, 0);
  }
}
