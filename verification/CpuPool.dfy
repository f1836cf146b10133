/**
 * The shared pool of CPU threads. `Step` is the specification of every call, thread message, exit
 * and timer; the class updates its fields as the source does. A thread stays known after its slot
 * is given up, until its exit event.
 */
module CpuPool {
  import opened Prelude

  type TaskId = nat

  type WorkerId = nat

  datatype Thread = Thread(current: Option<TaskId>, idleTimer: bool)

  /** How a task's promise ends: by the reply of its thread, by its exit, or by the close of the pool. */
  datatype Ending = Answered(ok: bool) | Crashed | PoolClosed

  /** `started` and `settled` record tasks in the order they were posted to a thread and settled. */
  datatype State = State(
    size: nat,
    slots: seq<WorkerId>,
    threads: map<WorkerId, Thread>,
    queue: seq<TaskId>,
    nextId: nat,
    nextWorker: nat,
    closed: bool,
    started: seq<TaskId>,
    settled: seq<TaskId>,
    endings: map<TaskId, Ending>)

  datatype Event =
    | Run
    | Message(worker: WorkerId, id: TaskId, ok: bool)
    | Exit(worker: WorkerId)
    | IdleTimer(worker: WorkerId)
    | Close

  // ----- Specification -----

  function Position(slots: seq<WorkerId>, w: WorkerId): (i: nat)
    ensures i <= |slots|
    ensures i < |slots| ==> slots[i] == w
    ensures i == |slots| ==> w !in slots
  {
    if slots == [] then 0 else if slots[0] == w then 0 else 1 + Position(slots[1..], w)
  }

  /** `Set.delete`. */
  function Without(slots: seq<WorkerId>, w: WorkerId): seq<WorkerId> {
    var i := Position(slots, w);
    if i < |slots| then slots[..i] + slots[i + 1..] else slots
  }

  predicate Free(threads: map<WorkerId, Thread>, w: WorkerId) {
    w in threads && threads[w].current.None?
  }

  /** The first slot without a task. */
  function FirstFree(slots: seq<WorkerId>, threads: map<WorkerId, Thread>): (i: nat)
    ensures i <= |slots|
    ensures i < |slots| ==> Free(threads, slots[i])
    ensures forall j :: 0 <= j < i ==> !Free(threads, slots[j])
  {
    if slots == [] then 0
    else if Free(threads, slots[0]) then 0
    else 1 + FirstFree(slots[1..], threads)
  }

  function Spawned(s: State): State {
    s.(slots := s.slots + [s.nextWorker],
       threads := s.threads[s.nextWorker := Thread(None, false)],
       nextWorker := s.nextWorker + 1)
  }

  function Assigned(s: State, w: WorkerId): State
    requires s.queue != []
  {
    s.(queue := s.queue[1..],
       threads := s.threads[w := Thread(Some(s.queue[0]), false)],
       started := s.started + [s.queue[0]])
  }

  function Dispatched(s: State): State
    decreases |s.queue|
  {
    if s.queue == [] then s
    else
      var i := FirstFree(s.slots, s.threads);
      if i < |s.slots| then Dispatched(Assigned(s, s.slots[i]))
      else if |s.slots| >= s.size then s
      else Dispatched(Assigned(Spawned(s), s.nextWorker))
  }

  function Retired(s: State, w: WorkerId): State
    requires w in s.threads
  {
    if s.threads[w].current.Some? && !s.closed then s
    else s.(slots := Without(s.slots, w), threads := s.threads[w := s.threads[w].(idleTimer := false)])
  }

  function Retiring(threads: map<WorkerId, Thread>, slots: seq<WorkerId>): map<WorkerId, Thread> {
    map w | w in threads :: if w in slots then threads[w].(idleTimer := false) else threads[w]
  }

  /** A thread's exit settles the task it was running. */
  function Failed(settled: seq<TaskId>, current: Option<TaskId>): seq<TaskId> {
    if current.Some? then settled + [current.value] else settled
  }

  function CrashedOf(endings: map<TaskId, Ending>, current: Option<TaskId>): map<TaskId, Ending> {
    if current.Some? then endings[current.value := Crashed] else endings
  }

  function Refused(endings: map<TaskId, Ending>, queue: seq<TaskId>): map<TaskId, Ending>
    decreases |queue|
  {
    if queue == [] then endings else Refused(endings[queue[0] := PoolClosed], queue[1..])
  }

  function Step(s: State, e: Event): State {
    match e
    case Run =>
      if s.closed then s
      else Dispatched(s.(queue := s.queue + [s.nextId], nextId := s.nextId + 1))
    case Message(w, id, ok) =>
      if w in s.threads && s.threads[w].current == Some(id) then
        Dispatched(s.(threads := s.threads[w := Thread(None, true)], settled := s.settled + [id],
                      endings := s.endings[id := Answered(ok)]))
      else s
    case Exit(w) =>
      if w in s.threads then
        var t := s.(slots := Without(s.slots, w), threads := s.threads - {w},
                    settled := Failed(s.settled, s.threads[w].current),
                    endings := CrashedOf(s.endings, s.threads[w].current));
        if s.closed then t else Dispatched(t)
      else s
    case IdleTimer(w) =>
      if w in s.threads && s.threads[w].idleTimer then
        Retired(s.(threads := s.threads[w := s.threads[w].(idleTimer := false)]), w)
      else s
    case Close =>
      s.(closed := true, queue := [], settled := s.settled + s.queue, slots := [],
         endings := Refused(s.endings, s.queue), threads := Retiring(s.threads, s.slots))
  }

  function Init(size: nat): State {
    State(size, [], map[], [], 1, 0, false, [], [], map[])
  }

  function After(s: State, es: seq<Event>): State {
    if es == [] then s else Step(After(s, es[..|es| - 1]), es[|es| - 1])
  }

  // ----- The class -----

  class CpuPool {
    const size: nat
    var slots: seq<WorkerId>
    var threads: map<WorkerId, Thread>
    var queue: seq<TaskId>
    var nextId: nat
    var nextWorker: nat
    var closed: bool
    ghost var started: seq<TaskId>
    ghost var settled: seq<TaskId>
    var endings: map<TaskId, Ending>

    ghost function Abs(): State
      reads this
    {
      State(size, slots, threads, queue, nextId, nextWorker, closed, started, settled, endings)
    }

    constructor (n: int)
      ensures Abs() == Init(if n > 1 then n else 1)
    {
      size := if n > 1 then n else 1;
      slots, threads, queue, nextId, nextWorker, closed, started, settled := [], map[], [], 1, 0, false, [], [];
      endings := map[];
    }

    method Spawn() returns (w: WorkerId)
      modifies this
      ensures Abs() == Spawned(old(Abs())) && w == old(nextWorker)
    {
      w := nextWorker;
      nextWorker := nextWorker + 1;
      threads := threads[w := Thread(None, false)];
      slots := slots + [w];
    }

    method FindFree() returns (i: nat)
      ensures i == FirstFree(slots, threads)
    {
      i := 0;
      while i < |slots| && !(slots[i] in threads && threads[slots[i]].current.None?)
        invariant i <= |slots| && FirstFree(slots, threads) == i + FirstFree(slots[i..], threads)
      {
        assert slots[i..][1..] == slots[i + 1..];
        i := i + 1;
      }
    }

    method Dispatch()
      modifies this
      ensures Abs() == Dispatched(old(Abs()))
    {
      while |queue| > 0
        invariant Dispatched(Abs()) == Dispatched(old(Abs()))
        decreases |queue|
      {
        var i := FindFree();
        var w: WorkerId;
        if i < |slots| {
          w := slots[i];
        } else {
          if |slots| >= size {
            return;
          }
          w := Spawn();
        }
        var pending := queue[0];
        queue := queue[1..];
        threads := threads[w := Thread(Some(pending), false)];
        started := started + [pending];
      }
    }

    /** A refused task, on a closed pool, gets no id. */
    method RunTask() returns (accepted: Option<TaskId>)
      modifies this
      ensures Abs() == Step(old(Abs()), Run)
      ensures accepted == if old(closed) then None else Some(old(nextId))
    {
      if closed {
        return None;
      }
      accepted := Some(nextId);
      queue := queue + [nextId];
      nextId := nextId + 1;
      Dispatch();
    }

    method OnMessage(w: WorkerId, id: TaskId, ok: bool)
      modifies this
      ensures Abs() == Step(old(Abs()), Message(w, id, ok))
    {
      if w !in threads || threads[w].current != Some(id) {
        return;
      }
      threads := threads[w := Thread(None, true)];
      settled := settled + [id];
      endings := endings[id := Answered(ok)];
      Dispatch();
    }

    method DeleteSlot(w: WorkerId)
      modifies this`slots
      ensures slots == Without(old(slots), w)
    {
      var i := 0;
      while i < |slots| && slots[i] != w
        invariant i <= |slots| && Position(slots, w) == i + Position(slots[i..], w)
      {
        assert slots[i..][1..] == slots[i + 1..];
        i := i + 1;
      }
      if i < |slots| {
        slots := slots[..i] + slots[i + 1..];
      }
    }

    method OnExit(w: WorkerId)
      modifies this
      ensures Abs() == Step(old(Abs()), Exit(w))
    {
      if w !in threads {
        return;
      }
      DeleteSlot(w);
      if threads[w].current.Some? {
        settled := settled + [threads[w].current.value];
        endings := endings[threads[w].current.value := Crashed];
      }
      threads := threads - {w};
      if !closed {
        Dispatch();
      }
    }

    method Retire(w: WorkerId)
      requires w in threads
      modifies this`slots, this`threads
      ensures Abs() == Retired(old(Abs()), w)
    {
      if threads[w].current.Some? && !closed {
        return;
      }
      DeleteSlot(w);
      threads := threads[w := threads[w].(idleTimer := false)];
    }

    method OnIdle(w: WorkerId)
      modifies this
      ensures Abs() == Step(old(Abs()), IdleTimer(w))
    {
      if w in threads && threads[w].idleTimer {
        threads := threads[w := threads[w].(idleTimer := false)];
        Retire(w);
      }
    }

    /** Every task still waiting is refused. */
    method RejectAll()
      modifies this`queue, this`settled, this`endings
      ensures queue == [] && settled == old(settled + queue) && endings == Refused(old(endings), old(queue))
    {
      ghost var waiting := queue;
      while queue != []
        invariant settled + queue == old(settled) + waiting
        invariant Refused(endings, queue) == Refused(old(endings), waiting)
      {
        settled := settled + [queue[0]];
        endings := endings[queue[0] := PoolClosed];
        queue := queue[1..];
      }
    }

    method RetireAll()
      requires closed && forall w :: w in slots ==> w in threads
      modifies this`slots, this`threads
      ensures slots == [] && threads == Retiring(old(threads), old(slots))
    {
      var all := slots;
      NoneRetiring(threads);
      for i := 0 to |all|
        invariant slots == all[i..] && threads == Retiring(old(threads), all[..i])
      {
        assert all[i] in all;
        assert all[i..][1..] == all[i + 1..];
        RetiringNext(old(threads), all, i);
        Retire(all[i]);
      }
      assert all[..|all|] == all;
    }

    method Close()
      requires forall w :: w in slots ==> w in threads
      modifies this
      ensures Abs() == Step(old(Abs()), Event.Close)
    {
      closed := true;
      RejectAll();
      RetireAll();
    }
  }

  lemma NoneRetiring(threads: map<WorkerId, Thread>)
    ensures Retiring(threads, []) == threads
  {
  }

  lemma RetiringNext(threads: map<WorkerId, Thread>, all: seq<WorkerId>, i: nat)
    requires i < |all| && all[i] in threads
    ensures var before := Retiring(threads, all[..i]);
      all[i] in before
      && Retiring(threads, all[..i + 1]) == before[all[i] := before[all[i]].(idleTimer := false)]
  {
    assert all[..i + 1] == all[..i] + [all[i]];
  }

  // ----- Invariants -----

  predicate NoRepeats(q: seq<nat>) {
    forall i, j :: 0 <= i < j < |q| ==> q[i] != q[j]
  }

  /** No more slots than the size, each a known thread; while open, every busy thread has its slot. */
  ghost predicate SlotsOk(s: State) {
    && s.size >= 1 && |s.slots| <= s.size && NoRepeats(s.slots)
    && (forall w :: w in s.slots ==> w in s.threads)
    && (forall w :: w in s.threads ==> w < s.nextWorker)
    && (!s.closed ==> forall w :: w in s.threads && s.threads[w].current.Some? ==> w in s.slots)
  }

  /** Tasks start in the order they came: 1, 2, 3, and the queue holds the next ones. */
  ghost predicate Fifo(s: State) {
    && (forall i :: 0 <= i < |s.started| ==> s.started[i] == i + 1)
    && (forall i :: 0 <= i < |s.queue| ==> s.queue[i] == |s.started| + 1 + i)
    && 1 <= s.nextId
    && (if s.closed then s.queue == [] && |s.started| < s.nextId else |s.started| + |s.queue| + 1 == s.nextId)
  }

  predicate Running(s: State, id: TaskId) {
    exists w :: w in s.threads && s.threads[w].current == Some(id)
  }

  predicate SameTask(s: State, v: WorkerId, w: WorkerId)
    requires v in s.threads && w in s.threads
  {
    s.threads[v].current.Some? && s.threads[v].current == s.threads[w].current
  }

  /** What a thread is running has started, is not settled, and runs nowhere else. */
  ghost predicate RunningOnce(s: State) {
    && (forall w :: w in s.threads && s.threads[w].current.Some? ==>
          1 <= s.threads[w].current.value <= |s.started| && s.threads[w].current.value !in s.settled)
    && (forall v, w :: v in s.threads && w in s.threads && SameTask(s, v, w) ==> v == w)
  }

  /** Nothing is settled twice, and what is settled either started or was refused on close. */
  ghost predicate SettledOnce(s: State) {
    && NoRepeats(s.settled)
    && (forall id :: id in s.settled ==> 1 <= id < s.nextId && (!s.closed ==> id <= |s.started|))
  }

  /** Every started task is running or settled; on a closed pool, every task. */
  ghost predicate NoneLost(s: State) {
    forall id :: 1 <= id < s.nextId && (id <= |s.started| || s.closed) ==> id in s.settled || Running(s, id)
  }

  ghost predicate Inv(s: State) {
    SlotsOk(s) && Fifo(s) && RunningOnce(s) && SettledOnce(s) && NoneLost(s)
  }

  /** While open, a task waits only if as many threads as allowed are started and all are busy. */
  ghost predicate WorkConserving(s: State) {
    !s.closed && s.queue != [] ==>
      |s.slots| == s.size && forall w :: w in s.slots ==> w in s.threads && s.threads[w].current.Some?
  }

  /** Each task accepted so far is in exactly one place: queued, on one thread, or settled once. */
  lemma EveryTaskIsInOnePlace(s: State, id: TaskId)
    requires Inv(s) && 1 <= id < s.nextId
    ensures id in s.queue || Running(s, id) || id in s.settled
    ensures !(id in s.queue && Running(s, id)) && !(id in s.queue && id in s.settled)
    ensures !(Running(s, id) && id in s.settled)
  {
    if id > |s.started| && !s.closed {
      assert s.queue[id - |s.started| - 1] == id;
    }
  }

  lemma SpawnKeepsInv(s: State)
    requires Inv(s) && |s.slots| < s.size
    ensures Inv(Spawned(s))
  {
    hide RunningOnce, NoneLost, SettledOnce, Fifo;
    SpawnKeepsSlots(s);
    SpawnKeepsRuns(s);
    SpawnLosesNone(s);
    hide SlotsOk;
  }

  lemma SpawnKeepsSlots(s: State)
    requires SlotsOk(s) && |s.slots| < s.size
    ensures SlotsOk(Spawned(s)) && s.nextWorker !in s.threads
  {
    NoRepeatsJoined(s.slots, [s.nextWorker]);
  }

  lemma SpawnKeepsRuns(s: State)
    requires RunningOnce(s) && SettledOnce(s) && Fifo(s) && s.nextWorker !in s.threads
    ensures RunningOnce(Spawned(s)) && SettledOnce(Spawned(s)) && Fifo(Spawned(s))
  {
    hide NoRepeats;
    var t := Spawned(s);
    assert forall v :: v in s.threads ==> t.threads[v] == s.threads[v];
  }

  lemma SpawnLosesNone(s: State)
    requires NoneLost(s) && s.nextWorker !in s.threads
    ensures NoneLost(Spawned(s))
  {
    OthersStillRun(s, Spawned(s), s.nextWorker);
    hide Running;
  }

  lemma AssignKeepsSlots(s: State, w: WorkerId)
    requires SlotsOk(s) && !s.closed && s.queue != [] && w in s.slots
    ensures SlotsOk(Assigned(s, w))
  {
    hide NoRepeats;
  }

  lemma AssignKeepsRuns(s: State, w: WorkerId)
    requires RunningOnce(s) && SettledOnce(s) && Fifo(s) && !s.closed && s.queue != [] && Free(s.threads, w)
    ensures RunningOnce(Assigned(s, w)) && SettledOnce(Assigned(s, w)) && Fifo(Assigned(s, w))
  {
    hide NoRepeats;
    var t := Assigned(s, w);
    assert s.queue[0] == |s.started| + 1 && s.queue[0] !in s.settled;
    assert forall v :: v in s.threads && v != w ==> t.threads[v] == s.threads[v];
    assert forall v :: v in s.threads && v != w ==> !SameTask(t, v, w);
  }

  lemma AssignLosesNone(s: State, w: WorkerId)
    requires NoneLost(s) && Fifo(s) && !s.closed && s.queue != [] && Free(s.threads, w)
    ensures NoneLost(Assigned(s, w))
  {
    var t := Assigned(s, w);
    OthersStillRun(s, t, w);
    assert t.threads[w].current == Some(|t.started|);
    assert Running(t, |t.started|);
    hide Running;
  }

  lemma AssignKeepsInv(s: State, w: WorkerId)
    requires Inv(s) && !s.closed && s.queue != [] && w in s.slots && Free(s.threads, w)
    ensures Inv(Assigned(s, w))
  {
    hide SlotsOk, Fifo, RunningOnce, SettledOnce, NoneLost;
    AssignKeepsSlots(s, w);
    AssignKeepsRuns(s, w);
    AssignLosesNone(s, w);
  }

  lemma {:induction false} DispatchKeepsInv(s: State)
    requires Inv(s) && !s.closed
    ensures Inv(Dispatched(s)) && WorkConserving(Dispatched(s))
    ensures !Dispatched(s).closed && Dispatched(s).size == s.size
    decreases |s.queue|
  {
    hide SlotsOk, Fifo, RunningOnce, SettledOnce, NoneLost;
    if s.queue != [] {
      var i := FirstFree(s.slots, s.threads);
      if i < |s.slots| {
        AssignKeepsInv(s, s.slots[i]);
        DispatchKeepsInv(Assigned(s, s.slots[i]));
      } else if |s.slots| < s.size {
        SpawnKeepsInv(s);
        AssignKeepsInv(Spawned(s), s.nextWorker);
        DispatchKeepsInv(Assigned(Spawned(s), s.nextWorker));
      } else {
        NoneFree(s);
      }
    }
  }

  lemma NoneFree(s: State)
    requires Inv(s) && |s.slots| >= s.size && FirstFree(s.slots, s.threads) == |s.slots|
    ensures WorkConserving(s)
  {
    forall w | w in s.slots ensures w in s.threads && s.threads[w].current.Some? {
      var j :| 0 <= j < |s.slots| && s.slots[j] == w;
      assert !Free(s.threads, s.slots[j]);
    }
  }

  lemma RunKeepsInv(s: State)
    requires Inv(s) && !s.closed
    ensures Inv(s.(queue := s.queue + [s.nextId], nextId := s.nextId + 1))
  {
    var t := s.(queue := s.queue + [s.nextId], nextId := s.nextId + 1);
    assert forall id: TaskId :: Running(s, id) ==> Running(t, id);
  }

  /** The thread's task is done and the thread idle. */
  function Replied(s: State, w: WorkerId, id: TaskId, ok: bool): State {
    s.(threads := s.threads[w := Thread(None, true)], settled := s.settled + [id],
       endings := s.endings[id := Answered(ok)])
  }

  lemma ReplyKeepsSlots(s: State, w: WorkerId, id: TaskId, ok: bool)
    requires SlotsOk(s) && w in s.threads
    ensures SlotsOk(Replied(s, w, id, ok))
  {
    hide NoRepeats;
  }

  lemma ReplyKeepsRuns(s: State, w: WorkerId, id: TaskId, ok: bool)
    requires RunningOnce(s) && SettledOnce(s) && Fifo(s) && w in s.threads && s.threads[w].current == Some(id)
    ensures RunningOnce(Replied(s, w, id, ok)) && SettledOnce(Replied(s, w, id, ok)) && Fifo(Replied(s, w, id, ok))
  {
    var t := Replied(s, w, id, ok);
    NoRepeatsJoined(s.settled, [id]);
    hide NoRepeats;
    assert forall v :: v in s.threads && v != w ==> t.threads[v] == s.threads[v] && !SameTask(s, v, w);
  }

  lemma ReplyLosesNone(s: State, w: WorkerId, id: TaskId, ok: bool)
    requires NoneLost(s) && w in s.threads && s.threads[w].current == Some(id)
    ensures NoneLost(Replied(s, w, id, ok))
  {
    OthersStillRun(s, Replied(s, w, id, ok), w);
    hide Running;
  }

  lemma ReplyKeepsInv(s: State, w: WorkerId, id: TaskId, ok: bool)
    requires Inv(s) && w in s.threads && s.threads[w].current == Some(id)
    ensures Inv(Replied(s, w, id, ok))
  {
    hide Replied, SlotsOk, Fifo, RunningOnce, SettledOnce, NoneLost;
    ReplyKeepsSlots(s, w, id, ok);
    ReplyKeepsRuns(s, w, id, ok);
    ReplyLosesNone(s, w, id, ok);
  }

  lemma OthersStillRun(s: State, t: State, w: WorkerId)
    requires forall v :: v in s.threads && v != w ==> v in t.threads && t.threads[v].current == s.threads[v].current
    ensures forall id: TaskId ::
      Running(s, id) && !(w in s.threads && s.threads[w].current == Some(id)) ==> Running(t, id)
  {
    forall id: TaskId | Running(s, id) && !(w in s.threads && s.threads[w].current == Some(id))
      ensures Running(t, id)
    {
      var v :| v in s.threads && s.threads[v].current == Some(id);
      assert t.threads[v].current == Some(id);
    }
  }

  lemma WithoutOf(slots: seq<WorkerId>, w: WorkerId)
    requires NoRepeats(slots)
    ensures NoRepeats(Without(slots, w)) && |Without(slots, w)| <= |slots|
    ensures forall v :: v in Without(slots, w) <==> v in slots && v != w
  {
    var i, out := Position(slots, w), Without(slots, w);
    assert forall j :: 0 <= j < |out| ==> out[j] == if j < i then slots[j] else slots[j + 1];
    forall v | v in slots && v != w ensures v in out {
      var j :| 0 <= j < |slots| && slots[j] == v;
      assert i < |slots| && j > i ==> out[j - 1] == v;
      assert j < i ==> out[j] == v;
    }
  }

  function Exited(s: State, w: WorkerId): State
    requires w in s.threads
  {
    s.(slots := Without(s.slots, w), threads := s.threads - {w},
       settled := Failed(s.settled, s.threads[w].current),
       endings := CrashedOf(s.endings, s.threads[w].current))
  }

  lemma ExitKeepsSlots(s: State, w: WorkerId)
    requires SlotsOk(s) && w in s.threads
    ensures SlotsOk(Exited(s, w))
  {
    WithoutOf(s.slots, w);
    hide Without, NoRepeats;
  }

  lemma ExitKeepsRuns(s: State, w: WorkerId)
    requires RunningOnce(s) && SettledOnce(s) && Fifo(s) && w in s.threads
    ensures RunningOnce(Exited(s, w)) && SettledOnce(Exited(s, w)) && Fifo(Exited(s, w))
  {
    hide Without;
    var t := Exited(s, w);
    assert forall v :: v in t.threads ==> v in s.threads && v != w && t.threads[v] == s.threads[v];
    if s.threads[w].current.Some? {
      var id := s.threads[w].current.value;
      NoRepeatsJoined(s.settled, [id]);
      assert forall v :: v in t.threads ==> !SameTask(s, v, w);
    }
  }

  lemma ExitLosesNone(s: State, w: WorkerId)
    requires NoneLost(s) && w in s.threads
    ensures NoneLost(Exited(s, w))
  {
    hide Without;
    OthersStillRun(s, Exited(s, w), w);
  }

  lemma ExitKeepsInv(s: State, w: WorkerId)
    requires Inv(s) && w in s.threads
    ensures Inv(Exited(s, w))
  {
    hide Exited, SlotsOk, RunningOnce, SettledOnce, NoneLost, Fifo;
    ExitKeepsSlots(s, w);
    ExitKeepsRuns(s, w);
    ExitLosesNone(s, w);
  }

  /** Same tasks on the same threads. */
  lemma SameTasksKeepInv(s: State, t: State)
    requires Inv(s) && SlotsOk(t) && t.threads.Keys == s.threads.Keys
    requires forall w :: w in s.threads ==> t.threads[w].current == s.threads[w].current
    requires t.queue == s.queue && t.nextId == s.nextId && t.closed == s.closed
    requires t.started == s.started && t.settled == s.settled
    ensures Inv(t)
  {
    hide SlotsOk;
    SameTasksRunOnce(s, t);
    forall id: TaskId | Running(s, id) ensures Running(t, id) {
      var w :| w in s.threads && s.threads[w].current == Some(id);
      assert t.threads[w].current == Some(id);
    }
    hide RunningOnce, Running;
  }

  lemma SameTasksRunOnce(s: State, t: State)
    requires RunningOnce(s) && t.threads.Keys == s.threads.Keys
    requires forall w :: w in s.threads ==> t.threads[w].current == s.threads[w].current
    requires t.started == s.started && t.settled == s.settled
    ensures RunningOnce(t)
  {
    assert forall v, w :: v in t.threads && w in t.threads && SameTask(t, v, w) ==> SameTask(s, v, w);
  }

  lemma IdleKeepsInv(s: State, w: WorkerId)
    requires Inv(s) && WorkConserving(s) && w in s.threads
    ensures Inv(Step(s, IdleTimer(w))) && WorkConserving(Step(s, IdleTimer(w)))
  {
    var t := Step(s, IdleTimer(w));
    WithoutOf(s.slots, w);
    SameTasksKeepInv(s, t);
  }

  lemma CloseLosesNone(s: State)
    requires Inv(s)
    ensures NoneLost(Step(s, Close))
  {
    var t := Step(s, Close);
    forall id | 1 <= id < s.nextId ensures id in t.settled || Running(t, id) {
      EveryTaskIsInOnePlace(s, id);
      if Running(s, id) {
        var w :| w in s.threads && s.threads[w].current == Some(id);
        assert t.threads[w].current == Some(id);
      }
    }
  }

  lemma CloseSettlesOnce(s: State)
    requires Inv(s)
    ensures SettledOnce(Step(s, Close))
  {
    forall id | id in s.queue ensures id !in s.settled && 1 <= id < s.nextId {
      EveryTaskIsInOnePlace(s, id);
    }
    NoRepeatsJoined(s.settled, s.queue);
  }

  lemma CloseKeepsRuns(s: State)
    requires Inv(s)
    ensures SlotsOk(Step(s, Close)) && Fifo(Step(s, Close)) && RunningOnce(Step(s, Close))
  {
    hide NoneLost, SettledOnce, NoRepeats;
    var t := Step(s, Close);
    assert forall w :: w in s.threads ==> t.threads[w].current == s.threads[w].current;
    assert forall v, w :: v in t.threads && w in t.threads && SameTask(t, v, w) ==> SameTask(s, v, w);
    forall w | w in s.threads && s.threads[w].current.Some?
      ensures s.threads[w].current.value !in s.queue
    {
    }
    NoRepeatsNone();
  }

  lemma NoRepeatsNone()
    ensures NoRepeats([])
  {
  }

  lemma CloseKeepsInv(s: State)
    requires Inv(s)
    ensures Inv(Step(s, Close))
  {
    CloseLosesNone(s);
    CloseSettlesOnce(s);
    CloseKeepsRuns(s);
    hide SlotsOk, Fifo, RunningOnce, SettledOnce, NoneLost;
  }

  lemma NoRepeatsJoined(a: seq<nat>, b: seq<nat>)
    requires NoRepeats(a) && NoRepeats(b) && forall x :: x in b ==> x !in a
    ensures NoRepeats(a + b)
  {
    forall i, j | 0 <= i < j < |a + b| ensures (a + b)[i] != (a + b)[j] {
      if i < |a| <= j {
        assert b[j - |a|] in b && a[i] in a;
      }
    }
  }

  lemma StepKeepsInv(s: State, e: Event)
    requires Inv(s) && WorkConserving(s)
    ensures Inv(Step(s, e)) && WorkConserving(Step(s, e))
  {
    hide Inv, WorkConserving, Dispatched, Retired, Retiring;
    match e
    case Run =>
      if !s.closed {
        RunKeepsInv(s);
        AfterEvent(s.(queue := s.queue + [s.nextId], nextId := s.nextId + 1));
      }
    case Message(w, id, ok) =>
      if w in s.threads && s.threads[w].current == Some(id) {
        ReplyKeepsInv(s, w, id, ok);
        AfterEvent(Replied(s, w, id, ok));
      }
    case Exit(w) =>
      if w in s.threads {
        ExitKeepsInv(s, w);
        AfterEvent(Exited(s, w));
      }
    case IdleTimer(w) =>
      if w in s.threads {
        IdleKeepsInv(s, w);
      }
    case Close =>
      CloseKeepsInv(s);
      ClosedConserves(Step(s, Close));
  }

  lemma ClosedConserves(s: State)
    requires s.closed
    ensures WorkConserving(s)
  {
  }

  lemma AfterEvent(s: State)
    requires Inv(s)
    ensures Inv(Dispatched(s)) && WorkConserving(Dispatched(s))
    ensures s.closed ==> Dispatched(s) == s
  {
    if !s.closed {
      DispatchKeepsInv(s);
    }
  }

  /**
   * Over every sequence of calls, replies, crashes, timers and close: each task is in exactly one
   * of queued, on one thread, or settled once; tasks start in arrival order; there are never more
   * slots than the size; and while open a task waits only if all of them are busy.
   */
  lemma {:induction false} AlwaysAccountedFor(size: nat, es: seq<Event>)
    requires size >= 1
    ensures var s := After(Init(size), es); Inv(s) && WorkConserving(s)
  {
    hide Inv, WorkConserving, Step;
    if es == [] {
      InitInv(size);
    } else {
      AlwaysAccountedFor(size, es[..|es| - 1]);
      StepKeepsInv(After(Init(size), es[..|es| - 1]), es[|es| - 1]);
    }
  }

  lemma InitInv(size: nat)
    requires size >= 1
    ensures Inv(Init(size)) && WorkConserving(Init(size))
  {
  }

  // ----- What each event does -----

  predicate Busy(s: State, w: WorkerId) {
    w in s.threads && s.threads[w].current.Some?
  }

  /**
   * From `s` to `d` tasks were only handed to threads: the first ones waiting, as many as there was
   * room for; busy threads kept theirs, and new threads started only once all were busy.
   */
  ghost predicate Round(s: State, d: State) {
    && d.size == s.size && d.nextId == s.nextId && d.closed == s.closed
    && d.settled == s.settled && d.endings == s.endings
    && |d.queue| <= |s.queue|
    && (var k := |s.queue| - |d.queue|; d.queue == s.queue[k..] && d.started == s.started + s.queue[..k])
    && s.slots <= d.slots
    && (d.slots != s.slots ==> forall w :: w in d.slots ==> Busy(d, w))
    && (d.queue != [] ==> |d.slots| >= d.size && forall w :: w in d.slots ==> Busy(d, w))
    && (forall w :: w in s.threads ==> w in d.threads)
    && (forall w :: w in s.threads && (Busy(s, w) || w !in s.slots) ==> d.threads[w] == s.threads[w])
    && (forall w :: w in d.threads && w !in s.threads ==> w in d.slots)
    && (forall w :: w in s.threads && !Busy(d, w) ==> d.threads[w] == s.threads[w])
  }

  lemma {:induction false} DispatchDoes(s: State)
    requires SlotsOk(s) && !s.closed
    ensures Round(s, Dispatched(s))
    decreases |s.queue|
  {
    if s.queue != [] {
      var i := FirstFree(s.slots, s.threads);
      if i < |s.slots| {
        AssignKeepsSlots(s, s.slots[i]);
        var n := Assigned(s, s.slots[i]);
        DispatchDoes(n);
        hide SlotsOk, Dispatched, FirstFree;
        RoundAfterAssign(s, n, Dispatched(n), s.slots[i]);
      } else if |s.slots| < s.size {
        SpawnKeepsSlots(s);
        AssignKeepsSlots(Spawned(s), s.nextWorker);
        var n := Assigned(Spawned(s), s.nextWorker);
        DispatchDoes(n);
        AllAreBusy(s);
        hide SlotsOk, Dispatched, FirstFree;
        RoundAfterSpawn(s, n, Dispatched(n));
      } else {
        AllAreBusy(s);
      }
    }
  }

  lemma AllAreBusy(s: State)
    requires SlotsOk(s) && FirstFree(s.slots, s.threads) == |s.slots|
    ensures forall w :: w in s.slots ==> Busy(s, w)
  {
    forall w | w in s.slots ensures Busy(s, w) {
      var j :| 0 <= j < |s.slots| && s.slots[j] == w;
      assert !Free(s.threads, s.slots[j]);
    }
  }

  lemma OneTaskMore(s: State, n: State, d: State)
    requires s.queue != [] && n.queue == s.queue[1..] && n.started == s.started + [s.queue[0]]
    requires |d.queue| <= |n.queue|
    requires var k := |n.queue| - |d.queue|; d.queue == n.queue[k..] && d.started == n.started + n.queue[..k]
    ensures var k := |s.queue| - |d.queue|; d.queue == s.queue[k..] && d.started == s.started + s.queue[..k]
  {
    var k := |n.queue| - |d.queue|;
    assert s.queue[1..][k..] == s.queue[k + 1..];
    assert s.queue[..k + 1] == [s.queue[0]] + s.queue[1..][..k];
  }

  lemma RoundAfterAssign(s: State, n: State, d: State, w: WorkerId)
    requires s.queue != [] && w in s.slots && w in s.threads && !Busy(s, w)
    requires n == Assigned(s, w) && Round(n, d)
    ensures Round(s, d)
  {
    OneTaskMore(s, n, d);
    assert Busy(n, w);
    assert forall v :: v in s.threads && v != w ==> n.threads[v] == s.threads[v];
  }

  lemma RoundAfterSpawn(s: State, n: State, d: State)
    requires s.queue != [] && s.nextWorker !in s.threads && forall w :: w in s.slots ==> Busy(s, w)
    requires n == Assigned(Spawned(s), s.nextWorker) && Round(n, d)
    ensures Round(s, d)
  {
    OneTaskMore(s, n, d);
    var w' := s.nextWorker;
    assert n.slots[|s.slots|] == w' && d.slots[|s.slots|] == w';
    assert Busy(n, w') && Busy(d, w');
    assert s.slots <= d.slots;
    assert forall v :: v in s.threads ==> v in n.threads && n.threads[v] == s.threads[v];
    forall w | w in d.slots
      ensures Busy(d, w)
    {
      if d.slots == n.slots {
        assert w in s.slots || w == w';
        assert Busy(n, w);
      }
    }
    forall w | w in d.threads && w !in s.threads
      ensures w in d.slots
    {
      assert w in n.threads ==> w == w';
    }
    forall w | w in s.threads && (Busy(s, w) || w !in s.slots)
      ensures d.threads[w] == s.threads[w]
    {
      assert w != w' && (Busy(n, w) || w !in n.slots);
    }
  }

  /** While open, the idle timer runs exactly on the threads that have a slot and no task. */
  ghost predicate TimersOk(s: State) {
    !s.closed ==> forall w :: w in s.threads ==>
      (s.threads[w].idleTimer <==> w in s.slots && s.threads[w].current.None?)
  }

  lemma AssignKeepsTimers(s: State, w: WorkerId)
    requires s.queue != [] && w in s.slots
    requires !s.closed ==> forall v :: v in s.threads && v != w ==>
      (s.threads[v].idleTimer <==> v in s.slots && s.threads[v].current.None?)
    ensures TimersOk(Assigned(s, w))
  {
  }

  lemma {:induction false} DispatchKeepsTimers(s: State)
    requires TimersOk(s) && SlotsOk(s) && !s.closed
    ensures TimersOk(Dispatched(s))
    decreases |s.queue|
  {
    if s.queue != [] {
      var i := FirstFree(s.slots, s.threads);
      if i < |s.slots| {
        AssignKeepsSlots(s, s.slots[i]);
        AssignKeepsTimers(s, s.slots[i]);
        DispatchKeepsTimers(Assigned(s, s.slots[i]));
      } else if |s.slots| < s.size {
        SpawnKeepsSlots(s);
        AssignKeepsSlots(Spawned(s), s.nextWorker);
        AssignKeepsTimers(Spawned(s), s.nextWorker);
        DispatchKeepsTimers(Assigned(Spawned(s), s.nextWorker));
      }
    }
  }

  lemma StepKeepsTimers(s: State, e: Event)
    requires Inv(s) && TimersOk(s)
    ensures TimersOk(Step(s, e))
  {
    hide NoneLost, SettledOnce, RunningOnce, Fifo, Dispatched, Without;
    match e
    case Run =>
      if !s.closed {
        DispatchKeepsTimers(s.(queue := s.queue + [s.nextId], nextId := s.nextId + 1));
      }
    case Message(w, id, ok) =>
      if w in s.threads && s.threads[w].current == Some(id) && !s.closed {
        ReplyKeepsSlots(s, w, id, ok);
        DispatchKeepsTimers(Replied(s, w, id, ok));
      } else if s.closed {
        ClosedDispatches(Replied(s, w, id, ok));
      }
    case Exit(w) =>
      if w in s.threads && !s.closed {
        WithoutOf(s.slots, w);
        ExitKeepsSlots(s, w);
        DispatchKeepsTimers(Exited(s, w));
      }
    case IdleTimer(w) => WithoutOf(s.slots, w);
    case Close =>
  }

  lemma {:induction false} ClosedDispatches(s: State)
    ensures Dispatched(s).closed == s.closed
    decreases |s.queue|
  {
    if s.queue != [] {
      var i := FirstFree(s.slots, s.threads);
      if i < |s.slots| {
        ClosedDispatches(Assigned(s, s.slots[i]));
      } else if |s.slots| < s.size {
        ClosedDispatches(Assigned(Spawned(s), s.nextWorker));
      }
    }
  }

  lemma {:induction false} AlwaysTimed(size: nat, es: seq<Event>)
    requires size >= 1
    ensures TimersOk(After(Init(size), es))
  {
    hide Inv, Step, TimersOk;
    if es == [] {
      assert TimersOk(Init(size)) by {
        NoTimers(size);
      }
    } else {
      AlwaysTimed(size, es[..|es| - 1]);
      AlwaysAccountedFor(size, es[..|es| - 1]);
      StepKeepsTimers(After(Init(size), es[..|es| - 1]), es[|es| - 1]);
    }
  }

  lemma NoTimers(size: nat)
    ensures TimersOk(Init(size))
  {
  }

  /**
   * What each event does. A call queues its task under the next number; a reply ends the task its
   * thread runs, a crash that of its thread, which is forgotten; each is followed by a round. An
   * idle timer gives up an idle thread's slot; closing ends what waits and gives up every slot.
   * Anything else changes nothing.
   */
  lemma EventsDo(s: State, e: Event)
    requires Inv(s) && TimersOk(s)
    ensures var d := Step(s, e);
      match e
      case Run =>
        if s.closed then d == s else Round(s.(queue := s.queue + [s.nextId], nextId := s.nextId + 1), d)
      case Message(w, id, ok) =>
        if !(w in s.threads && s.threads[w].current == Some(id)) then d == s
        else if s.closed then d == Replied(s, w, id, ok)
        else Round(Replied(s, w, id, ok), d)
      case Exit(w) =>
        if w !in s.threads then d == s
        else
          exists t: State :: ExitsTo(s, w, t) && (if s.closed then d == t else Round(t, d))
      case IdleTimer(w) =>
        && d.threads.Keys == s.threads.Keys
        && (forall v :: v in s.threads ==> d.threads[v].current == s.threads[v].current)
        && d.queue == s.queue && d.settled == s.settled && d.started == s.started && d.endings == s.endings
        && (!s.closed ==> forall v ::
              v in d.slots <==> v in s.slots && !(v == w && s.threads[w].current.None?))
      case Close =>
        && d.closed && d.slots == [] && d.queue == [] && d.settled == s.settled + s.queue
        && d.threads.Keys == s.threads.Keys
        && (forall v :: v in s.threads ==> d.threads[v].current == s.threads[v].current)
        && (forall id: TaskId :: id in s.queue ==> id in d.endings && d.endings[id] == PoolClosed)
        && (forall id: TaskId :: id !in s.queue ==> (id in d.endings <==> id in s.endings))
        && (forall id: TaskId :: id !in s.queue && id in s.endings ==> d.endings[id] == s.endings[id])
  {
    hide NoneLost, SettledOnce, RunningOnce, Dispatched, Without, Round;
    match e
    case Run =>
      if !s.closed {
        DispatchDoes(s.(queue := s.queue + [s.nextId], nextId := s.nextId + 1));
      }
    case Message(w, id, ok) =>
      if w in s.threads && s.threads[w].current == Some(id) {
        if s.closed {
          EmptyDispatch(Replied(s, w, id, ok));
        } else {
          ReplyKeepsSlots(s, w, id, ok);
          DispatchDoes(Replied(s, w, id, ok));
        }
      }
    case Exit(w) =>
      if w in s.threads {
        WithoutOf(s.slots, w);
        assert ExitsTo(s, w, Exited(s, w));
        if !s.closed {
          ExitKeepsSlots(s, w);
          DispatchDoes(Exited(s, w));
        }
      }
    case IdleTimer(w) => WithoutOf(s.slots, w);
    case Close => RefusedAre(s.endings, s.queue);
  }

  /** The thread is gone with its slot, and the task it was running, if any, has crashed. */
  ghost predicate ExitsTo(s: State, w: WorkerId, t: State)
    requires w in s.threads
  {
    var task := s.threads[w].current;
    && t == s.(slots := t.slots, threads := s.threads - {w}, settled := t.settled, endings := t.endings)
    && (forall v :: v in t.slots <==> v in s.slots && v != w)
    && t.settled == (if task.Some? then s.settled + [task.value] else s.settled)
    && t.endings == (if task.Some? then s.endings[task.value := Crashed] else s.endings)
  }

  lemma EmptyDispatch(s: State)
    ensures s.queue == [] ==> Dispatched(s) == s
  {
  }

  lemma {:induction false} RefusedAre(endings: map<TaskId, Ending>, queue: seq<TaskId>)
    ensures var d := Refused(endings, queue);
      && (forall id: TaskId :: id in queue ==> id in d && d[id] == PoolClosed)
      && (forall id: TaskId :: id !in queue ==> (id in d <==> id in endings))
      && (forall id: TaskId :: id !in queue && id in endings ==> d[id] == endings[id])
    decreases |queue|
  {
    if queue != [] {
      RefusedAre(endings[queue[0] := PoolClosed], queue[1..]);
      assert queue == [queue[0]] + queue[1..];
    }
  }

  /** Settled, and started, for good: later events only extend both records. */
  lemma {:induction false} RecordsGrow(s: State, es: seq<Event>)
    ensures s.settled <= After(s, es).settled && s.started <= After(s, es).started
  {
    if es != [] {
      RecordsGrow(s, es[..|es| - 1]);
      StepGrows(After(s, es[..|es| - 1]), es[|es| - 1]);
    }
  }

  lemma StepGrows(s: State, e: Event)
    ensures s.settled <= Step(s, e).settled && s.started <= Step(s, e).started
  {
    match e
    case Run => DispatchGrows(s.(queue := s.queue + [s.nextId], nextId := s.nextId + 1));
    case Message(w, id, ok) => DispatchGrows(Replied(s, w, id, ok));
    case Exit(w) => if w in s.threads { DispatchGrows(Exited(s, w)); }
    case IdleTimer(w) =>
    case Close =>
  }

  lemma {:induction false} DispatchGrows(s: State)
    ensures Dispatched(s).settled == s.settled && s.started <= Dispatched(s).started
    decreases |s.queue|
  {
    if s.queue != [] {
      var i := FirstFree(s.slots, s.threads);
      if i < |s.slots| {
        DispatchGrows(Assigned(s, s.slots[i]));
      } else if |s.slots| < s.size {
        DispatchGrows(Assigned(Spawned(s), s.nextWorker));
      }
    }
  }
}
