/**
 * The process-wide priority semaphore: at most `capacity` permits, waiters served interactive
 * before bulk with aging. The class updates its fields as the source does; `State` and `Step` are
 * its specification, over which the fairness results are proved.
 */
module Semaphore {
  import opened Prelude
  import opened WaiterQueue

  datatype Arrival = Arrival(priority: Priority, at: real)

  datatype Reason = Cancelled | Deadline

  datatype Outcome = Granted(permit: nat) | Refused(reason: Reason)

  datatype Acquisition = Immediate(outcome: Outcome) | Queued(seqNo: nat)

  /** `permits[p]` is true while permit `p` is held; `outcomes` records how each waiter settled. */
  datatype State = State(
    capacity: int,
    agingMs: real,
    inUse: int,
    seqNo: nat,
    queue: seq<Waiter<Arrival>>,
    permits: seq<bool>,
    outcomes: map<nat, Outcome>)

  datatype Event =
    | Acquire(priority: Priority, at: real, aborted: bool, deadlineMs: Option<real>)
    | Release(permit: nat)
    | Leave(seqNo: nat, reason: Reason)
    | SetCapacity(n: int)

  // ----- Specification -----

  /** One permit handed out. */
  function Permitted(s: State): State {
    s.(inUse := s.inUse + 1, permits := s.permits + [true])
  }

  /** The state with permit `p` handed back, before the round of grants. */
  function Returned(s: State, p: nat): State
    requires p < |s.permits|
  {
    s.(permits := s.permits[p := false], inUse := s.inUse - 1)
  }

  function ServeHead(s: State): State
    requires s.queue != []
  {
    var i := HeadIndex(s.queue);
    Permitted(s).(queue := Without(s.queue, i),
                  outcomes := s.outcomes[s.queue[i].seqNo := Granted(|s.permits|)])
  }

  function Dispatched(s: State): State
    decreases |s.queue|
  {
    if s.inUse < s.capacity && s.queue != [] then Dispatched(ServeHead(s)) else s
  }

  /** Whether the deadline has passed at `at`. */
  predicate Expired(deadlineMs: Option<real>, at: real) {
    deadlineMs.Some? && deadlineMs.value <= at
  }

  function Enqueued(s: State, priority: Priority, at: real): State {
    var w := Waiter(WaiterOrderKey(priority, at, s.agingMs), s.seqNo + 1, Arrival(priority, at));
    s.(seqNo := s.seqNo + 1, queue := s.queue + [w])
  }

  function Step(s: State, e: Event): State {
    match e
    case Acquire(priority, at, aborted, deadlineMs) =>
      if aborted || Expired(deadlineMs, at) then s
      else if s.inUse < s.capacity && s.queue == [] then Permitted(s)
      else Enqueued(s, priority, at)
    case Release(p) =>
      if p < |s.permits| && s.permits[p] then
        Dispatched(Returned(s, p))
      else s
    case Leave(n, reason) =>
      var i := Find(s.queue, n);
      if i < |s.queue| then
        s.(queue := Without(s.queue, i), outcomes := s.outcomes[n := Refused(reason)])
      else s
    case SetCapacity(n) =>
      if n < 1 then s else Dispatched(s.(capacity := n))
  }

  function Run(s: State, es: seq<Event>): State {
    if es == [] then s else Step(Run(s, es[..|es| - 1]), es[|es| - 1])
  }

  function Init(capacity: int, agingMs: real): State {
    State(capacity, agingMs, 0, 0, [], [], map[])
  }

  // ----- The class -----

  class PrioritySemaphore {
    var capacity: int
    const agingMs: real
    var inUse: int
    var seqNo: nat
    var queue: seq<Waiter<Arrival>>
    var permits: seq<bool>
    var outcomes: map<nat, Outcome>

    ghost function Abs(): State
      reads this
    {
      State(capacity, agingMs, inUse, seqNo, queue, permits, outcomes)
    }

    constructor (n: int, aging: real)
      requires n >= 1
      ensures Abs() == Init(n, aging)
    {
      capacity, agingMs, inUse, seqNo, queue, permits, outcomes := n, aging, 0, 0, [], [], map[];
    }

    method Permit() returns (p: nat)
      modifies this
      ensures Abs() == Permitted(old(Abs())) && p == |old(permits)|
    {
      p := |permits|;
      inUse := inUse + 1;
      permits := permits + [true];
    }

    method Dispatch()
      modifies this
      ensures Abs() == Dispatched(old(Abs()))
    {
      while inUse < capacity && queue != []
        invariant Dispatched(Abs()) == Dispatched(old(Abs()))
        decreases |queue|
      {
        var best := FindHead(queue);
        var next := queue[best];
        queue := Without(queue, best);
        var p := Permit();
        outcomes := outcomes[next.seqNo := Granted(p)];
      }
    }

    method SetCapacity(n: int) returns (ok: bool)
      modifies this
      ensures ok == (n >= 1)
      ensures Abs() == Step(old(Abs()), Event.SetCapacity(n))
      ensures !ok ==> Abs() == old(Abs())
      ensures ok && old(Inv(Abs())) ==>
        capacity == n && ServesInOrder(old(Abs()).(capacity := n), Abs()) && WorkConserving(Abs())
    {
      ok := n >= 1;
      if ok {
        capacity := n;
        if Inv(Abs()) {
          DispatchServesInOrder(Abs());
        }
        Dispatch();
      }
    }

    method Acquire(priority: Priority, at: real, aborted: bool, deadlineMs: Option<real>)
      returns (r: Acquisition)
      modifies this
      ensures Abs() == Step(old(Abs()), Event.Acquire(priority, at, aborted, deadlineMs))
      ensures r == if aborted then Immediate(Refused(Cancelled))
                   else if deadlineMs.Some? && deadlineMs.value <= at then Immediate(Refused(Deadline))
                   else if old(inUse < capacity && queue == []) then Immediate(Granted(old(|permits|)))
                   else Queued(old(seqNo) + 1)
      ensures r.Immediate? && r.outcome.Refused? ==> Abs() == old(Abs())
      ensures r.Immediate? && r.outcome.Granted? ==>
        inUse == old(inUse) + 1 && permits == old(permits) + [true] && queue == old(queue) && seqNo == old(seqNo)
      ensures r.Queued? ==>
        && queue == old(queue)
                    + [Waiter(at + if priority == Bulk then agingMs else 0.0, r.seqNo, Arrival(priority, at))]
        && inUse == old(inUse) && permits == old(permits) && seqNo == r.seqNo
      ensures capacity == old(capacity) && outcomes == old(outcomes)
    {
      if aborted {
        return Immediate(Refused(Cancelled));
      }
      if deadlineMs.Some? && deadlineMs.value <= at {
        return Immediate(Refused(Deadline));
      }
      if inUse < capacity && |queue| == 0 {
        var p := Permit();
        return Immediate(Granted(p));
      }
      seqNo := seqNo + 1;
      queue := queue + [Waiter(WaiterOrderKey(priority, at, agingMs), seqNo, Arrival(priority, at))];
      r := Queued(seqNo);
    }

    /** The release handle of permit `p`; only its first call counts. */
    method Release(p: nat)
      modifies this
      ensures Abs() == Step(old(Abs()), Event.Release(p))
      ensures !old(p < |permits| && permits[p]) ==> Abs() == old(Abs())
      ensures old(p < |permits| && permits[p] && Inv(Abs())) ==>
        ServesInOrder(Returned(old(Abs()), p), Abs()) && WorkConserving(Abs())
      ensures old(p < |permits| && permits[p]) ==> p < |permits| && !permits[p]
    {
      if p < |permits| && permits[p] {
        ghost var s := Abs();
        permits := permits[p := false];
        inUse := inUse - 1;
        if Inv(s) {
          ReturnKeepsInv(s, p);
          DispatchServesInOrder(Abs());
        }
        GrantsKeepPermits(Abs());
        Dispatch();
      }
    }

    /** A waiter's abort signal or deadline timer. */
    method Leave(n: nat, reason: Reason)
      modifies this
      ensures Abs() == Step(old(Abs()), Event.Leave(n, reason))
      ensures (forall w :: w in old(queue) ==> w.seqNo != n) ==> Abs() == old(Abs())
      ensures old(Inv(Abs())) ==> forall w :: w in queue <==> w in old(queue) && w.seqNo != n
      ensures (exists w :: w in old(queue) && w.seqNo == n) ==> outcomes == old(outcomes)[n := Refused(reason)]
      ensures capacity == old(capacity) && inUse == old(inUse) && permits == old(permits) && seqNo == old(seqNo)
    {
      if Inv(Abs()) {
        DepartureIsOfOne(queue, n, seqNo);
      }
      var i := FindWaiter(queue, n);
      if i < |queue| {
        queue := Without(queue, i);
        outcomes := outcomes[n := Refused(reason)];
      }
    }
  }

  // ----- Invariant: work conservation -----

  function HeldPermits(permits: seq<bool>): nat {
    if permits == [] then 0
    else HeldPermits(permits[..|permits| - 1]) + if permits[|permits| - 1] then 1 else 0
  }

  lemma {:induction false} HeldAfterRelease(permits: seq<bool>, p: nat)
    requires p < |permits| && permits[p]
    ensures HeldPermits(permits[p := false]) == HeldPermits(permits) - 1
  {
    var n := |permits| - 1;
    if p < n {
      HeldAfterRelease(permits[..n], p);
      assert permits[p := false][..n] == permits[..n][p := false];
    } else {
      assert permits[p := false][..n] == permits[..n];
    }
  }

  ghost predicate Inv(s: State) {
    && s.capacity >= 1
    && s.inUse == HeldPermits(s.permits)
    && Arrivals(s.queue, s.seqNo)
    && (forall w :: w in s.queue ==> w.key == WaiterOrderKey(w.item.priority, w.item.at, s.agingMs))
  }

  /** A permit is never left idle while someone waits. */
  predicate WorkConserving(s: State) {
    s.queue != [] ==> s.inUse >= s.capacity
  }

  /** One grant: the head, before everyone it leaves waiting, gets the next permit. */
  lemma ServeHeadInOrder(s: State)
    requires Inv(s) && s.queue != []
    ensures var n, h := ServeHead(s), s.queue[HeadIndex(s.queue)];
      && Inv(n)
      && (forall w :: w in n.queue <==> w in s.queue && w != h)
      && (forall w :: w in n.queue ==> Before(h, w) && w.seqNo != h.seqNo)
  {
    var i := HeadIndex(s.queue);
    HeadIsFirst(s.queue, s.seqNo);
    WithoutKeepsArrivals(s.queue, i, s.seqNo);
    var n := ServeHead(s);
    assert n.permits[..|s.permits|] == s.permits;
    forall w | w in n.queue ensures Before(s.queue[i], w) {
      var j :| 0 <= j < |s.queue| && s.queue[j] == w;
    }
  }

  /**
   * What a round of grants does: it serves exactly as many as it removes, each on a fresh permit of
   * its own, handed out in the order of service; everyone it served precedes everyone it left
   * waiting, and nobody else's outcome or permit changes.
   */
  ghost predicate ServesInOrder(s: State, d: State) {
    && d.seqNo == s.seqNo && d.agingMs == s.agingMs && d.capacity == s.capacity
    && |d.permits| - |s.permits| == |s.queue| - |d.queue| == d.inUse - s.inUse >= 0
    && d.inUse <= MaxI(s.inUse, s.capacity)
    && (forall w :: w in d.queue ==> w in s.queue)
    && (forall v, w :: v in s.queue && v !in d.queue && w in d.queue ==> Before(v, w))
    && (forall v :: v in s.queue && v !in d.queue ==> GrantedIn(s, d, v))
    && (forall v, w :: v in s.queue && v !in d.queue && w in s.queue && w !in d.queue && Before(v, w) ==>
          d.outcomes[v.seqNo].permit < d.outcomes[w.seqNo].permit)
    && s.permits <= d.permits && (forall p :: |s.permits| <= p < |d.permits| ==> d.permits[p])
    && (forall n :: (forall v :: v in s.queue && v !in d.queue ==> v.seqNo != n) ==> SameOutcome(s, d, n))
  }

  /** `v` holds one of the permits handed out since `s`. */
  predicate GrantedIn(s: State, d: State, v: Waiter<Arrival>) {
    && v.seqNo in d.outcomes && d.outcomes[v.seqNo].Granted?
    && |s.permits| <= d.outcomes[v.seqNo].permit < |d.permits|
  }

  predicate SameOutcome(s: State, d: State, n: nat) {
    (n in s.outcomes <==> n in d.outcomes) && (n in s.outcomes ==> d.outcomes[n] == s.outcomes[n])
  }

  /** A round stops only when no permit is free or nobody waits. */
  lemma {:induction false} DispatchServesInOrder(s: State)
    requires Inv(s)
    ensures Inv(Dispatched(s)) && WorkConserving(Dispatched(s)) && ServesInOrder(s, Dispatched(s))
    decreases |s.queue|
  {
    hide Inv;
    if s.inUse < s.capacity && s.queue != [] {
      var n, h := ServeHead(s), s.queue[HeadIndex(s.queue)];
      ServeHeadInOrder(s);
      DispatchServesInOrder(n);
      ServedStayServed(n, h.seqNo);
      HeadThenRest(s, n, h, Dispatched(n));
    }
  }

  lemma HeadThenRest(s: State, n: State, h: Waiter<Arrival>, d: State)
    requires s.queue != [] && s.inUse < s.capacity && n == ServeHead(s) && h == s.queue[HeadIndex(s.queue)]
    requires forall w :: w in n.queue <==> w in s.queue && w != h
    requires forall w :: w in n.queue ==> Before(h, w) && w.seqNo != h.seqNo
    requires ServesInOrder(n, d)
    requires h.seqNo in d.outcomes && d.outcomes[h.seqNo] == n.outcomes[h.seqNo]
    ensures ServesInOrder(s, d)
  {
    assert forall w :: w in n.queue ==> !Before(w, h);
    assert !Before(h, h);
    hide Before;
    assert d.outcomes[h.seqNo] == Granted(|s.permits|) && GrantedIn(s, d, h);
    assert d.permits[|s.permits|] == n.permits[|s.permits|];
    forall v | v in s.queue && v !in d.queue
      ensures v == h || (v in n.queue && GrantedIn(n, d, v))
    {
    }
    forall k | forall v :: v in s.queue && v !in d.queue ==> v.seqNo != k
      ensures SameOutcome(s, d, k)
    {
      assert k != h.seqNo && SameOutcome(n, d, k);
    }
  }

  /** An outcome, once recorded, is only overwritten for a waiter still in the queue. */
  lemma {:induction false} ServedStayServed(s: State, n: nat)
    requires forall w :: w in s.queue ==> w.seqNo != n
    requires n in s.outcomes
    ensures n in Dispatched(s).outcomes && Dispatched(s).outcomes[n] == s.outcomes[n]
    decreases |s.queue|
  {
    if s.inUse < s.capacity && s.queue != [] {
      assert s.queue[HeadIndex(s.queue)] in s.queue;
      ServedStayServed(ServeHead(s), n);
    }
  }

  lemma {:induction false} GrantsKeepPermits(s: State)
    ensures s.permits <= Dispatched(s).permits
    decreases |s.queue|
  {
    if s.inUse < s.capacity && s.queue != [] {
      GrantsKeepPermits(ServeHead(s));
    }
  }

  /** Whoever has the number leaves, and nobody else. */
  lemma DepartureIsOfOne(q: seq<Waiter<Arrival>>, n: nat, last: nat)
    requires Arrivals(q, last)
    ensures var i := Find(q, n);
      i < |q| ==> forall w :: w in Without(q, i) <==> w in q && w.seqNo != n
  {
    var i := Find(q, n);
    if i < |q| {
      WithoutKeepsArrivals(q, i, last);
      assert forall j :: 0 <= j < |q| && q[j].seqNo == n ==> j == i;
    }
  }

  lemma DispatchKeepsInv(s: State)
    requires Inv(s)
    ensures Inv(Dispatched(s)) && WorkConserving(Dispatched(s))
    ensures Dispatched(s).capacity == s.capacity && Dispatched(s).inUse <= MaxI(s.inUse, s.capacity)
  {
    DispatchServesInOrder(s);
  }

  lemma ArrivalKeepsInv(s: State, priority: Priority, at: real)
    requires Inv(s)
    ensures Inv(Permitted(s)) && Inv(Enqueued(s, priority, at))
  {
    assert Permitted(s).permits[..|s.permits|] == s.permits;
  }

  lemma ReturnKeepsInv(s: State, p: nat)
    requires Inv(s) && p < |s.permits| && s.permits[p]
    ensures Inv(Returned(s, p))
  {
    HeldAfterRelease(s.permits, p);
  }

  /** The state without the waiter at `i`, whatever its recorded outcome. */
  lemma DepartureKeepsInv(s: State, i: nat, outcomes: map<nat, Outcome>)
    requires Inv(s) && i < |s.queue|
    ensures Inv(s.(queue := Without(s.queue, i), outcomes := outcomes))
  {
    WithoutKeepsArrivals(s.queue, i, s.seqNo);
  }

  lemma StepKeepsInv(s: State, e: Event)
    requires Inv(s) && WorkConserving(s)
    ensures Inv(Step(s, e)) && WorkConserving(Step(s, e))
    ensures Step(s, e).inUse <= MaxI(s.inUse, Step(s, e).capacity)
  {
    hide Dispatched, HeldPermits, Arrivals;
    match e
    case Acquire(priority, at, aborted, deadlineMs) =>
      ArrivalKeepsInv(s, priority, at);
    case Release(p) =>
      if p < |s.permits| && s.permits[p] {
        ReturnKeepsInv(s, p);
        DispatchKeepsInv(Returned(s, p));
      }
    case Leave(n, reason) =>
      var i := Find(s.queue, n);
      if i < |s.queue| {
        DepartureKeepsInv(s, i, s.outcomes[n := Refused(reason)]);
      }
    case SetCapacity(n) =>
      if n >= 1 {
        DispatchKeepsInv(s.(capacity := n));
      }
  }

  /** After every operation of every run: all permits are accounted for and none idles. */
  lemma {:induction false} AlwaysWorkConserving(capacity: int, agingMs: real, es: seq<Event>)
    requires capacity >= 1
    ensures var s := Run(Init(capacity, agingMs), es);
      Inv(s) && WorkConserving(s) && s.inUse == HeldPermits(s.permits)
  {
    if es != [] {
      AlwaysWorkConserving(capacity, agingMs, es[..|es| - 1]);
      StepKeepsInv(Run(Init(capacity, agingMs), es[..|es| - 1]), es[|es| - 1]);
    }
  }

  // ----- Interactive before bulk -----

  /** Interactive before bulk unless the bulk waiter has waited the aging allowance longer. */
  lemma PriorityOrder(s: State, v: Waiter<Arrival>, w: Waiter<Arrival>)
    requires Inv(s) && v in s.queue && w in s.queue
    ensures v.item.priority == Interactive && w.item.priority == Bulk ==>
      && (v.item.at < w.item.at + s.agingMs ==> Before(v, w))
      && (w.item.at + s.agingMs < v.item.at ==> Before(w, v))
    ensures v.item.priority == w.item.priority ==>
      (Before(v, w) <==> v.item.at < w.item.at || (v.item.at == w.item.at && v.seqNo < w.seqNo))
  {
    ServiceOrder(v, w, v.item.priority, v.item.at, w.item.priority, w.item.at, s.agingMs);
  }

  /** Whoever leaves the queue was granted a permit before whoever stays, or left of its own accord. */
  lemma StepServesInOrder(s: State, e: Event, v: Waiter<Arrival>, w: Waiter<Arrival>)
    requires Inv(s) && v in s.queue && w in s.queue
    requires v !in Step(s, e).queue && w in Step(s, e).queue && !(e.Leave? && e.seqNo == v.seqNo)
    ensures Before(v, w) && v.seqNo in Step(s, e).outcomes && Step(s, e).outcomes[v.seqNo].Granted?
  {
    match e
    case Acquire(priority, at, aborted, deadlineMs) =>
    case Release(p) =>
      if p < |s.permits| && s.permits[p] {
        ReturnKeepsInv(s, p);
        DispatchServesInOrder(Returned(s, p));
      }
    case Leave(n, reason) => DepartureIsOfOne(s.queue, n, s.seqNo);
    case SetCapacity(n) =>
      if n >= 1 {
        DispatchServesInOrder(s.(capacity := n));
      }
  }

  /**
   * In every run: no bulk waiter is served while an interactive one stays that came less than the
   * aging allowance after it, and none that came later than that goes before it.
   */
  lemma InteractiveGoesFirst(
    capacity: int, agingMs: real, es: seq<Event>, e: Event, v: Waiter<Arrival>, w: Waiter<Arrival>)
    requires capacity >= 1
    requires var s := Run(Init(capacity, agingMs), es); v in s.queue && w in s.queue
    requires v.item.priority == Interactive && w.item.priority == Bulk
    ensures var d := Step(Run(Init(capacity, agingMs), es), e);
      && (v.item.at < w.item.at + agingMs && v in d.queue ==>
            w in d.queue || (e.Leave? && e.seqNo == w.seqNo))
      && (w.item.at + agingMs < v.item.at && w in d.queue ==>
            v in d.queue || (e.Leave? && e.seqNo == v.seqNo))
  {
    var s := Run(Init(capacity, agingMs), es);
    AlwaysWorkConserving(capacity, agingMs, es);
    RunKeepsInv(Init(capacity, agingMs), es);
    PriorityOrder(s, v, w);
    var d := Step(s, e);
    if v in d.queue && w !in d.queue && !(e.Leave? && e.seqNo == w.seqNo) {
      StepServesInOrder(s, e, w, v);
    }
    if w in d.queue && v !in d.queue && !(e.Leave? && e.seqNo == v.seqNo) {
      StepServesInOrder(s, e, v, w);
    }
  }

  // ----- Bounded overtaking -----

  /** The waiters that will be served before `w`. */
  ghost function Ahead(s: State, w: Waiter<Arrival>): set<Waiter<Arrival>> {
    set v | v in s.queue && Before(v, w)
  }

  /** An interactive request made before the bulk waiter had aged. */
  predicate Early(e: Event, until: real) {
    e.Acquire? && e.priority == Interactive && e.at < until
  }

  function EarlyCount(es: seq<Event>, until: real): nat {
    if es == [] then 0
    else EarlyCount(es[..|es| - 1], until) + if Early(es[|es| - 1], until) then 1 else 0
  }

  predicate NotBefore(e: Event, t: real) {
    e.Acquire? ==> e.at >= t
  }

  /** Removing waiters other than `w` shrinks the set ahead of `w` by those that were ahead. */
  lemma AheadShrinks(s: State, d: State, w: Waiter<Arrival>)
    requires Inv(s) && Inv(d) && w in d.queue
    requires forall v :: v in d.queue ==> v in s.queue
    requires forall v :: v in s.queue && v !in d.queue ==> Before(v, w)
    ensures |Ahead(d, w)| + (|s.queue| - |d.queue|) == |Ahead(s, w)|
  {
    DistinctCount(s.queue, s.seqNo);
    DistinctCount(d.queue, d.seqNo);
    var gone := (set v | v in s.queue) - (set v | v in d.queue);
    assert (set v | v in s.queue) == (set v | v in d.queue) + gone;
    assert Ahead(s, w) == Ahead(d, w) + gone;
  }

  lemma {:induction false} DistinctCount(q: seq<Waiter<Arrival>>, last: nat)
    requires Arrivals(q, last)
    ensures |set v | v in q| == |q|
  {
    if q != [] {
      var n := |q| - 1;
      DistinctCount(q[..n], last);
      assert q == q[..n] + [q[n]];
      var fewer := set v | v in q[..n];
      assert q[n] !in fewer && (set v | v in q) == fewer + {q[n]};
    }
  }

  lemma ArrivalMovesBack(s: State, priority: Priority, at: real, w: Waiter<Arrival>)
    requires Inv(s) && w in s.queue && w.item.priority == Bulk && at >= w.item.at
    ensures var s' := Enqueued(s, priority, at);
      |Ahead(s', w)| <= |Ahead(s, w)|
                        + if priority == Interactive && at < w.item.at + s.agingMs then 1 else 0
  {
    var s' := Enqueued(s, priority, at);
    var v := s'.queue[|s.queue|];
    assert forall x :: x in s'.queue <==> x in s.queue || x == v;
    assert w.seqNo < v.seqNo;
    if Before(v, w) {
      assert Ahead(s', w) == Ahead(s, w) + {v};
    } else {
      assert Ahead(s', w) == Ahead(s, w);
    }
  }

  lemma GrantsShrinkAhead(s: State, w: Waiter<Arrival>)
    requires Inv(s) && w in Dispatched(s).queue
    ensures var d := Dispatched(s);
      |d.permits| - |s.permits| + |Ahead(d, w)| == |Ahead(s, w)|
  {
    DispatchServesInOrder(s);
    AheadShrinks(s, Dispatched(s), w);
  }

  /** A departure moves nobody back. */
  lemma DepartureShrinksAhead(s: State, i: nat, outcomes: map<nat, Outcome>, w: Waiter<Arrival>)
    requires Inv(s) && i < |s.queue|
    ensures |Ahead(s.(queue := Without(s.queue, i), outcomes := outcomes), w)| <= |Ahead(s, w)|
  {
    WithoutKeepsArrivals(s.queue, i, s.seqNo);
    SubsetCardinality(Ahead(s.(queue := Without(s.queue, i), outcomes := outcomes), w), Ahead(s, w));
  }

  /** One operation, seen by a waiting bulk waiter. */
  lemma OvertakingStep(s: State, e: Event, w: Waiter<Arrival>)
    requires Inv(s) && w in s.queue && w.item.priority == Bulk
    requires NotBefore(e, w.item.at)
    requires w in Step(s, e).queue
    ensures var s' := Step(s, e);
      |s'.permits| - |s.permits| + |Ahead(s', w)|
        <= |Ahead(s, w)| + if Early(e, w.item.at + s.agingMs) then 1 else 0
  {
    hide Dispatched, HeldPermits, Arrivals;
    match e
    case Acquire(priority, at, aborted, deadlineMs) =>
      if !aborted && !Expired(deadlineMs, at) {
        ArrivalMovesBack(s, priority, at, w);
      }
    case Release(p) =>
      if p < |s.permits| && s.permits[p] {
        ReturnKeepsInv(s, p);
        GrantsShrinkAhead(Returned(s, p), w);
        assert Ahead(Returned(s, p), w) == Ahead(s, w);
      }
    case Leave(n, reason) =>
      var i := Find(s.queue, n);
      if i < |s.queue| {
        DepartureShrinksAhead(s, i, s.outcomes[n := Refused(reason)], w);
      }
    case SetCapacity(n) =>
      if n >= 1 {
        var r := s.(capacity := n);
        GrantsShrinkAhead(r, w);
        assert Ahead(r, w) == Ahead(s, w);
      }
  }

  /** Waiters keep their place in line: one present now and after a run was there throughout. */
  lemma StillWaiting(s: State, e: Event, w: Waiter<Arrival>)
    requires Inv(s) && w in Step(s, e).queue && w.seqNo <= s.seqNo
    ensures w in s.queue && s.seqNo <= Step(s, e).seqNo && Step(s, e).agingMs == s.agingMs
  {
    match e
    case Acquire(priority, at, aborted, deadlineMs) =>
    case Release(p) =>
      if p < |s.permits| && s.permits[p] {
        ReturnKeepsInv(s, p);
        DispatchServesInOrder(Returned(s, p));
      }
    case Leave(n, reason) =>
    case SetCapacity(n) =>
      if n >= 1 {
        DispatchServesInOrder(s.(capacity := n));
      }
  }

  /**
   * Bounded overtaking. While a bulk waiter queued at time `a` still waits, the permits granted
   * plus the waiters still ahead of it never exceed those ahead at the start plus the interactive
   * requests made before `a + agingMs`. Cancellations and resizes included; once it has aged
   * nothing enters ahead of it, so every grant shrinks the set ahead.
   */
  lemma {:induction false} BoundedOvertaking(s: State, es: seq<Event>, w: Waiter<Arrival>)
    requires Inv(s) && WorkConserving(s) && w in s.queue && w.item.priority == Bulk
    requires forall e :: e in es ==> NotBefore(e, w.item.at)
    requires w in Run(s, es).queue
    ensures var r := Run(s, es);
      && |r.permits| - |s.permits| + |Ahead(r, w)|
           <= |Ahead(s, w)| + EarlyCount(es, w.item.at + s.agingMs)
      && Inv(r) && WorkConserving(r) && r.agingMs == s.agingMs && s.seqNo <= r.seqNo
  {
    if es != [] {
      var n := |es| - 1;
      var m := Run(s, es[..n]);
      RunKeepsInv(s, es[..n]);
      StillWaiting(m, es[n], w);
      BoundedOvertaking(s, es[..n], w);
      OvertakingStep(m, es[n], w);
      StepKeepsInv(m, es[n]);
    }
  }

  lemma {:induction false} RunKeepsInv(s: State, es: seq<Event>)
    requires Inv(s) && WorkConserving(s)
    ensures var r := Run(s, es);
      Inv(r) && WorkConserving(r) && s.seqNo <= r.seqNo && r.agingMs == s.agingMs
  {
    if es != [] {
      var n := |es| - 1;
      RunKeepsInv(s, es[..n]);
      var m := Run(s, es[..n]);
      StepKeepsInv(m, es[n]);
      SeqNoGrows(m, es[n]);
    }
  }

  lemma SeqNoGrows(s: State, e: Event)
    requires Inv(s)
    ensures s.seqNo <= Step(s, e).seqNo && Step(s, e).agingMs == s.agingMs
  {
    match e
    case Acquire(priority, at, aborted, deadlineMs) =>
    case Release(p) =>
      if p < |s.permits| && s.permits[p] {
        ReturnKeepsInv(s, p);
        DispatchServesInOrder(Returned(s, p));
      }
    case Leave(n, reason) =>
    case SetCapacity(n) =>
      if n >= 1 {
        DispatchServesInOrder(s.(capacity := n));
      }
  }
}
