/**
 * The two-bucket rate limiter: requests per minute and input tokens per second, refilled
 * continuously, slowed down and emptied by a 429 penalty, with refunds for attempts never sent.
 * Instants and quantities are reals; an event carries the instant at which it runs.
 */
module RateLimiter {
  import opened Prelude
  import opened WaiterQueue

  const MINUTE: real := 60000.0
  const SECOND: real := 1000.0

  datatype Config = Config(
    requestCapacity: real,
    tokenCapacity: real,
    penaltyFactor: real,
    penaltyMs: real,
    agingMs: real)
  {
    predicate Valid() {
      requestCapacity > 0.0 && tokenCapacity > 0.0 && 0.0 < penaltyFactor <= 1.0
    }
  }

  datatype Levels = Levels(requests: real, tokens: real)

  /** `None` stands for an instant before all others. */
  datatype Meter = Meter(
    levels: Levels,
    lastRefill: real,
    penaltyUntil: Option<real>,
    blockedUntil: Option<real>)

  // ----- One bucket -----

  function Fill(level: real, elapsed: real, cap: real, unit: real): real
    requires unit > 0.0
  {
    MinR(cap, level + elapsed * cap / unit)
  }

  function Wait(level: real, need: real, cap: real, unit: real): real
    requires cap > 0.0
  {
    if level >= need then 0.0 else (need - level) * unit / cap
  }

  lemma FillComposes(level: real, a: real, b: real, cap: real, unit: real)
    requires a >= 0.0 && b >= 0.0 && cap > 0.0 && unit > 0.0
    ensures Fill(Fill(level, a, cap, unit), b, cap, unit) == Fill(level, a + b, cap, unit)
  {
    assert (a + b) * cap / unit == a * cap / unit + b * cap / unit;
    assert b * cap / unit >= 0.0;
  }

  lemma Cancels(x: real, y: real)
    requires y != 0.0
    ensures x / y * y == x
  {
  }

  lemma ProductsOrder(a: real, b: real, c: real)
    requires c > 0.0
    ensures a >= b <==> a * c >= b * c
  {
  }

  /** x / y >= z, without the division. */
  lemma QuotientAtLeast(x: real, y: real, z: real)
    requires y > 0.0
    ensures x / y >= z <==> x >= z * y
  {
    Cancels(x, y);
    ProductsOrder(x / y, z, y);
  }

  /** z >= x / y, without the division. */
  lemma QuotientAtMost(x: real, y: real, z: real)
    requires y > 0.0
    ensures z >= x / y <==> z * y >= x
  {
    Cancels(x, y);
    ProductsOrder(z, x / y, y);
  }

  lemma NonNegativeProduct(a: real, b: real)
    requires a >= 0.0 && b >= 0.0
    ensures a * b >= 0.0
  {
  }

  /** A bucket covers a need exactly from its waiting time on. */
  lemma WaitIsExact(level: real, need: real, cap: real, unit: real, elapsed: real)
    requires elapsed >= 0.0 && need <= cap && cap > 0.0 && unit > 0.0
    ensures Fill(level, elapsed, cap, unit) >= need <==> elapsed >= Wait(level, need, cap, unit)
  {
    QuotientAtLeast(elapsed * cap, unit, need - level);
    if level < need {
      QuotientAtMost((need - level) * unit, cap, elapsed);
    } else {
      NonNegativeProduct(elapsed, cap);
      QuotientAtLeast(elapsed * cap, unit, 0.0);
    }
  }

  // ----- Both buckets -----

  predicate Pending(bound: Option<real>, t: real) {
    bound.Some? && t < bound.value
  }

  function NoEarlier(t: real, bound: Option<real>): real {
    if bound.Some? then MaxR(t, bound.value) else t
  }

  function Factor(c: Config, m: Meter, t: real): real {
    if Pending(m.penaltyUntil, t) then c.penaltyFactor else 1.0
  }

  /** The capacities (and rates) scaled by `f`. */
  function Caps(c: Config, f: real): Levels {
    Levels(c.requestCapacity * f, c.tokenCapacity * f)
  }

  lemma CapsFacts(c: Config, f: real)
    requires c.Valid() && 0.0 < f <= 1.0
    ensures 0.0 < Caps(c, f).requests <= c.requestCapacity
    ensures 0.0 < Caps(c, f).tokens <= c.tokenCapacity
    ensures Caps(c, 1.0) == Levels(c.requestCapacity, c.tokenCapacity)
  {
  }

  function Grown(c: Config, l: Levels, elapsed: real, f: real): Levels {
    Levels(Fill(l.requests, elapsed, Caps(c, f).requests, MINUTE),
           Fill(l.tokens, elapsed, Caps(c, f).tokens, SECOND))
  }

  function Refilled(c: Config, m: Meter, t: real): Meter {
    var from := m.lastRefill;
    var levels :=
      if m.penaltyUntil.Some? && from < m.penaltyUntil.value <= t then
        var p := m.penaltyUntil.value;
        Grown(c, Grown(c, m.levels, p - from, c.penaltyFactor), t - p, 1.0)
      else Grown(c, m.levels, MaxR(0.0, t - from), Factor(c, m, t));
    m.(levels := levels, lastRefill := MaxR(from, t))
  }

  function WaitFor(c: Config, l: Levels, need: real, f: real): real
    requires c.Valid() && f > 0.0
  {
    var Levels(capRequests, capTokens) := Caps(c, f);
    MaxR(Wait(l.requests, MinR(1.0, capRequests), capRequests, MINUTE),
         Wait(l.tokens, MinR(need, capTokens), capTokens, SECOND))
  }

  function ReadyAt(c: Config, m: Meter, need: real, t: real): real
    requires c.Valid()
  {
    var start := NoEarlier(t, m.blockedUntil);
    if Pending(m.penaltyUntil, t) then
      var p := m.penaltyUntil.value;
      var during := MaxR(start, t + WaitFor(c, m.levels, need, c.penaltyFactor));
      if during < p then during
      else
        var left := Grown(c, m.levels, p - t, c.penaltyFactor);
        MaxR(start, p + WaitFor(c, left, need, 1.0))
    else MaxR(start, t + WaitFor(c, m.levels, need, 1.0))
  }

  /** These levels cover one request of `need` tokens under the capacities scaled by `f`. */
  predicate Cover(c: Config, l: Levels, need: real, f: real) {
    && l.requests >= MinR(1.0, Caps(c, f).requests)
    && l.tokens >= MinR(need, Caps(c, f).tokens)
  }

  /** A request of `need` tokens would fit at `t`, the meter being refilled first. */
  predicate Fits(c: Config, m: Meter, need: real, t: real) {
    Cover(c, Refilled(c, m, t).levels, need, Factor(c, m, t))
  }

  /**
   * A request fits once the levels hold one request and its tokens, or are full where it asks for more
   * than a full bucket; before the end of a penalty the capacities are scaled by its factor.
   */
  lemma FitsMeans(c: Config, m: Meter, need: real, t: real)
    requires c.Valid()
    ensures var f := if m.penaltyUntil.Some? && t < m.penaltyUntil.value then c.penaltyFactor else 1.0;
      var l := Refilled(c, m, t).levels;
      Fits(c, m, need, t) <==>
      && (l.requests >= 1.0 || l.requests >= c.requestCapacity * f)
      && (l.tokens >= need || l.tokens >= c.tokenCapacity * f)
  {
    hide Refilled;
  }

  lemma GrownComposes(c: Config, l: Levels, a: real, b: real, f: real)
    requires c.Valid() && f > 0.0 && a >= 0.0 && b >= 0.0
    ensures Grown(c, Grown(c, l, a, f), b, f) == Grown(c, l, a + b, f)
  {
    FillComposes(l.requests, a, b, Caps(c, f).requests, MINUTE);
    FillComposes(l.tokens, a, b, Caps(c, f).tokens, SECOND);
  }

  /** Refilling on the way changes nothing: the levels at `t2` do not depend on who looked before. */
  lemma RefillIsPathIndependent(c: Config, m: Meter, t1: real, t2: real)
    requires c.Valid() && m.lastRefill <= t1 <= t2
    ensures Refilled(c, Refilled(c, m, t1), t2) == Refilled(c, m, t2)
  {
    var from := m.lastRefill;
    if m.penaltyUntil.Some? && from < m.penaltyUntil.value <= t2 {
      var p := m.penaltyUntil.value;
      if p <= t1 {
        GrownComposes(c, Grown(c, m.levels, p - from, c.penaltyFactor), t1 - p, t2 - t1, 1.0);
      } else {
        GrownComposes(c, m.levels, t1 - from, p - t1, c.penaltyFactor);
      }
    } else {
      GrownComposes(c, m.levels, t1 - from, t2 - t1, Factor(c, m, t2));
    }
  }

  lemma WaitForIsExact(c: Config, l: Levels, need: real, f: real, elapsed: real)
    requires c.Valid() && f > 0.0 && elapsed >= 0.0
    ensures Cover(c, Grown(c, l, elapsed, f), need, f) <==> elapsed >= WaitFor(c, l, need, f)
  {
    var Levels(capRequests, capTokens) := Caps(c, f);
    WaitIsExact(l.requests, MinR(1.0, capRequests), capRequests, MINUTE, elapsed);
    WaitIsExact(l.tokens, MinR(need, capTokens), capTokens, SECOND, elapsed);
  }

  lemma WaitForIsNonNegative(c: Config, l: Levels, need: real, f: real)
    requires c.Valid() && f > 0.0
    ensures WaitFor(c, l, need, f) >= 0.0
  {
    WaitForIsExact(c, l, need, f, 0.0);
    var cap := Caps(c, f).requests;
    if l.requests < MinR(1.0, cap) {
      assert (MinR(1.0, cap) - l.requests) * MINUTE / cap >= 0.0;
    }
  }

  /** When a request fits, said without `ReadyAt`: by the waiting time of the phase `u` lies in. */
  lemma FitsWhen(c: Config, m: Meter, need: real, t: real, u: real)
    requires c.Valid() && m.lastRefill == t <= u
    ensures Pending(m.penaltyUntil, u) ==>
      (Fits(c, m, need, u) <==> u >= t + WaitFor(c, m.levels, need, c.penaltyFactor))
    ensures Pending(m.penaltyUntil, t) && !Pending(m.penaltyUntil, u) ==>
      var p := m.penaltyUntil.value;
      (Fits(c, m, need, u) <==>
       u >= p + WaitFor(c, Grown(c, m.levels, p - t, c.penaltyFactor), need, 1.0))
    ensures !Pending(m.penaltyUntil, t) ==>
      (Fits(c, m, need, u) <==> u >= t + WaitFor(c, m.levels, need, 1.0))
  {
    if Pending(m.penaltyUntil, u) {
      WaitForIsExact(c, m.levels, need, c.penaltyFactor, u - t);
    } else if Pending(m.penaltyUntil, t) {
      var p := m.penaltyUntil.value;
      WaitForIsExact(c, Grown(c, m.levels, p - t, c.penaltyFactor), need, 1.0, u - p);
    } else {
      WaitForIsExact(c, m.levels, need, 1.0, u - t);
    }
  }

  /**
   * `ReadyAt` is the least instant, not before `t` nor before a server delay has passed, at which
   * the request fits; also when a penalty ends in between and the need jumps up.
   */
  lemma ReadyAtIsLeast(c: Config, m: Meter, need: real, t: real)
    requires c.Valid() && m.lastRefill == t
    ensures var r := ReadyAt(c, m, need, t);
      && NoEarlier(t, m.blockedUntil) <= r
      && Fits(c, m, need, r)
      && (forall u :: NoEarlier(t, m.blockedUntil) <= u < r ==> !Fits(c, m, need, u))
  {
    var r := ReadyAt(c, m, need, t);
    FitsWhen(c, m, need, t, r);
    if Pending(m.penaltyUntil, t) {
      var p := m.penaltyUntil.value;
      WaitForIsNonNegative(c, Grown(c, m.levels, p - t, c.penaltyFactor), need, 1.0);
    }
    forall u | NoEarlier(t, m.blockedUntil) <= u < r
      ensures !Fits(c, m, need, u)
    {
      FitsWhen(c, m, need, t, u);
    }
  }

  /** Ready now means exactly: no server delay is running and the levels cover the request. */
  lemma ReadyNow(c: Config, m: Meter, need: real, t: real)
    requires c.Valid() && m.lastRefill == t
    ensures ReadyAt(c, m, need, t) >= t
    ensures ReadyAt(c, m, need, t) <= t <==> !Pending(m.blockedUntil, t) && Fits(c, m, need, t)
  {
    ReadyAtIsLeast(c, m, need, t);
  }

  // ----- The limiter: specification -----

  datatype Request = Request(tokens: real, deadlineMs: Option<real>)

  /** What waits in the queue: the request, its class and when it came. */
  datatype Demand = Demand(tokens: real, deadlineMs: Option<real>, priority: Priority, at: real)

  datatype Reason = Cancelled | Deadline

  datatype Outcome = Granted(ticket: nat) | Refused(reason: Reason, retryAt: real)

  datatype Acquisition = InvalidTokens | Immediate(outcome: Outcome) | Queued(seqNo: nat)

  /** One debit and its refund handle: `generation` is the number of penalties before the debit. */
  datatype Ticket = Ticket(need: real, generation: nat, refunded: bool)

  /** `credited` totals what refunds actually put back. */
  datatype State = State(
    meter: Meter,
    penalties: nat,
    seqNo: nat,
    queue: seq<Waiter<Demand>>,
    tickets: seq<Ticket>,
    outcomes: map<nat, Outcome>,
    timer: Option<real>,
    credited: Levels)

  datatype Event =
    | Acquire(at: real, priority: Priority, request: Request, aborted: bool)
    | Refund(at: real, ticket: nat)
    | Penalize(at: real, retryAfterMs: Option<real>)
    | TimerFired(at: real)
    | Abort(at: real, seqNo: nat)
    | DeadlineFired(at: real, seqNo: nat)
    | Snapshot(at: real)

  function Init(c: Config, t0: real): State {
    State(Meter(Levels(c.requestCapacity, c.tokenCapacity), t0, None, None),
          0, 0, [], [], map[], None, Levels(0.0, 0.0))
  }

  function RefilledState(c: Config, s: State, t: real): State {
    s.(meter := Refilled(c, s.meter, t))
  }

  function Consumed(s: State, need: real): State {
    var l := s.meter.levels;
    s.(meter := s.meter.(levels := Levels(l.requests - 1.0, l.tokens - need)),
       tickets := s.tickets + [Ticket(need, s.penalties, false)])
  }

  function Left(s: State, i: nat, outcome: Outcome): State
    requires i < |s.queue|
  {
    s.(queue := Without(s.queue, i), outcomes := s.outcomes[s.queue[i].seqNo := outcome])
  }

  /** Serve the queue from its head while the head is ready or hopeless, then arm one timer. */
  function Served(c: Config, s: State, t: real): State
    requires c.Valid()
    decreases |s.queue|
  {
    if s.queue == [] then s
    else
      var i := HeadIndex(s.queue);
      var next := s.queue[i].item;
      var r := RefilledState(c, s, t);
      var ready := ReadyAt(c, r.meter, next.tokens, t);
      if next.deadlineMs.Some? && ready > next.deadlineMs.value then
        Served(c, Left(r, i, Refused(Deadline, Ceil(ready))), t)
      else if ready <= t then
        Served(c, Consumed(Left(r, i, Granted(|s.tickets|)), next.tokens), t)
      else r.(timer := Some(t + MaxR(1.0, Ceil(ready - t))))
  }

  function Scheduled(c: Config, s: State, t: real): State
    requires c.Valid()
  {
    Served(c, s.(timer := None), t)
  }

  function DemandOf(e: Event): Demand
    requires e.Acquire?
  {
    Demand(e.request.tokens, e.request.deadlineMs, e.priority, e.at)
  }

  function Enqueued(c: Config, s: State, e: Event): State
    requires e.Acquire?
  {
    var w := Waiter(WaiterOrderKey(e.priority, e.at, c.agingMs), s.seqNo + 1, DemandOf(e));
    s.(seqNo := s.seqNo + 1, queue := s.queue + [w])
  }

  function PaidBack(c: Config, s: State, ticket: nat, t: real): State
    requires ticket < |s.tickets|
  {
    var r := RefilledState(c, s, t);
    var l := r.meter.levels;
    var cap := Caps(c, Factor(c, r.meter, t));
    var back := Levels(MinR(cap.requests, l.requests + 1.0),
                       MinR(cap.tokens, l.tokens + s.tickets[ticket].need));
    r.(meter := r.meter.(levels := back),
       credited := Levels(s.credited.requests + back.requests - l.requests,
                          s.credited.tokens + back.tokens - l.tokens))
  }

  function ServerDelay(retryAfterMs: Option<real>): real {
    if retryAfterMs.Some? && retryAfterMs.value > 0.0 then retryAfterMs.value else 0.0
  }

  function Penalized(c: Config, s: State, retryAfterMs: Option<real>, t: real): State {
    var r := RefilledState(c, s, t);
    var delay := ServerDelay(retryAfterMs);
    var m := r.meter.(
      penaltyUntil := Some(NoEarlier(t + MaxR(c.penaltyMs, delay), r.meter.penaltyUntil)),
      blockedUntil := if delay > 0.0 then Some(NoEarlier(t + delay, r.meter.blockedUntil))
                      else r.meter.blockedUntil);
    var cap := Caps(c, Factor(c, m, t));
    r.(penalties := s.penalties + 1,
       meter := m.(levels := Levels(MinR(MinR(m.levels.requests, cap.requests), 0.0),
                                    MinR(m.levels.tokens, cap.tokens))))
  }

  function Acquired(c: Config, s: State, e: Event): State
    requires c.Valid() && e.Acquire?
  {
    if e.request.tokens < 0.0 || e.aborted then s
    else
      var r := RefilledState(c, s, e.at);
      if e.request.deadlineMs.Some? && e.request.deadlineMs.value <= e.at then r
      else if s.queue == [] && ReadyAt(c, r.meter, e.request.tokens, e.at) <= e.at then
        Consumed(r, e.request.tokens)
      else Scheduled(c, Enqueued(c, r, e), e.at)
  }

  /** What an acquisition is told at once. */
  function Told(c: Config, s: State, e: Event): Acquisition
    requires c.Valid() && e.Acquire?
  {
    if e.request.tokens < 0.0 then InvalidTokens
    else if e.aborted then Immediate(Refused(Cancelled, e.at))
    else
      var ready := ReadyAt(c, Refilled(c, s.meter, e.at), e.request.tokens, e.at);
      if e.request.deadlineMs.Some? && e.request.deadlineMs.value <= e.at then
        Immediate(Refused(Deadline, Ceil(ready)))
      else if s.queue == [] && ready <= e.at then Immediate(Granted(|s.tickets|))
      else Queued(s.seqNo + 1)
  }

  function Step(c: Config, s: State, e: Event): State
    requires c.Valid()
  {
    match e
    case Acquire(_, _, _, _) => Acquired(c, s, e)
    case Refund(t, ticket) =>
      if ticket >= |s.tickets| || s.tickets[ticket].refunded then s
      else
        var marked := s.(tickets := s.tickets[ticket := s.tickets[ticket].(refunded := true)]);
        if s.tickets[ticket].generation != s.penalties then marked
        else Scheduled(c, PaidBack(c, marked, ticket, t), t)
    case Penalize(t, retryAfterMs) => Scheduled(c, Penalized(c, s, retryAfterMs, t), t)
    case TimerFired(t) => Scheduled(c, s, t)
    case Abort(t, n) =>
      var i := Find(s.queue, n);
      if i < |s.queue| then Scheduled(c, Left(s, i, Refused(Cancelled, t)), t) else s
    case DeadlineFired(t, n) =>
      var i := Find(s.queue, n);
      if i < |s.queue| then
        var r := RefilledState(c, s, t);
        var retryAt := Ceil(MaxR(ReadyAt(c, r.meter, s.queue[i].item.tokens, t), t));
        Scheduled(c, Left(r, i, Refused(Deadline, retryAt)), t)
      else s
    case Snapshot(t) => RefilledState(c, s, t)
  }

  function Run(c: Config, s: State, es: seq<Event>): State
    requires c.Valid()
  {
    if es == [] then s else Step(c, Run(c, s, es[..|es| - 1]), es[|es| - 1])
  }

  /** The clock never runs backwards. */
  ghost predicate Chronological(c: Config, s: State, es: seq<Event>)
    requires c.Valid()
  {
    es != [] ==>
      var n := |es| - 1;
      && Chronological(c, s, es[..n])
      && Run(c, s, es[..n]).meter.lastRefill <= es[n].at
  }

  // ----- The limiter: class -----

  class Limiter {
    const c: Config
    var requests: real
    var tokens: real
    var lastRefill: real
    var penaltyUntil: Option<real>
    var blockedUntil: Option<real>
    var penalties: nat
    var seqNo: nat
    var queue: seq<Waiter<Demand>>
    var tickets: seq<Ticket>
    var outcomes: map<nat, Outcome>
    var timer: Option<real>
    ghost var credited: Levels

    ghost function MeterNow(): Meter
      reads this
    {
      Meter(Levels(requests, tokens), lastRefill, penaltyUntil, blockedUntil)
    }

    ghost function Abs(): State
      reads this
    {
      State(MeterNow(), penalties, seqNo, queue, tickets, outcomes, timer, credited)
    }

    constructor (config: Config, t0: real)
      requires config.Valid()
      ensures c == config && Abs() == Init(config, t0)
      ensures requests == config.requestCapacity && tokens == config.tokenCapacity && queue == [] && tickets == []
    {
      c := config;
      requests, tokens, lastRefill := config.requestCapacity, config.tokenCapacity, t0;
      penaltyUntil, blockedUntil, penalties, seqNo := None, None, 0, 0;
      queue, tickets, outcomes, timer, credited := [], [], map[], None, Levels(0.0, 0.0);
    }

    method Accrue(elapsed: real, f: real)
      modifies `requests, `tokens
      ensures Levels(requests, tokens) == Grown(c, old(Levels(requests, tokens)), elapsed, f)
    {
      var level := Grown(c, Levels(requests, tokens), elapsed, f);
      requests, tokens := level.requests, level.tokens;
    }

    method Refill(t: real)
      modifies `requests, `tokens, `lastRefill
      ensures Abs() == RefilledState(c, old(Abs()), t)
    {
      var from := lastRefill;
      lastRefill := MaxR(lastRefill, t);
      if penaltyUntil.Some? && from < penaltyUntil.value && penaltyUntil.value <= t {
        Accrue(penaltyUntil.value - from, c.penaltyFactor);
        Accrue(t - penaltyUntil.value, 1.0);
        return;
      }
      Accrue(MaxR(0.0, t - from),
             if penaltyUntil.Some? && t < penaltyUntil.value then c.penaltyFactor else 1.0);
    }

    method Ready(need: real, t: real) returns (r: real)
      requires c.Valid()
      ensures r == ReadyAt(c, MeterNow(), need, t)
    {
      r := ReadyAt(c, Meter(Levels(requests, tokens), lastRefill, penaltyUntil, blockedUntil), need, t);
    }

    method Consume(need: real) returns (ticket: nat)
      modifies `requests, `tokens, `tickets
      ensures Abs() == Consumed(old(Abs()), need) && ticket == old(|tickets|)
    {
      ticket := |tickets|;
      requests := requests - 1.0;
      tokens := tokens - need;
      tickets := tickets + [Ticket(need, penalties, false)];
    }

    method Remove(i: nat, outcome: Outcome)
      requires i < |queue|
      modifies `queue, `outcomes
      ensures Abs() == Left(old(Abs()), i, outcome) && |queue| < old(|queue|)
    {
      outcomes := outcomes[queue[i].seqNo := outcome];
      queue := Without(queue, i);
    }

    method Schedule(t: real)
      requires c.Valid()
      modifies this
      ensures Abs() == Scheduled(c, old(Abs()), t)
    {
      hide Refilled, ReadyAt, HeadIndex, Without, Ceil;
      timer := None;
      while queue != []
        invariant Served(c, Abs(), t) == Scheduled(c, old(Abs()), t)
        decreases |queue|
      {
        var i := FindHead(queue);
        var next := queue[i].item;
        Refill(t);
        var ready := Ready(next.tokens, t);
        if next.deadlineMs.Some? && ready > next.deadlineMs.value {
          Remove(i, Refused(Deadline, Ceil(ready)));
        } else if ready <= t {
          Remove(i, Granted(|tickets|));
          var _ := Consume(next.tokens);
        } else {
          timer := Some(t + MaxR(1.0, Ceil(ready - t)));
          return;
        }
      }
    }

    method Enqueue(e: Event)
      requires c.Valid() && e.Acquire?
      modifies this
      ensures Abs() == Scheduled(c, Enqueued(c, old(Abs()), e), e.at)
      ensures seqNo == old(seqNo) + 1
    {
      seqNo := seqNo + 1;
      var demand := Demand(e.request.tokens, e.request.deadlineMs, e.priority, e.at);
      queue := queue + [Waiter(WaiterOrderKey(e.priority, e.at, c.agingMs), seqNo, demand)];
      ServingKeepsSeqNo(c, Abs().(timer := None), e.at);
      Schedule(e.at);
    }

    method Acquire(e: Event) returns (r: Acquisition)
      requires c.Valid() && e.Acquire?
      modifies this
      ensures Abs() == Step(c, old(Abs()), e)
      ensures r == Told(c, old(Abs()), e)
      ensures r.Immediate? && r.outcome.Granted? ==> |tickets| == old(|tickets|) + 1
      ensures r.Immediate? && r.outcome.Refused? ==> tickets == old(tickets) && queue == old(queue)
      ensures r.Queued? ==> r.seqNo == seqNo
    {
      hide Refilled, ReadyAt, Served;
      if e.request.tokens < 0.0 {
        return InvalidTokens;
      }
      if e.aborted {
        return Immediate(Refused(Cancelled, e.at));
      }
      Refill(e.at);
      var ready := Ready(e.request.tokens, e.at);
      if e.request.deadlineMs.Some? && e.request.deadlineMs.value <= e.at {
        return Immediate(Refused(Deadline, Ceil(ready)));
      }
      if |queue| == 0 && ready <= e.at {
        var ticket := Consume(e.request.tokens);
        return Immediate(Granted(ticket));
      }
      Enqueue(e);
      r := Queued(seqNo);
    }

    method PayBack(ticket: nat, t: real)
      requires c.Valid() && ticket < |tickets|
      modifies this
      ensures Abs() == PaidBack(c, old(Abs()), ticket, t)
    {
      hide Refilled;
      Refill(t);
      var f := if penaltyUntil.Some? && t < penaltyUntil.value then c.penaltyFactor else 1.0;
      ghost var before := Levels(requests, tokens);
      var cap := Caps(c, f);
      requests := MinR(cap.requests, requests + 1.0);
      tokens := MinR(cap.tokens, tokens + tickets[ticket].need);
      credited := Levels(credited.requests + requests - before.requests,
                         credited.tokens + tokens - before.tokens);
    }

    method Refund(ticket: nat, t: real)
      requires c.Valid()
      modifies this
      ensures Abs() == Step(c, old(Abs()), Event.Refund(t, ticket))
    {
      hide PaidBack, Served;
      if ticket >= |tickets| || tickets[ticket].refunded {
        return;
      }
      tickets := tickets[ticket := tickets[ticket].(refunded := true)];
      if tickets[ticket].generation != penalties {
        return;
      }
      PayBack(ticket, t);
      Schedule(t);
    }

    method Lower(retryAfterMs: Option<real>, t: real)
      requires c.Valid()
      modifies this
      ensures Abs() == Penalized(c, old(Abs()), retryAfterMs, t)
    {
      hide Refilled;
      Refill(t);
      penalties := penalties + 1;
      var delay := if retryAfterMs.Some? && retryAfterMs.value > 0.0 then retryAfterMs.value else 0.0;
      penaltyUntil := Some(NoEarlier(t + MaxR(c.penaltyMs, delay), penaltyUntil));
      if delay > 0.0 {
        blockedUntil := Some(NoEarlier(t + delay, blockedUntil));
      }
      var f := if t < penaltyUntil.value then c.penaltyFactor else 1.0;
      var cap := Caps(c, f);
      requests := MinR(MinR(requests, cap.requests), 0.0);
      tokens := MinR(tokens, cap.tokens);
    }

    method Penalize(retryAfterMs: Option<real>, t: real)
      requires c.Valid()
      modifies this
      ensures Abs() == Step(c, old(Abs()), Event.Penalize(t, retryAfterMs))
    {
      Lower(retryAfterMs, t);
      Schedule(t);
    }

    method OnAbort(n: nat, t: real)
      requires c.Valid()
      modifies this
      ensures Abs() == Step(c, old(Abs()), Event.Abort(t, n))
    {
      var i := FindWaiter(queue, n);
      if i < |queue| {
        Remove(i, Refused(Cancelled, t));
        Schedule(t);
      }
    }

    method OnDeadline(n: nat, t: real)
      requires c.Valid()
      modifies this
      ensures Abs() == Step(c, old(Abs()), Event.DeadlineFired(t, n))
    {
      var i := FindWaiter(queue, n);
      if i < |queue| {
        Refill(t);
        var ready := Ready(queue[i].item.tokens, t);
        Remove(i, Refused(Deadline, Ceil(MaxR(ready, t))));
        Schedule(t);
      }
    }
  }

  // ----- Invariants over every run -----

  function TotalNeed(ts: seq<Ticket>): real {
    if ts == [] then 0.0 else TotalNeed(ts[..|ts| - 1]) + ts[|ts| - 1].need
  }

  function LargestNeed(ts: seq<Ticket>): real {
    if ts == [] then 0.0 else MaxR(LargestNeed(ts[..|ts| - 1]), ts[|ts| - 1].need)
  }

  /** A full bucket plus what accrues at the full rate. */
  function Allowance(cap: real, elapsed: real, unit: real): real
    requires unit > 0.0
  {
    cap + elapsed * cap / unit
  }

  /** The levels are within the capacities in force. */
  predicate WithinCaps(c: Config, m: Meter) {
    var cap := Caps(c, Factor(c, m, m.lastRefill));
    m.levels.requests <= cap.requests && m.levels.tokens <= cap.tokens
  }

  ghost predicate Inv(c: Config, s: State, t0: real) {
    && c.Valid()
    && t0 <= s.meter.lastRefill
    && WithinCaps(c, s.meter)
    && s.meter.levels.requests >= -1.0
    && s.meter.levels.tokens >= -LargestNeed(s.tickets)
    && LargestNeed(s.tickets) >= 0.0
    && s.meter.levels.requests + |s.tickets| as real - s.credited.requests
         <= Allowance(c.requestCapacity, s.meter.lastRefill - t0, MINUTE)
    && s.meter.levels.tokens + TotalNeed(s.tickets) - s.credited.tokens
         <= Allowance(c.tokenCapacity, s.meter.lastRefill - t0, SECOND)
    && (forall k :: 0 <= k < |s.tickets| ==>
          s.tickets[k].generation <= s.penalties && s.tickets[k].need >= 0.0)
    && Arrivals(s.queue, s.seqNo)
    && (forall w :: w in s.queue ==> w.item.tokens >= 0.0)
    && (forall w :: w in s.queue ==> w.key == WaiterOrderKey(w.item.priority, w.item.at, c.agingMs))
  }

  lemma {:induction false} ServingKeepsSeqNo(c: Config, s: State, t: real)
    requires c.Valid()
    ensures Served(c, s, t).seqNo == s.seqNo
    decreases |s.queue|
  {
    if s.queue != [] {
      var i := HeadIndex(s.queue);
      var next := s.queue[i].item;
      var r := RefilledState(c, s, t);
      var ready := ReadyAt(c, r.meter, next.tokens, t);
      if next.deadlineMs.Some? && ready > next.deadlineMs.value {
        ServingKeepsSeqNo(c, Left(r, i, Refused(Deadline, Ceil(ready))), t);
      } else if ready <= t {
        ServingKeepsSeqNo(c, Consumed(Left(r, i, Granted(|s.tickets|)), next.tokens), t);
      }
    }
  }

  lemma FillBounds(level: real, elapsed: real, cap: real, full: real, unit: real)
    requires level <= cap <= full && elapsed >= 0.0 && unit > 0.0 && cap > 0.0
    ensures level <= Fill(level, elapsed, cap, unit) <= cap
    ensures Fill(level, elapsed, cap, unit) <= level + elapsed * full / unit
  {
    assert 0.0 <= elapsed * cap <= elapsed * full;
    assert 0.0 <= elapsed * cap / unit <= elapsed * full / unit;
  }

  lemma GrownBounds(c: Config, l: Levels, elapsed: real, f: real)
    requires c.Valid() && elapsed >= 0.0 && 0.0 < f <= 1.0
    requires l.requests <= Caps(c, f).requests && l.tokens <= Caps(c, f).tokens
    ensures var g := Grown(c, l, elapsed, f);
      && l.requests <= g.requests <= Caps(c, f).requests
      && l.tokens <= g.tokens <= Caps(c, f).tokens
      && g.requests <= l.requests + elapsed * c.requestCapacity / MINUTE
      && g.tokens <= l.tokens + elapsed * c.tokenCapacity / SECOND
  {
    CapsFacts(c, f);
    hide Caps, Fill;
    FillBounds(l.requests, elapsed, Caps(c, f).requests, c.requestCapacity, MINUTE);
    FillBounds(l.tokens, elapsed, Caps(c, f).tokens, c.tokenCapacity, SECOND);
  }

  /** Growing through the end of a penalty. */
  lemma GrownAcrossBounds(c: Config, l: Levels, a: real, b: real)
    requires c.Valid() && a >= 0.0 && b >= 0.0
    requires l.requests <= Caps(c, c.penaltyFactor).requests
    requires l.tokens <= Caps(c, c.penaltyFactor).tokens
    ensures var g := Grown(c, Grown(c, l, a, c.penaltyFactor), b, 1.0);
      && l.requests <= g.requests <= Caps(c, 1.0).requests
      && l.tokens <= g.tokens <= Caps(c, 1.0).tokens
      && g.requests <= l.requests + (a + b) * c.requestCapacity / MINUTE
      && g.tokens <= l.tokens + (a + b) * c.tokenCapacity / SECOND
  {
    CapsFacts(c, c.penaltyFactor);
    hide Caps, Grown;
    GrownBounds(c, l, a, c.penaltyFactor);
    GrownBounds(c, Grown(c, l, a, c.penaltyFactor), b, 1.0);
    RatesAdd(a, b, c.requestCapacity, MINUTE);
    RatesAdd(a, b, c.tokenCapacity, SECOND);
  }

  /** Refilling raises the levels, by at most the full rate, and never past the capacity in force. */
  lemma RefillBounds(c: Config, m: Meter, t: real)
    requires c.Valid() && WithinCaps(c, m) && m.lastRefill <= t
    ensures var r := Refilled(c, m, t);
      && WithinCaps(c, r)
      && m.levels.requests <= r.levels.requests
           <= m.levels.requests + (t - m.lastRefill) * c.requestCapacity / MINUTE
      && m.levels.tokens <= r.levels.tokens
           <= m.levels.tokens + (t - m.lastRefill) * c.tokenCapacity / SECOND
  {
    hide Caps, Grown;
    var from := m.lastRefill;
    if m.penaltyUntil.Some? && from < m.penaltyUntil.value <= t {
      GrownAcrossBounds(c, m.levels, m.penaltyUntil.value - from, t - m.penaltyUntil.value);
    } else {
      GrownBounds(c, m.levels, t - from, Factor(c, m, t));
    }
  }

  lemma RatesAdd(a: real, b: real, cap: real, unit: real)
    requires unit > 0.0
    ensures (a + b) * cap / unit == a * cap / unit + b * cap / unit
  {
  }

  lemma RefillKeepsInv(c: Config, s: State, t0: real, t: real)
    requires Inv(c, s, t0) && s.meter.lastRefill <= t
    ensures Inv(c, RefilledState(c, s, t), t0) && RefilledState(c, s, t).meter.lastRefill == t
  {
    hide Refilled, Caps, Allowance;
    RefillBounds(c, s.meter, t);
    assert Refilled(c, s.meter, t).lastRefill == t by { RefillStamps(c, s.meter, t); }
    AllowanceGrows(c.requestCapacity, s.meter.lastRefill - t0, t - s.meter.lastRefill, MINUTE);
    AllowanceGrows(c.tokenCapacity, s.meter.lastRefill - t0, t - s.meter.lastRefill, SECOND);
  }

  lemma RefillStamps(c: Config, m: Meter, t: real)
    requires m.lastRefill <= t
    ensures Refilled(c, m, t).lastRefill == t
    ensures Refilled(c, m, t) == m.(levels := Refilled(c, m, t).levels, lastRefill := t)
  {
  }

  lemma AllowanceGrows(cap: real, a: real, b: real, unit: real)
    requires unit > 0.0
    ensures Allowance(cap, a + b, unit) == Allowance(cap, a, unit) + b * cap / unit
  {
    RatesAdd(a, b, cap, unit);
  }

  lemma ConsumeKeepsInv(c: Config, s: State, t0: real, need: real)
    requires Inv(c, s, t0) && need >= 0.0
    requires Cover(c, s.meter.levels, need, Factor(c, s.meter, s.meter.lastRefill))
    ensures Inv(c, Consumed(s, need), t0)
  {
    CapsFacts(c, Factor(c, s.meter, s.meter.lastRefill));
    NeedsAppend(s.tickets, Ticket(need, s.penalties, false));
    hide Caps, Allowance, TotalNeed, LargestNeed, Arrivals;
  }

  lemma NeedsAppend(ts: seq<Ticket>, t: Ticket)
    ensures TotalNeed(ts + [t]) == TotalNeed(ts) + t.need
    ensures LargestNeed(ts + [t]) == MaxR(LargestNeed(ts), t.need)
  {
    assert (ts + [t])[..|ts|] == ts;
  }

  lemma LeftKeepsInv(c: Config, s: State, t0: real, i: nat, o: Outcome)
    requires Inv(c, s, t0) && i < |s.queue|
    ensures Inv(c, Left(s, i, o), t0)
  {
    WithoutKeepsArrivals(s.queue, i, s.seqNo);
  }

  lemma NoTimePasses(c: Config, m: Meter, t: real)
    requires c.Valid() && WithinCaps(c, m) && m.lastRefill == t
    ensures Refilled(c, m, t) == m
  {
    hide Caps;
    assert 0.0 * Caps(c, Factor(c, m, t)).requests == 0.0;
    assert 0.0 * Caps(c, Factor(c, m, t)).tokens == 0.0;
  }

  /** At the instant of a grant, the levels cover the request. */
  lemma GrantIsCovered(c: Config, m: Meter, need: real, t: real)
    requires c.Valid() && m.lastRefill == t && ReadyAt(c, m, need, t) <= t && WithinCaps(c, m)
    ensures Cover(c, m.levels, need, Factor(c, m, t)) && !Pending(m.blockedUntil, t)
  {
    hide Refilled, ReadyAt, Caps;
    ReadyNow(c, m, need, t);
    NoTimePasses(c, m, t);
  }

  /** A round of service keeps the invariant, and leaves a timer armed for whoever still waits. */
  lemma {:induction false} ServiceKeepsInv(c: Config, s: State, t0: real, t: real)
    requires Inv(c, s, t0) && s.meter.lastRefill <= t
    ensures var d := Served(c, s, t);
      && Inv(c, d, t0)
      && d.meter.lastRefill <= t
      && (d.queue != [] ==>
            var next := d.queue[HeadIndex(d.queue)].item;
            var ready := ReadyAt(c, d.meter, next.tokens, t);
            && d.timer.Some? && t < ready <= d.timer.value < ready + 1.0
            && (next.deadlineMs.Some? ==> ready <= next.deadlineMs.value))
    decreases |s.queue|
  {
    hide Refilled, ReadyAt, Caps, Allowance, Cover, WithinCaps, TotalNeed, LargestNeed, Arrivals, Ceil;
    if s.queue != [] {
      var i := HeadIndex(s.queue);
      assert s.queue[i] in s.queue;
      var next := s.queue[i].item;
      var r := RefilledState(c, s, t);
      RefillKeepsInv(c, s, t0, t);
      var ready := ReadyAt(c, r.meter, next.tokens, t);
      if next.deadlineMs.Some? && ready > next.deadlineMs.value {
        LeftKeepsInv(c, r, t0, i, Refused(Deadline, Ceil(ready)));
        ServiceKeepsInv(c, Left(r, i, Refused(Deadline, Ceil(ready))), t0, t);
      } else if ready <= t {
        var l := Left(r, i, Granted(|s.tickets|));
        LeftKeepsInv(c, r, t0, i, Granted(|s.tickets|));
        GrantIsCovered(c, r.meter, next.tokens, t);
        ConsumeKeepsInv(c, l, t0, next.tokens);
        ServiceKeepsInv(c, Consumed(l, next.tokens), t0, t);
      } else {
        TimerFor(ready, t);
      }
    }
  }

  lemma TimerFor(ready: real, t: real)
    requires t < ready
    ensures ready <= t + MaxR(1.0, Ceil(ready - t)) < ready + 1.0
  {
  }

  lemma PaidBackKeepsInv(c: Config, s: State, t0: real, ticket: nat, t: real)
    requires Inv(c, s, t0) && ticket < |s.tickets| && s.meter.lastRefill <= t
    ensures Inv(c, PaidBack(c, s, ticket, t), t0)
    ensures PaidBack(c, s, ticket, t).meter.lastRefill == t
  {
    hide Refilled, Caps, Allowance, TotalNeed, LargestNeed;
    RefillKeepsInv(c, s, t0, t);
  }

  lemma PenaltyKeepsInv(c: Config, s: State, t0: real, retryAfterMs: Option<real>, t: real)
    requires Inv(c, s, t0) && s.meter.lastRefill <= t
    ensures Inv(c, Penalized(c, s, retryAfterMs, t), t0)
    ensures Penalized(c, s, retryAfterMs, t).meter.lastRefill == t
  {
    hide Refilled, Allowance, TotalNeed, LargestNeed;
    CapsFacts(c, c.penaltyFactor);
    hide Caps;
    RefillKeepsInv(c, s, t0, t);
  }

  lemma {:induction false} NeedsAfterMark(ts: seq<Ticket>, k: nat)
    requires k < |ts|
    ensures var m := ts[k := ts[k].(refunded := true)];
      TotalNeed(m) == TotalNeed(ts) && LargestNeed(m) == LargestNeed(ts)
  {
    var n := |ts| - 1;
    var m := ts[k := ts[k].(refunded := true)];
    if k < n {
      assert m[..n] == ts[..n][k := ts[k].(refunded := true)];
      NeedsAfterMark(ts[..n], k);
    } else {
      assert m[..n] == ts[..n];
    }
  }

  lemma RefundKeepsInv(c: Config, s: State, t0: real, k: nat, t: real)
    requires Inv(c, s, t0) && s.meter.lastRefill <= t
    ensures Inv(c, Step(c, s, Refund(t, k)), t0)
  {
    hide Refilled, ReadyAt, Served, PaidBack, Caps, Allowance, LargestNeed, TotalNeed;
    if k < |s.tickets| && !s.tickets[k].refunded {
      NeedsAfterMark(s.tickets, k);
      var marked := s.(tickets := s.tickets[k := s.tickets[k].(refunded := true)]);
      assert Inv(c, marked, t0);
      if s.tickets[k].generation == s.penalties {
        PaidBackKeepsInv(c, marked, t0, k, t);
        ServiceKeepsInv(c, PaidBack(c, marked, k, t).(timer := None), t0, t);
      }
    }
  }

  lemma StepKeepsInv(c: Config, s: State, t0: real, e: Event)
    requires Inv(c, s, t0) && s.meter.lastRefill <= e.at
    ensures Inv(c, Step(c, s, e), t0)
  {
    hide Refilled, ReadyAt, Served, PaidBack, Penalized, Caps, Allowance, LargestNeed, TotalNeed;
    match e
    case Acquire(t, priority, request, aborted) =>
      if request.tokens >= 0.0 && !aborted {
        AcquireKeepsInv(c, s, t0, e);
      }
    case Refund(t, k) =>
      RefundKeepsInv(c, s, t0, k, t);
    case Penalize(t, retryAfterMs) =>
      PenaltyKeepsInv(c, s, t0, retryAfterMs, t);
      ServiceKeepsInv(c, Penalized(c, s, retryAfterMs, t).(timer := None), t0, t);
    case TimerFired(t) =>
      ServiceKeepsInv(c, s.(timer := None), t0, t);
    case Abort(t, n) =>
      var i := Find(s.queue, n);
      if i < |s.queue| {
        LeftKeepsInv(c, s, t0, i, Refused(Cancelled, t));
        ServiceKeepsInv(c, Left(s, i, Refused(Cancelled, t)).(timer := None), t0, t);
      }
    case DeadlineFired(t, n) =>
      var i := Find(s.queue, n);
      if i < |s.queue| {
        RefillKeepsInv(c, s, t0, t);
        var r := RefilledState(c, s, t);
        var o := Refused(Deadline, Ceil(MaxR(ReadyAt(c, r.meter, s.queue[i].item.tokens, t), t)));
        LeftKeepsInv(c, r, t0, i, o);
        ServiceKeepsInv(c, Left(r, i, o).(timer := None), t0, t);
      }
    case Snapshot(t) =>
      RefillKeepsInv(c, s, t0, t);
  }

  lemma InvWithinCaps(c: Config, s: State, t0: real)
    requires Inv(c, s, t0)
    ensures WithinCaps(c, s.meter) && c.Valid()
  {
    hide WithinCaps;
  }

  lemma AcquireKeepsInv(c: Config, s: State, t0: real, e: Event)
    requires Inv(c, s, t0) && e.Acquire? && s.meter.lastRefill <= e.at && e.request.tokens >= 0.0
    ensures Inv(c, Acquired(c, s, e), t0)
  {
    hide Inv, Refilled, ReadyAt, Served, WithinCaps, Cover, Enqueued, Consumed;
    RefillKeepsInv(c, s, t0, e.at);
    var r := RefilledState(c, s, e.at);
    InvWithinCaps(c, r, t0);
    EnqueuedKeepsInv(c, r, t0, e);
    if ReadyAt(c, r.meter, e.request.tokens, e.at) <= e.at {
      GrantIsCovered(c, r.meter, e.request.tokens, e.at);
      ConsumeKeepsInv(c, r, t0, e.request.tokens);
    }
    ServiceKeepsInv(c, Enqueued(c, r, e).(timer := None), t0, e.at);
  }

  lemma EnqueuedKeepsInv(c: Config, s: State, t0: real, e: Event)
    requires Inv(c, s, t0) && e.Acquire? && e.request.tokens >= 0.0
    ensures Inv(c, Enqueued(c, s, e).(timer := None), t0)
    ensures Enqueued(c, s, e).meter == s.meter
  {
    hide WithinCaps, Allowance, TotalNeed, LargestNeed;
  }

  /** Every run: the refilled levels stay within the capacity in force, and so on. */
  lemma {:induction false} RunKeepsInv(c: Config, t0: real, es: seq<Event>)
    requires c.Valid() && Chronological(c, Init(c, t0), es)
    ensures Inv(c, Run(c, Init(c, t0), es), t0)
  {
    if es == [] {
      CapsFacts(c, 1.0);
      assert 0.0 * c.requestCapacity / MINUTE == 0.0 && 0.0 * c.tokenCapacity / SECOND == 0.0;
    } else {
      RunKeepsInv(c, t0, es[..|es| - 1]);
      StepKeepsInv(c, Run(c, Init(c, t0), es[..|es| - 1]), t0, es[|es| - 1]);
    }
  }

  /**
   * The account limit over every run: what was acquired, less what refunds put back, is at most a
   * full bucket plus the full rate, plus the one request (or the largest need) of a debt.
   */
  lemma AccountLimit(c: Config, t0: real, es: seq<Event>)
    requires c.Valid() && Chronological(c, Init(c, t0), es)
    ensures var s := Run(c, Init(c, t0), es);
      var elapsed := s.meter.lastRefill - t0;
      && |s.tickets| as real - s.credited.requests
           <= c.requestCapacity * (1.0 + elapsed / MINUTE) + 1.0
      && TotalNeed(s.tickets) - s.credited.tokens
           <= c.tokenCapacity * (1.0 + elapsed / SECOND) + LargestNeed(s.tickets)
      && WithinCaps(c, s.meter)
  {
    hide Run;
    RunKeepsInv(c, t0, es);
    var elapsed := Run(c, Init(c, t0), es).meter.lastRefill - t0;
    AllowanceIsFullPlusRate(c.requestCapacity, elapsed, MINUTE);
    AllowanceIsFullPlusRate(c.tokenCapacity, elapsed, SECOND);
  }

  lemma AllowanceIsFullPlusRate(cap: real, elapsed: real, unit: real)
    requires unit > 0.0
    ensures Allowance(cap, elapsed, unit) == cap * (1.0 + elapsed / unit)
  {
    assert elapsed / unit * unit == elapsed;
    assert elapsed * cap / unit * unit == elapsed * cap;
  }

  // ----- Refunds and penalties -----

  /** Debits are never rewritten, and penalties only accumulate. */
  ghost predicate Extends(s: State, d: State) {
    && s.penalties <= d.penalties
    && |s.tickets| <= |d.tickets|
    && (forall k :: 0 <= k < |s.tickets| ==>
          && d.tickets[k].need == s.tickets[k].need
          && d.tickets[k].generation == s.tickets[k].generation
          && (s.tickets[k].refunded ==> d.tickets[k].refunded))
  }

  lemma {:induction false} ServiceExtends(c: Config, s: State, t: real)
    requires c.Valid()
    ensures Extends(s, Served(c, s, t)) && Served(c, s, t).penalties == s.penalties
    decreases |s.queue|
  {
    hide Refilled, ReadyAt, Caps, Allowance;
    if s.queue != [] {
      var i := HeadIndex(s.queue);
      var next := s.queue[i].item;
      var r := RefilledState(c, s, t);
      var ready := ReadyAt(c, r.meter, next.tokens, t);
      if next.deadlineMs.Some? && ready > next.deadlineMs.value {
        ServiceExtends(c, Left(r, i, Refused(Deadline, Ceil(ready))), t);
      } else if ready <= t {
        ServiceExtends(c, Consumed(Left(r, i, Granted(|s.tickets|)), next.tokens), t);
      }
    }
  }

  lemma StepExtends(c: Config, s: State, e: Event)
    requires c.Valid()
    ensures Extends(s, Step(c, s, e))
    ensures e.Penalize? ==> Step(c, s, e).penalties == s.penalties + 1
  {
    hide Refilled, ReadyAt, Served, Caps, Allowance;
    match e
    case Acquire(t, priority, request, aborted) =>
      ServiceExtends(c, Enqueued(c, RefilledState(c, s, t), e).(timer := None), t);
    case Refund(t, k) =>
      if k < |s.tickets| {
        var marked := s.(tickets := s.tickets[k := s.tickets[k].(refunded := true)]);
        ServiceExtends(c, PaidBack(c, marked, k, t).(timer := None), t);
      }
    case Penalize(t, retryAfterMs) =>
      ServiceExtends(c, Penalized(c, s, retryAfterMs, t).(timer := None), t);
    case TimerFired(t) =>
      ServiceExtends(c, s.(timer := None), t);
    case Abort(t, n) =>
      var i := Find(s.queue, n);
      if i < |s.queue| {
        ServiceExtends(c, Left(s, i, Refused(Cancelled, t)).(timer := None), t);
      }
    case DeadlineFired(t, n) =>
      var i := Find(s.queue, n);
      if i < |s.queue| {
        var r := RefilledState(c, s, t);
        var o := Refused(Deadline, Ceil(MaxR(ReadyAt(c, r.meter, s.queue[i].item.tokens, t), t)));
        ServiceExtends(c, Left(r, i, o).(timer := None), t);
      }
    case Snapshot(t) =>
  }

  lemma {:induction false} RunExtends(c: Config, s: State, es: seq<Event>)
    requires c.Valid()
    ensures Extends(s, Run(c, s, es))
    ensures (exists e :: e in es && e.Penalize?) ==> Run(c, s, es).penalties > s.penalties
  {
    if es != [] {
      var n := |es| - 1;
      RunExtends(c, s, es[..n]);
      StepExtends(c, Run(c, s, es[..n]), es[n]);
      assert es == es[..n] + [es[n]];
    }
  }

  /**
   * A debit made before a 429 can never raise a level after it: once a penalty has followed the
   * debit, however long ago, giving the debit back changes no level and wakes nobody.
   */
  lemma RefundNeverCrossesAPenalty(
    c: Config, t0: real, before: seq<Event>, after: seq<Event>, k: nat, t: real)
    requires c.Valid() && Chronological(c, Init(c, t0), before)
    requires k < |Run(c, Init(c, t0), before).tickets|
    requires exists e :: e in after && e.Penalize?
    ensures var s := Run(c, Run(c, Init(c, t0), before), after);
      var d := Step(c, s, Event.Refund(t, k));
      d == s.(tickets := d.tickets)
  {
    RunKeepsInv(c, t0, before);
    RunExtends(c, Run(c, Init(c, t0), before), after);
  }

  /** A refund handle works at most once, whatever happens between two calls. */
  lemma RefundsOnce(c: Config, s: State, k: nat, t: real, between: seq<Event>, u: real)
    requires c.Valid() && k < |s.tickets|
    ensures var r := Run(c, Step(c, s, Event.Refund(t, k)), between);
      Step(c, r, Event.Refund(u, k)) == r
  {
    hide Refilled, ReadyAt, Served, PaidBack;
    var marked := s.(tickets := s.tickets[k := s.tickets[k].(refunded := true)]);
    var paid := Step(c, s, Event.Refund(t, k));
    if !s.tickets[k].refunded && s.tickets[k].generation == s.penalties {
      PaidBackKeepsTickets(c, marked, k, t);
      ServiceExtends(c, PaidBack(c, marked, k, t).(timer := None), t);
    }
    assert k < |paid.tickets| && paid.tickets[k].refunded;
    RunExtends(c, paid, between);
  }

  lemma PaidBackKeepsTickets(c: Config, s: State, k: nat, t: real)
    requires k < |s.tickets|
    ensures PaidBack(c, s, k, t).tickets == s.tickets
  {
  }

  /** Giving a debit back at the instant it was taken restores the levels exactly. */
  lemma RefundUndoesDebit(c: Config, s: State, need: real, t: real)
    requires c.Valid() && WithinCaps(c, s.meter) && s.meter.lastRefill == t && need >= 0.0
    ensures PaidBack(c, Consumed(s, need), |s.tickets|, t).meter == s.meter
  {
    NoTimePasses(c, Consumed(s, need).meter, t);
    hide Refilled, Caps;
  }

  /**
   * A refund raises each level by its debit, or as far as the capacity in force allows, and credits
   * exactly what it raised.
   */
  lemma RefundCreditsWhatItRaises(c: Config, s: State, t0: real, k: nat, t: real)
    requires Inv(c, s, t0) && k < |s.tickets| && s.meter.lastRefill <= t
    ensures var l := Refilled(c, s.meter, t).levels;
      var p := PaidBack(c, s, k, t);
      && 0.0 <= p.meter.levels.requests - l.requests <= 1.0
      && 0.0 <= p.meter.levels.tokens - l.tokens <= s.tickets[k].need
      && p.credited.requests - s.credited.requests == p.meter.levels.requests - l.requests
      && p.credited.tokens - s.credited.tokens == p.meter.levels.tokens - l.tokens
      && (|| p.meter.levels.requests == l.requests + 1.0
          || p.meter.levels.requests == Caps(c, Factor(c, s.meter, t)).requests)
      && (p.meter.levels.tokens == l.tokens + s.tickets[k].need
          || p.meter.levels.tokens == Caps(c, Factor(c, s.meter, t)).tokens)
  {
    RefillKeepsInv(c, s, t0, t);
    RefillStamps(c, s.meter, t);
    hide Refilled, Caps, Allowance, TotalNeed, LargestNeed;
  }

  /**
   * A 429 holds every waiter: none is served at that instant, none before the server's delay has
   * passed, and until the penalty ends no level exceeds the penalized capacity. An earlier penalty
   * or delay is never shortened.
   */
  lemma PenaltyHoldsEveryone(c: Config, s: State, t0: real, retryAfterMs: Option<real>, t: real)
    requires Inv(c, s, t0) && s.meter.lastRefill <= t
    ensures var delay := ServerDelay(retryAfterMs);
      var m := Penalized(c, s, retryAfterMs, t).meter;
      && (forall need :: ReadyAt(c, m, need, t) > t && ReadyAt(c, m, need, t) >= t + delay)
      && (forall u :: t <= u < t + MaxR(c.penaltyMs, delay) ==>
            var l := Refilled(c, m, u).levels;
            l.requests <= Caps(c, c.penaltyFactor).requests
            && l.tokens <= Caps(c, c.penaltyFactor).tokens)
      && (forall u :: Pending(s.meter.penaltyUntil, u) ==> Pending(m.penaltyUntil, u))
      && (forall u :: Pending(s.meter.blockedUntil, u) ==> Pending(m.blockedUntil, u))
  {
    var m := Penalized(c, s, retryAfterMs, t).meter;
    var delay := ServerDelay(retryAfterMs);
    PenaltyKeepsInv(c, s, t0, retryAfterMs, t);
    PenaltyEmpties(c, s, t0, retryAfterMs, t);
    CapsFacts(c, c.penaltyFactor);
    hide Refilled, ReadyAt, Caps, Allowance, TotalNeed, LargestNeed, Penalized;
    forall need
      ensures ReadyAt(c, m, need, t) > t && ReadyAt(c, m, need, t) >= t + delay
    {
      ReadyAtIsLeast(c, m, need, t);
      NoTimePasses(c, m, t);
    }
    forall u | t <= u < t + MaxR(c.penaltyMs, delay)
      ensures var l := Refilled(c, m, u).levels;
        l.requests <= Caps(c, c.penaltyFactor).requests
        && l.tokens <= Caps(c, c.penaltyFactor).tokens
    {
      RefillBounds(c, m, u);
      RefillStamps(c, m, u);
    }
  }

  lemma PenaltyEmpties(c: Config, s: State, t0: real, retryAfterMs: Option<real>, t: real)
    requires Inv(c, s, t0) && s.meter.lastRefill <= t
    ensures var m := Penalized(c, s, retryAfterMs, t).meter;
      && m.levels.requests <= 0.0
      && NoEarlier(t, m.blockedUntil) >= t + ServerDelay(retryAfterMs)
      && (forall u :: u < t + MaxR(c.penaltyMs, ServerDelay(retryAfterMs)) ==> Pending(m.penaltyUntil, u))
      && (forall u :: Pending(s.meter.penaltyUntil, u) ==> Pending(m.penaltyUntil, u))
      && (forall u :: Pending(s.meter.blockedUntil, u) ==> Pending(m.blockedUntil, u))
  {
    RefillStamps(c, s.meter, t);
    hide Refilled, Caps, Allowance, TotalNeed, LargestNeed;
  }

  // ----- Service order -----

  /**
   * From `s` to `d` the queue was only served from its front: whoever left precedes whoever
   * stays and was told an outcome, and nobody was granted after its deadline.
   */
  ghost predicate ServedInOrder(s: State, d: State, t: real) {
    && Arrivals(d.queue, s.seqNo)
    && (forall w :: w in d.queue ==> w in s.queue)
    && (forall v, w :: v in s.queue && v !in d.queue && w in d.queue ==> Before(v, w))
    && (forall v :: v in s.queue && v !in d.queue ==> SettledInTime(d, v, t))
    && (forall n :: n in s.outcomes && (forall w :: w in s.queue ==> w.seqNo != n) ==>
          n in d.outcomes && d.outcomes[n] == s.outcomes[n])
  }

  predicate SettledInTime(d: State, v: Waiter<Demand>, t: real) {
    && v.seqNo in d.outcomes
    && (d.outcomes[v.seqNo].Granted? && v.item.deadlineMs.Some? ==> v.item.deadlineMs.value >= t)
  }

  /** Serving the head first and then serving in order is serving in order. */
  lemma OrderExtends(s: State, n: State, h: Waiter<Demand>, o: Outcome, d: State, t: real)
    requires h in s.queue && (forall w :: w in n.queue <==> w in s.queue && w != h)
    requires forall w :: w in s.queue && w != h ==> Before(h, w) && w.seqNo != h.seqNo
    requires n.outcomes == s.outcomes[h.seqNo := o] && n.seqNo == s.seqNo
    requires o.Granted? && h.item.deadlineMs.Some? ==> h.item.deadlineMs.value >= t
    requires ServedInOrder(n, d, t)
    ensures ServedInOrder(s, d, t)
  {
    hide Arrivals, Before;
    assert SettledInTime(d, h, t);
    forall v | v in s.queue && v !in d.queue
      ensures SettledInTime(d, v, t)
    {
      assert v != h ==> v in n.queue;
    }
    forall v, w | v in s.queue && v !in d.queue && w in d.queue
      ensures Before(v, w)
    {
      assert w in n.queue;
      assert v != h ==> v in n.queue;
    }
    forall k | k in s.outcomes && (forall w :: w in s.queue ==> w.seqNo != k)
      ensures k in d.outcomes && d.outcomes[k] == s.outcomes[k]
    {
      assert forall w :: w in n.queue ==> w.seqNo != k;
      assert k != h.seqNo;
    }
  }

  lemma HeadLeaves(q: seq<Waiter<Demand>>, last: nat)
    requires q != [] && Arrivals(q, last)
    ensures var i := HeadIndex(q);
      && (forall w :: w in Without(q, i) <==> w in q && w != q[i])
      && (forall w :: w in q && w != q[i] ==> Before(q[i], w) && w.seqNo != q[i].seqNo)
      && Arrivals(Without(q, i), last)
  {
    HeadIsFirst(q, last);
    WithoutKeepsArrivals(q, HeadIndex(q), last);
  }

  lemma {:induction false} ServiceInOrder(c: Config, s: State, t: real)
    requires c.Valid() && Arrivals(s.queue, s.seqNo) && s.meter.lastRefill <= t
    ensures ServedInOrder(s, Served(c, s, t), t)
    decreases |s.queue|
  {
    if s.queue != [] {
      var i := HeadIndex(s.queue);
      var next := s.queue[i].item;
      var r := RefilledState(c, s, t);
      var ready := ReadyAt(c, r.meter, next.tokens, t);
      RefillStamps(c, s.meter, t);
      ReadyNow(c, r.meter, next.tokens, t);
      HeadLeaves(s.queue, s.seqNo);
      hide Refilled, ReadyAt, HeadIndex, Without, Ceil, Caps, ServedInOrder, Arrivals, Before;
      if next.deadlineMs.Some? && ready > next.deadlineMs.value {
        var o := Refused(Deadline, Ceil(ready));
        ServiceInOrder(c, Left(r, i, o), t);
        OrderExtends(s, Left(r, i, o), s.queue[i], o, Served(c, s, t), t);
      } else if ready <= t {
        var o := Granted(|s.tickets|);
        var n := Consumed(Left(r, i, o), next.tokens);
        ServiceInOrder(c, n, t);
        OrderExtends(s, n, s.queue[i], o, Served(c, s, t), t);
      } else {
        SameQueueInOrder(s, Served(c, s, t), t);
      }
    }
  }

  lemma SameQueueInOrder(s: State, d: State, t: real)
    requires Arrivals(s.queue, s.seqNo) && d.queue == s.queue && d.outcomes == s.outcomes
    ensures ServedInOrder(s, d, t)
  {
  }

  // ----- What a round of service decides -----

  /** The meter after the grants up to ticket `k`, at the instant `t` of the round. */
  function MetAt(c: Config, s: State, ts: seq<Ticket>, k: nat, t: real): Meter
    requires |s.tickets| <= k <= |ts|
  {
    var r := Refilled(c, s.meter, t);
    r.(levels := Levels(r.levels.requests - (k - |s.tickets|) as real,
                        r.levels.tokens - (TotalNeed(ts[..k]) - TotalNeed(s.tickets))))
  }

  /** No server delay is running and the request fits at once. */
  predicate FitsNow(c: Config, m: Meter, need: real, t: real) {
    !Pending(m.blockedUntil, t) && Fits(c, m, need, t)
  }

  /** `r` is the least instant from `t` on, past a server delay, at which the request fits. */
  ghost predicate Earliest(c: Config, m: Meter, need: real, t: real, r: real) {
    && NoEarlier(t, m.blockedUntil) <= r && Fits(c, m, need, r)
    && (forall u :: NoEarlier(t, m.blockedUntil) <= u < r ==> !Fits(c, m, need, u))
  }

  /** No instant up to the deadline, outside a server delay, fits the request. */
  ghost predicate Hopeless(c: Config, m: Meter, x: Demand, t: real) {
    && x.deadlineMs.Some?
    && (forall u :: NoEarlier(t, m.blockedUntil) <= u <= x.deadlineMs.value ==> !Fits(c, m, x.tokens, u))
  }

  /** A whole number of milliseconds, the least not before `r`. */
  predicate RoundsUp(retryAt: real, r: real) {
    retryAt == retryAt.Floor as real && r <= retryAt < r + 1.0
  }

  ghost predicate Advised(c: Config, m: Meter, need: real, t: real, retryAt: real) {
    exists r :: Earliest(c, m, need, t, r) && RoundsUp(retryAt, r)
  }

  /** The outcome that the meter calls for. */
  ghost predicate Judged(c: Config, m: Meter, x: Demand, o: Outcome, t: real) {
    match o
    case Granted(_) => FitsNow(c, m, x.tokens, t) && (x.deadlineMs.Some? ==> t <= x.deadlineMs.value)
    case Refused(reason, retryAt) =>
      && reason == Deadline && Hopeless(c, m, x, t)
      && Advised(c, m, x.tokens, t, retryAt) && retryAt > x.deadlineMs.value
  }

  /** `v` was judged by the meter that the grants before it left, those of all who precede it. */
  ghost predicate JudgedAt(c: Config, s: State, d: State, v: Waiter<Demand>, t: real, k: nat) {
    && |s.tickets| <= k <= |d.tickets| && v.seqNo in d.outcomes
    && Judged(c, MetAt(c, s, d.tickets, k, t), v.item, d.outcomes[v.seqNo], t)
    && (d.outcomes[v.seqNo].Granted? ==>
          && d.outcomes[v.seqNo].ticket == k < |d.tickets|
          && d.tickets[k] == Ticket(v.item.tokens, s.penalties, false))
    && (forall w :: w in s.queue && w !in d.queue && w != v && Got(d, w) ==>
          (d.outcomes[w.seqNo].ticket < k <==> Before(w, v)))
  }

  predicate Got(d: State, w: Waiter<Demand>) {
    w.seqNo in d.outcomes && d.outcomes[w.seqNo].Granted?
  }

  ghost predicate Treated(c: Config, s: State, d: State, v: Waiter<Demand>, t: real) {
    exists k: nat :: JudgedAt(c, s, d, v, t, k)
  }

  /**
   * A round of service: everyone who leaves was granted because the request fitted at once, or
   * refused because it could not fit before its deadline, at the meter left by the grants of those
   * before it; and the next in line neither fits at once nor is without hope.
   */
  ghost predicate Fair(c: Config, s: State, d: State, t: real) {
    && s.tickets <= d.tickets
    && (forall v :: v in s.queue && v !in d.queue ==> Treated(c, s, d, v, t))
    && (d.queue != [] ==>
          var x := d.queue[HeadIndex(d.queue)].item;
          && d.meter == MetAt(c, s, d.tickets, |d.tickets|, t)
          && !FitsNow(c, d.meter, x.tokens, t) && !Hopeless(c, d.meter, x, t))
  }

  lemma EarliestIsReady(c: Config, m: Meter, need: real, t: real)
    requires c.Valid() && m.lastRefill == t
    ensures Earliest(c, m, need, t, ReadyAt(c, m, need, t))
    ensures ReadyAt(c, m, need, t) >= t
    ensures ReadyAt(c, m, need, t) <= t <==> FitsNow(c, m, need, t)
  {
    ReadyAtIsLeast(c, m, need, t);
    ReadyNow(c, m, need, t);
    hide ReadyAt, Fits;
  }

  lemma CeilRoundsUp(r: real)
    ensures RoundsUp(Ceil(r), r)
  {
    var n := -((-r).Floor);
    assert Ceil(r) == n as real;
    assert (n as real).Floor == n;
  }

  /** The outcome recorded for the head is the one its meter calls for. */
  lemma HeadIsJudged(c: Config, m: Meter, x: Demand, o: Outcome, t: real)
    requires c.Valid() && m.lastRefill == t
    requires var ready := ReadyAt(c, m, x.tokens, t);
      if x.deadlineMs.Some? && ready > x.deadlineMs.value then o == Refused(Deadline, Ceil(ready))
      else ready <= t && o.Granted?
    ensures Judged(c, m, x, o, t)
  {
    var ready := ReadyAt(c, m, x.tokens, t);
    EarliestIsReady(c, m, x.tokens, t);
    CeilRoundsUp(ready);
    hide ReadyAt, Fits, Ceil;
  }

  /** Whoever still waits is neither ready nor hopeless. */
  lemma HeadWaits(c: Config, m: Meter, x: Demand, t: real)
    requires c.Valid() && m.lastRefill == t
    requires var ready := ReadyAt(c, m, x.tokens, t);
      !(x.deadlineMs.Some? && ready > x.deadlineMs.value) && ready > t
    ensures !FitsNow(c, m, x.tokens, t) && !Hopeless(c, m, x, t)
  {
    EarliestIsReady(c, m, x.tokens, t);
    hide ReadyAt, Fits;
  }

  lemma SameMeter(c: Config, s: State, ts: seq<Ticket>, t: real)
    requires c.Valid() && WithinCaps(c, s.meter) && s.meter.lastRefill == t && s.tickets <= ts
    ensures MetAt(c, s, ts, |s.tickets|, t) == s.meter
  {
    NoTimePasses(c, s.meter, t);
    assert ts[..|s.tickets|] == s.tickets;
    hide Refilled;
  }

  /** After one more grant the meter is met as before it. */
  lemma MeterAfterGrant(c: Config, s: State, n: State, need: real, ts: seq<Ticket>, k: nat, t: real)
    requires c.Valid() && WithinCaps(c, s.meter) && WithinCaps(c, n.meter) && s.meter.lastRefill == t
    requires n.meter == Consumed(s, need).meter && n.tickets == s.tickets + [Ticket(need, s.penalties, false)]
    requires |n.tickets| <= k <= |ts|
    ensures MetAt(c, n, ts, k, t) == MetAt(c, s, ts, k, t)
  {
    NoTimePasses(c, s.meter, t);
    NoTimePasses(c, n.meter, t);
    NeedsAppend(s.tickets, Ticket(need, s.penalties, false));
    hide Refilled, TotalNeed;
  }

  lemma RestAfterRefusal(c: Config, s: State, n: State, h: Waiter<Demand>, d: State, t: real, v: Waiter<Demand>)
    requires n.meter == s.meter && n.tickets == s.tickets && n.penalties == s.penalties
    requires forall w :: w in n.queue <==> w in s.queue && w != h
    requires !Got(d, h) && Treated(c, n, d, v, t)
    ensures Treated(c, s, d, v, t)
  {
    var k: nat :| JudgedAt(c, n, d, v, t, k);
    hide Judged, Before;
    assert MetAt(c, n, d.tickets, k, t) == MetAt(c, s, d.tickets, k, t);
    assert JudgedAt(c, s, d, v, t, k);
  }

  lemma RestAfterGrant(c: Config, s: State, n: State, h: Waiter<Demand>, d: State, t: real, v: Waiter<Demand>)
    requires c.Valid() && WithinCaps(c, s.meter) && WithinCaps(c, n.meter) && s.meter.lastRefill == t
    requires n.meter == Consumed(s, h.item.tokens).meter && n.penalties == s.penalties
    requires n.tickets == s.tickets + [Ticket(h.item.tokens, s.penalties, false)]
    requires forall w :: w in n.queue <==> w in s.queue && w != h
    requires Before(h, v) && h.seqNo in d.outcomes && d.outcomes[h.seqNo] == Granted(|s.tickets|)
    requires Treated(c, n, d, v, t)
    ensures Treated(c, s, d, v, t)
  {
    var k: nat :| JudgedAt(c, n, d, v, t, k);
    MeterAfterGrant(c, s, n, h.item.tokens, d.tickets, k, t);
    hide Judged, Before, MetAt, WithinCaps, Consumed;
    assert JudgedAt(c, s, d, v, t, k);
  }

  /** Tickets handed out from here on have higher numbers. */
  lemma LaterTickets(c: Config, n: State, d: State, t: real, w: Waiter<Demand>)
    requires Treated(c, n, d, w, t) && Got(d, w)
    ensures d.outcomes[w.seqNo].ticket >= |n.tickets|
  {
    hide Judged, Before, MetAt;
  }

  /** The head was judged by the meter the round began with. */
  lemma HeadIsTreated(c: Config, s: State, n: State, h: Waiter<Demand>, d: State, t: real)
    requires c.Valid() && WithinCaps(c, s.meter) && s.meter.lastRefill == t && s.tickets <= n.tickets <= d.tickets
    requires h.seqNo in d.outcomes && Judged(c, s.meter, h.item, d.outcomes[h.seqNo], t)
    requires d.outcomes[h.seqNo].Granted? ==>
      d.outcomes[h.seqNo].ticket == |s.tickets| < |d.tickets|
      && d.tickets[|s.tickets|] == Ticket(h.item.tokens, s.penalties, false)
    requires forall w :: w in s.queue && w != h ==> w in n.queue && Before(h, w)
    requires forall w :: w in n.queue && w !in d.queue ==> Treated(c, n, d, w, t)
    ensures Treated(c, s, d, h, t)
  {
    SameMeter(c, s, d.tickets, t);
    hide Judged, MetAt, WithinCaps;
    forall w | w in s.queue && w !in d.queue && w != h && Got(d, w)
      ensures !(d.outcomes[w.seqNo].ticket < |s.tickets|) && !Before(w, h)
    {
      LaterTickets(c, n, d, t, w);
    }
    assert JudgedAt(c, s, d, h, t, |s.tickets|);
  }

  lemma OutcomeStays(s: State, n: State, h: Waiter<Demand>, d: State, t: real)
    requires ServedInOrder(n, d, t) && h.seqNo in n.outcomes && forall w :: w in n.queue ==> w.seqNo != h.seqNo
    ensures h.seqNo in d.outcomes && d.outcomes[h.seqNo] == n.outcomes[h.seqNo]
    ensures h !in d.queue && forall w :: w in d.queue ==> w in n.queue
  {
  }

  /** One step of a round whose levels are those of now. */
  lemma ServedStep(c: Config, s: State, t: real)
    requires c.Valid() && WithinCaps(c, s.meter) && s.meter.lastRefill == t && s.queue != []
    ensures var i := HeadIndex(s.queue);
      var x := s.queue[i].item;
      var ready := ReadyAt(c, s.meter, x.tokens, t);
      && (x.deadlineMs.Some? && ready > x.deadlineMs.value ==>
            Served(c, s, t) == Served(c, Left(s, i, Refused(Deadline, Ceil(ready))), t))
      && (!(x.deadlineMs.Some? && ready > x.deadlineMs.value) && ready <= t ==>
            Served(c, s, t) == Served(c, Consumed(Left(s, i, Granted(|s.tickets|)), x.tokens), t))
  {
    NoTimePasses(c, s.meter, t);
    hide Refilled, ReadyAt, HeadIndex, WithinCaps, Ceil, Left, Consumed;
  }

  lemma LeftIsGone(s: State, o: Outcome, t: real)
    requires s.queue != [] && Arrivals(s.queue, s.seqNo) && s.meter.lastRefill == t
    ensures var i := HeadIndex(s.queue); var n := Left(s, i, o);
      && HeadGone(s, n, s.queue[i], t) && |n.queue| < |s.queue|
      && n.outcomes[s.queue[i].seqNo] == o && n.meter == s.meter && n.tickets == s.tickets
  {
    var i := HeadIndex(s.queue);
    HeadLeaves(s.queue, s.seqNo);
    assert s.queue[i] in s.queue;
    hide Before, HeadIndex, Arrivals;
  }

  /** What the head's leaving does to the state, when it is refused. */
  lemma HeadRefused(c: Config, s: State, t0: real, t: real) returns (h: Waiter<Demand>, n: State)
    requires Inv(c, s, t0) && s.meter.lastRefill == t && s.queue != []
    requires var x := s.queue[HeadIndex(s.queue)].item;
      x.deadlineMs.Some? && ReadyAt(c, s.meter, x.tokens, t) > x.deadlineMs.value
    ensures HeadGone(s, n, h, t) && Inv(c, n, t0) && |n.queue| < |s.queue|
    ensures n.meter == s.meter && n.tickets == s.tickets && Served(c, s, t) == Served(c, n, t)
    ensures Judged(c, s.meter, h.item, n.outcomes[h.seqNo], t) && n.outcomes[h.seqNo].Refused?
  {
    var i := HeadIndex(s.queue);
    h := s.queue[i];
    var o := Refused(Deadline, Ceil(ReadyAt(c, s.meter, h.item.tokens, t)));
    n := Left(s, i, o);
    ServedStep(c, s, t);
    LeftIsGone(s, o, t);
    LeftKeepsInv(c, s, t0, i, o);
    HeadIsJudged(c, s.meter, h.item, o, t);
    hide *;
  }

  /** The same when it is granted. */
  lemma HeadGranted(c: Config, s: State, t0: real, t: real) returns (h: Waiter<Demand>, n: State)
    requires Inv(c, s, t0) && s.meter.lastRefill == t && s.queue != []
    requires var x := s.queue[HeadIndex(s.queue)].item;
      var ready := ReadyAt(c, s.meter, x.tokens, t);
      ready <= t && !(x.deadlineMs.Some? && ready > x.deadlineMs.value)
    ensures HeadGone(s, n, h, t) && Inv(c, n, t0) && |n.queue| < |s.queue|
    ensures n.meter == Consumed(s, h.item.tokens).meter
    ensures n.tickets == s.tickets + [Ticket(h.item.tokens, s.penalties, false)]
    ensures Served(c, s, t) == Served(c, n, t)
    ensures n.outcomes[h.seqNo] == Granted(|s.tickets|) && Judged(c, s.meter, h.item, n.outcomes[h.seqNo], t)
  {
    var i := HeadIndex(s.queue);
    h := s.queue[i];
    var o := Granted(|s.tickets|);
    var l := Left(s, i, o);
    n := Consumed(l, h.item.tokens);
    assert h in s.queue;
    ServedStep(c, s, t);
    LeftIsGone(s, o, t);
    LeftKeepsInv(c, s, t0, i, o);
    GrantIsCovered(c, s.meter, h.item.tokens, t);
    HeadIsJudged(c, s.meter, h.item, o, t);
    GrantedMeans(s, l, h, t);
    hide *;
    ConsumeKeepsInv(c, l, t0, h.item.tokens);
  }

  lemma GrantedMeans(s: State, l: State, h: Waiter<Demand>, t: real)
    requires HeadGone(s, l, h, t) && l.meter == s.meter && l.tickets == s.tickets
    ensures var n := Consumed(l, h.item.tokens);
      && HeadGone(s, n, h, t) && n.queue == l.queue && n.outcomes == l.outcomes
      && n.meter == Consumed(s, h.item.tokens).meter
      && n.tickets == s.tickets + [Ticket(h.item.tokens, s.penalties, false)]
  {
  }

  lemma SameMet(c: Config, s: State, n: State, ts: seq<Ticket>, k: nat, t: real)
    requires n.meter == s.meter && n.tickets == s.tickets && |s.tickets| <= k <= |ts|
    ensures MetAt(c, n, ts, k, t) == MetAt(c, s, ts, k, t)
  {
  }

  /** `h` has left `s` with an outcome, ahead of everyone else; nothing happened to the others. */
  ghost predicate HeadGone(s: State, n: State, h: Waiter<Demand>, t: real) {
    && h in s.queue && h.seqNo in n.outcomes && n.penalties == s.penalties && n.meter.lastRefill == t
    && (forall w :: w in n.queue <==> w in s.queue && w != h)
    && (forall w :: w in s.queue && w != h ==> Before(h, w) && w.seqNo != h.seqNo)
  }

  /** The rest of the round, served from `n` on, is the rest of the round from `s`. */
  lemma RestOfRound(c: Config, n: State, h: Waiter<Demand>, d: State, t0: real, t: real)
    requires Inv(c, n, t0) && n.meter.lastRefill == t && d == Served(c, n, t)
    requires h.seqNo in n.outcomes && forall w :: w in n.queue ==> w.seqNo != h.seqNo
    ensures h.seqNo in d.outcomes && d.outcomes[h.seqNo] == n.outcomes[h.seqNo]
    ensures h !in d.queue && forall w :: w in d.queue ==> w in n.queue
  {
    ServiceInOrder(c, n, t);
    hide Served;
    OutcomeStays(n, n, h, d, t);
  }

  lemma {:induction false} RefusedHead(c: Config, s: State, t0: real, t: real)
    requires Inv(c, s, t0) && s.meter.lastRefill == t && s.queue != []
    requires var x := s.queue[HeadIndex(s.queue)].item;
      x.deadlineMs.Some? && ReadyAt(c, s.meter, x.tokens, t) > x.deadlineMs.value
    ensures Fair(c, s, Served(c, s, t), t)
    decreases |s.queue|, 0
  {
    var h, n := HeadRefused(c, s, t0, t);
    var d := Served(c, n, t);
    RoundFromNow(c, n, t0, t);
    RestOfRound(c, n, h, d, t0, t);
    assert c.Valid() && WithinCaps(c, s.meter);
    SameMet(c, s, n, d.tickets, |d.tickets|, t);
    hide Refilled, ReadyAt, Judged, Treated, Before, HeadIndex, WithinCaps, Served, Inv, FitsNow, Hopeless, MetAt;
    HeadIsTreated(c, s, n, h, d, t);
    forall v | v in s.queue && v !in d.queue
      ensures Treated(c, s, d, v, t)
    {
      if v != h {
        RestAfterRefusal(c, s, n, h, d, t, v);
      }
    }
  }

  lemma {:induction false} GrantedHead(c: Config, s: State, t0: real, t: real)
    requires Inv(c, s, t0) && s.meter.lastRefill == t && s.queue != []
    requires var x := s.queue[HeadIndex(s.queue)].item;
      var ready := ReadyAt(c, s.meter, x.tokens, t);
      ready <= t && !(x.deadlineMs.Some? && ready > x.deadlineMs.value)
    ensures Fair(c, s, Served(c, s, t), t)
    decreases |s.queue|, 0
  {
    var h, n := HeadGranted(c, s, t0, t);
    var d := Served(c, n, t);
    RoundFromNow(c, n, t0, t);
    RestOfRound(c, n, h, d, t0, t);
    assert c.Valid() && WithinCaps(c, s.meter) && WithinCaps(c, n.meter);
    hide Refilled, ReadyAt, Judged, Treated, Before, HeadIndex, WithinCaps, Served, Inv, FitsNow, Hopeless, MetAt;
    assert d.tickets[|s.tickets|] == n.tickets[|s.tickets|];
    HeadIsTreated(c, s, n, h, d, t);
    forall v | v in s.queue && v !in d.queue
      ensures Treated(c, s, d, v, t)
    {
      if v != h {
        RestAfterGrant(c, s, n, h, d, t, v);
      }
    }
    MeterAfterGrant(c, s, n, h.item.tokens, d.tickets, |d.tickets|, t);
  }

  lemma {:induction false} RoundFromNow(c: Config, s: State, t0: real, t: real)
    requires Inv(c, s, t0) && s.meter.lastRefill == t
    ensures Fair(c, s, Served(c, s, t), t)
    decreases |s.queue|, 1
  {
    if s.queue != [] {
      var x := s.queue[HeadIndex(s.queue)].item;
      var ready := ReadyAt(c, s.meter, x.tokens, t);
      NoTimePasses(c, s.meter, t);
      if x.deadlineMs.Some? && ready > x.deadlineMs.value {
        RefusedHead(c, s, t0, t);
      } else if ready <= t {
        GrantedHead(c, s, t0, t);
      } else {
        HeadWaits(c, s.meter, x, t);
        SameMeter(c, s, s.tickets, t);
        hide Refilled, ReadyAt, HeadIndex, MetAt, Fits;
      }
    }
  }

  /** A round may begin with the levels of an earlier instant: they are refilled first. */
  lemma ServedRefilled(c: Config, s: State, t0: real, t: real)
    requires Inv(c, s, t0) && s.meter.lastRefill <= t && s.queue != []
    ensures Served(c, RefilledState(c, s, t), t) == Served(c, s, t)
  {
    RefillKeepsInv(c, s, t0, t);
    NoTimePasses(c, Refilled(c, s.meter, t), t);
    hide Refilled, ReadyAt, HeadIndex, Without;
  }

  /** Every round of service is fair, from any state a run can reach. */
  lemma RoundIsFair(c: Config, s: State, t0: real, t: real)
    requires Inv(c, s, t0) && s.meter.lastRefill <= t
    ensures Fair(c, s, Served(c, s, t), t)
  {
    if s.queue != [] {
      var r := RefilledState(c, s, t);
      RefillKeepsInv(c, s, t0, t);
      ServedRefilled(c, s, t0, t);
      RoundFromNow(c, r, t0, t);
      NoTimePasses(c, r.meter, t);
      SameFairness(c, s, r, Served(c, s, t), t);
    }
  }

  lemma SameFairness(c: Config, s: State, r: State, d: State, t: real)
    requires r.tickets == s.tickets && r.queue == s.queue && r.penalties == s.penalties
    requires Refilled(c, r.meter, t) == Refilled(c, s.meter, t) && Fair(c, r, d, t)
    ensures Fair(c, s, d, t)
  {
    hide Refilled, Judged, Before, HeadIndex, FitsNow, Hopeless, Got;
    forall v | v in s.queue && v !in d.queue
      ensures Treated(c, s, d, v, t)
    {
      var k: nat :| JudgedAt(c, r, d, v, t, k);
      assert MetAt(c, r, d.tickets, k, t) == MetAt(c, s, d.tickets, k, t);
      assert JudgedAt(c, s, d, v, t, k);
    }
  }

  /**
   * What a caller is told at once: nothing for bad tokens, a grant exactly when nobody waits and the
   * request fits now, a refusal exactly when it was cancelled or its deadline has passed; otherwise
   * it waits.
   */
  lemma ToldExactly(c: Config, s: State, t0: real, e: Event)
    requires Inv(c, s, t0) && e.Acquire? && s.meter.lastRefill <= e.at
    ensures var m := Refilled(c, s.meter, e.at);
      var need, deadline := e.request.tokens, e.request.deadlineMs;
      var late := deadline.Some? && deadline.value <= e.at;
      match Told(c, s, e)
      case InvalidTokens => need < 0.0
      case Immediate(Granted(k)) =>
        need >= 0.0 && !e.aborted && !late && s.queue == [] && FitsNow(c, m, need, e.at) && k == |s.tickets|
      case Immediate(Refused(reason, retryAt)) =>
        && need >= 0.0 && (if e.aborted then reason == Cancelled && retryAt == e.at else reason == Deadline)
        && (!e.aborted ==> late && Advised(c, m, need, e.at, retryAt))
      case Queued(n) =>
        && need >= 0.0 && !e.aborted && !late && n == s.seqNo + 1
        && (s.queue != [] || !FitsNow(c, m, need, e.at))
  {
    RefillStamps(c, s.meter, e.at);
    var m := Refilled(c, s.meter, e.at);
    EarliestIsReady(c, m, e.request.tokens, e.at);
    CeilRoundsUp(ReadyAt(c, m, e.request.tokens, e.at));
    hide Refilled, ReadyAt, Fits, FitsNow, Earliest, Ceil, RoundsUp;
  }

  /** The state a queued request is served from: in line by its class and its time. */
  function Joined(c: Config, s: State, e: Event): State
    requires e.Acquire?
  {
    var w := Waiter(e.at + (if e.priority == Bulk then c.agingMs else 0.0), s.seqNo + 1, DemandOf(e));
    RefilledState(c, s, e.at).(queue := s.queue + [w], seqNo := s.seqNo + 1, timer := None)
  }

  lemma JoinedIsEnqueued(c: Config, s: State, e: Event)
    requires c.Valid() && e.Acquire? && Told(c, s, e).Queued?
    ensures Joined(c, s, e) == Enqueued(c, RefilledState(c, s, e.at), e).(timer := None)
    ensures Acquired(c, s, e) == Served(c, Joined(c, s, e), e.at)
  {
    hide Refilled, ReadyAt, Served;
  }

  /** And what then happens to it: a fair round. */
  lemma AcquireIsFair(c: Config, s: State, t0: real, e: Event)
    requires Inv(c, s, t0) && e.Acquire? && s.meter.lastRefill <= e.at && Told(c, s, e).Queued?
    ensures Acquired(c, s, e) == Served(c, Joined(c, s, e), e.at)
    ensures Fair(c, Joined(c, s, e), Acquired(c, s, e), e.at)
  {
    RefillKeepsInv(c, s, t0, e.at);
    JoinedIsEnqueued(c, s, e);
    assert c.Valid() && e.request.tokens >= 0.0;
    hide *;
    EnqueuedKeepsInv(c, RefilledState(c, s, e.at), t0, e);
    MeterOf(c, s, e);
    RoundIsFair(c, Joined(c, s, e), t0, e.at);
  }

  lemma MeterOf(c: Config, s: State, e: Event)
    requires e.Acquire?
    ensures Joined(c, s, e).meter == RefilledState(c, s, e.at).meter
  {
  }

  /** The state after the waiter at `i` has left, from which the others are served. */
  function Departed(s: State, i: nat, o: Outcome): State
    requires i < |s.queue|
  {
    s.(queue := Without(s.queue, i), outcomes := s.outcomes[s.queue[i].seqNo := o], timer := None)
  }

  lemma FoundAt(q: seq<Waiter<Demand>>, last: nat, i: nat)
    requires Arrivals(q, last) && i < |q|
    ensures Find(q, q[i].seqNo) == i
  {
  }

  lemma DepartureSteps(c: Config, s: State, i: nat, t: real, retryAt: real)
    requires c.Valid() && i < |s.queue| && Arrivals(s.queue, s.seqNo)
    requires retryAt == Ceil(MaxR(ReadyAt(c, Refilled(c, s.meter, t), s.queue[i].item.tokens, t), t))
    ensures Step(c, s, Abort(t, s.queue[i].seqNo)) == Served(c, Departed(s, i, Refused(Cancelled, t)), t)
    ensures Step(c, s, DeadlineFired(t, s.queue[i].seqNo))
         == Served(c, Departed(RefilledState(c, s, t), i, Refused(Deadline, retryAt)), t)
  {
    FoundAt(s.queue, s.seqNo, i);
    hide Served, Without, Refilled, ReadyAt, Ceil, Arrivals;
  }

  lemma DepartureKeepsInv(c: Config, s: State, t0: real, i: nat, o: Outcome)
    requires Inv(c, s, t0) && i < |s.queue|
    ensures Inv(c, Departed(s, i, o), t0) && Departed(s, i, o).meter == s.meter
  {
    LeftKeepsInv(c, s, t0, i, o);
    hide WithinCaps, Allowance, TotalNeed, LargestNeed, Arrivals, Without;
  }

  lemma InvMeans(c: Config, s: State, t0: real)
    requires Inv(c, s, t0)
    ensures c.Valid() && Arrivals(s.queue, s.seqNo)
    ensures forall w :: w in s.queue ==> w.key == WaiterOrderKey(w.item.priority, w.item.at, c.agingMs)
  {
  }

  lemma OrderMeans(s: State, d: State, t: real, v: Waiter<Demand>, w: Waiter<Demand>)
    requires ServedInOrder(s, d, t) && v in s.queue && w in d.queue
    ensures v in d.queue || Before(v, w)
  {
  }

  /** A waiter that is cancelled leaves at once, told so, and a fair round follows. */
  lemma AbortIsFair(c: Config, s: State, t0: real, i: nat, t: real)
    requires Inv(c, s, t0) && s.meter.lastRefill <= t && i < |s.queue|
    ensures var q, d := Departed(s, i, Refused(Cancelled, t)), Step(c, s, Abort(t, s.queue[i].seqNo));
      d == Served(c, q, t) && Fair(c, q, d, t)
  {
    hide *;
    InvMeans(c, s, t0);
    DepartureSteps(c, s, i, t, Ceil(MaxR(ReadyAt(c, Refilled(c, s.meter, t), s.queue[i].item.tokens, t), t)));
    DepartureKeepsInv(c, s, t0, i, Refused(Cancelled, t));
    RoundIsFair(c, Departed(s, i, Refused(Cancelled, t)), t0, t);
  }

  /** One whose deadline passes is told the earliest instant it could have had, rounded up. */
  lemma ExpiryIsFair(c: Config, s: State, t0: real, i: nat, t: real) returns (retryAt: real)
    requires Inv(c, s, t0) && s.meter.lastRefill <= t && i < |s.queue|
    ensures Advised(c, Refilled(c, s.meter, t), s.queue[i].item.tokens, t, retryAt)
    ensures var r := RefilledState(c, s, t);
      r.queue == s.queue && r.meter == Refilled(c, s.meter, t)
      && var q, d := Departed(r, i, Refused(Deadline, retryAt)), Step(c, s, DeadlineFired(t, s.queue[i].seqNo));
         d == Served(c, q, t) && Fair(c, q, d, t)
  {
    var r := RefilledState(c, s, t);
    assert r.queue == s.queue && r.meter == Refilled(c, s.meter, t);
    hide *;
    InvMeans(c, s, t0);
    RefillKeepsInv(c, s, t0, t);
    retryAt := ExpiryIsAdvised(c, r.meter, s.queue[i].item.tokens, t);
    DepartureSteps(c, s, i, t, retryAt);
    DepartureKeepsInv(c, r, t0, i, Refused(Deadline, retryAt));
    RoundIsFair(c, Departed(r, i, Refused(Deadline, retryAt)), t0, t);
  }

  lemma ExpiryIsAdvised(c: Config, m: Meter, need: real, t: real) returns (retryAt: real)
    requires c.Valid() && m.lastRefill == t
    ensures retryAt == Ceil(MaxR(ReadyAt(c, m, need, t), t)) && Advised(c, m, need, t, retryAt)
  {
    EarliestIsReady(c, m, need, t);
    CeilRoundsUp(ReadyAt(c, m, need, t));
    hide ReadyAt, Earliest, Ceil, RoundsUp;
    retryAt := Ceil(ReadyAt(c, m, need, t));
  }

  /** In the limiter too, interactive goes before bulk that has not waited the allowance longer. */
  lemma InteractiveServedFirst(c: Config, s: State, t0: real, t: real, v: Waiter<Demand>, w: Waiter<Demand>)
    requires Inv(c, s, t0) && s.meter.lastRefill <= t && v in s.queue && w in s.queue
    requires v.item.priority == Interactive && w.item.priority == Bulk
    ensures var d := Served(c, s, t);
      && (v.item.at < w.item.at + c.agingMs && v in d.queue ==> w in d.queue)
      && (w.item.at + c.agingMs < v.item.at && w in d.queue ==> v in d.queue)
  {
    InvMeans(c, s, t0);
    ServiceInOrder(c, s, t);
    ServiceOrder(v, w, v.item.priority, v.item.at, w.item.priority, w.item.at, c.agingMs);
    NotBoth(v, w);
    hide *;
    var d := Served(c, s, t);
    if w in d.queue {
      OrderMeans(s, d, t, v, w);
    }
    if v in d.queue {
      OrderMeans(s, d, t, w, v);
    }
  }

  lemma NotBoth(v: Waiter<Demand>, w: Waiter<Demand>)
    ensures !(Before(v, w) && Before(w, v))
  {
  }

  lemma FirstComeFirstServed(c: Config, s: State, t0: real, t: real, v: Waiter<Demand>, w: Waiter<Demand>)
    requires Inv(c, s, t0) && s.meter.lastRefill <= t && v in s.queue && w in s.queue
    requires v.item.priority == w.item.priority && v.item.at <= w.item.at && v.seqNo < w.seqNo
    ensures v in Served(c, s, t).queue ==> w in Served(c, s, t).queue
  {
    InvMeans(c, s, t0);
    ServiceInOrder(c, s, t);
    ServiceOrder(v, w, v.item.priority, v.item.at, w.item.priority, w.item.at, c.agingMs);
    NotBoth(v, w);
    hide *;
    if v in Served(c, s, t).queue {
      OrderMeans(s, Served(c, s, t), t, w, v);
    }
  }

  // ----- The rates -----

  /**
   * The levels gain their capacity per minute of requests and per second of tokens, until full; the
   * whole of it outside a penalty and the penalized share of it during one.
   */
  lemma RefillRates(c: Config, m: Meter, t: real)
    requires c.Valid() && m.lastRefill <= t
    ensures var f := if Pending(m.penaltyUntil, t) then c.penaltyFactor else 1.0;
      var full := Levels(c.requestCapacity * f, c.tokenCapacity * f);
      var minutes, seconds := (t - m.lastRefill) / 60000.0, (t - m.lastRefill) / 1000.0;
      var l := Refilled(c, m, t).levels;
      Pending(m.penaltyUntil, t) || !Pending(m.penaltyUntil, m.lastRefill) ==>
        && l.requests == Least(full.requests, m.levels.requests + minutes * full.requests)
        && l.tokens == Least(full.tokens, m.levels.tokens + seconds * full.tokens)
  {
    var f := if Pending(m.penaltyUntil, t) then c.penaltyFactor else 1.0;
    RateIs(t - m.lastRefill, c.requestCapacity * f, 60000.0);
    RateIs(t - m.lastRefill, c.tokenCapacity * f, 1000.0);
  }

  function Least(a: real, b: real): real { if a <= b then a else b }

  lemma RateIs(elapsed: real, cap: real, unit: real)
    requires unit > 0.0
    ensures elapsed * cap / unit == elapsed / unit * cap
  {
  }

  /** A 429 empties the request bucket and takes the tokens down to the penalized share. */
  lemma PenaltyLevels(c: Config, s: State, retryAfterMs: Option<real>, t: real)
    requires c.Valid() && s.meter.lastRefill <= t && c.penaltyMs > 0.0
    ensures var before := Refilled(c, s.meter, t).levels;
      var after := Penalized(c, s, retryAfterMs, t).meter.levels;
      && after.requests == Least(before.requests, 0.0)
      && after.tokens == Least(before.tokens, c.tokenCapacity * c.penaltyFactor)
  {
    hide Refilled, Penalized, Caps;
    PenaltyCaps(c, s, retryAfterMs, t);
    CapsAre(c, c.penaltyFactor);
  }

  lemma CapsAre(c: Config, f: real)
    ensures Caps(c, f).tokens == c.tokenCapacity * f
  {
  }

  lemma PenaltyCaps(c: Config, s: State, retryAfterMs: Option<real>, t: real)
    requires c.Valid() && s.meter.lastRefill <= t && c.penaltyMs > 0.0
    ensures var before := Refilled(c, s.meter, t).levels;
      var after := Penalized(c, s, retryAfterMs, t).meter.levels;
      && after.requests == Least(before.requests, 0.0)
      && after.tokens == Least(before.tokens, Caps(c, c.penaltyFactor).tokens)
  {
    RefillStamps(c, s.meter, t);
    CapsFacts(c, c.penaltyFactor);
    hide Refilled, Caps;
  }

  /** It lasts for the penalty, or the server's delay if that is longer, but never ends earlier than one before. */
  lemma PenaltyLasts(c: Config, s: State, retryAfterMs: Option<real>, t: real)
    requires s.meter.lastRefill <= t
    ensures var delay := if retryAfterMs.Some? && retryAfterMs.value > 0.0 then retryAfterMs.value else 0.0;
      var until := t + if c.penaltyMs >= delay then c.penaltyMs else delay;
      var d := Penalized(c, s, retryAfterMs, t);
      && d.meter.penaltyUntil
         == Some(if Pending(s.meter.penaltyUntil, until) then s.meter.penaltyUntil.value else until)
      && d.meter.blockedUntil == (if delay == 0.0 || Pending(s.meter.blockedUntil, t + delay) then s.meter.blockedUntil
                                  else Some(t + delay))
      && d.penalties == s.penalties + 1 && d.queue == s.queue && d.tickets == s.tickets
  {
    RefillStamps(c, s.meter, t);
    hide Refilled, Caps;
  }

  /** At every point of every run somebody waiting means a timer is armed: nobody is forgotten. */
  lemma {:induction false} WaitersHaveATimer(c: Config, t0: real, es: seq<Event>)
    requires c.Valid() && Chronological(c, Init(c, t0), es)
    ensures var s := Run(c, Init(c, t0), es); s.queue != [] ==> s.timer.Some?
  {
    hide Refilled, ReadyAt, Served, PaidBack, Penalized, Caps, Allowance, LargestNeed, TotalNeed;
    if es != [] {
      var n := |es| - 1;
      WaitersHaveATimer(c, t0, es[..n]);
      RunKeepsInv(c, t0, es[..n]);
      StepArmsTimer(c, Run(c, Init(c, t0), es[..n]), t0, es[n]);
    }
  }

  lemma StepArmsTimer(c: Config, s: State, t0: real, e: Event)
    requires Inv(c, s, t0) && s.meter.lastRefill <= e.at && (s.queue != [] ==> s.timer.Some?)
    ensures var d := Step(c, s, e); d.queue != [] ==> d.timer.Some?
  {
    hide Refilled, ReadyAt, Served, PaidBack, Penalized, Allowance;
    match e
    case Acquire(t, priority, request, aborted) =>
      ServiceArmsTimer(c, Enqueued(c, RefilledState(c, s, t), e), t);
    case Refund(t, k) =>
      if k < |s.tickets| {
        var marked := s.(tickets := s.tickets[k := s.tickets[k].(refunded := true)]);
        ServiceArmsTimer(c, PaidBack(c, marked, k, t), t);
        assert s.tickets[k].generation != s.penalties ==> marked.timer == s.timer;
      }
    case Penalize(t, retryAfterMs) => ServiceArmsTimer(c, Penalized(c, s, retryAfterMs, t), t);
    case TimerFired(t) => ServiceArmsTimer(c, s, t);
    case Abort(t, n) =>
      var i := Find(s.queue, n);
      if i < |s.queue| {
        ServiceArmsTimer(c, Left(s, i, Refused(Cancelled, t)), t);
      }
    case DeadlineFired(t, n) =>
      var i := Find(s.queue, n);
      if i < |s.queue| {
        var r := RefilledState(c, s, t);
        var o := Refused(Deadline, Ceil(MaxR(ReadyAt(c, r.meter, s.queue[i].item.tokens, t), t)));
        ServiceArmsTimer(c, Left(r, i, o), t);
      }
    case Snapshot(t) =>
  }

  lemma {:induction false} ServiceArmsTimer(c: Config, s: State, t: real)
    requires c.Valid()
    ensures var d := Scheduled(c, s, t); d.queue != [] ==> d.timer.Some?
    decreases |s.queue|
  {
    hide Refilled, ReadyAt, Caps, Allowance;
    if s.queue != [] {
      var i := HeadIndex(s.queue);
      var next := s.queue[i].item;
      var r := RefilledState(c, s.(timer := None), t);
      var ready := ReadyAt(c, r.meter, next.tokens, t);
      if next.deadlineMs.Some? && ready > next.deadlineMs.value {
        ServiceArmsTimer(c, Left(r, i, Refused(Deadline, Ceil(ready))), t);
      } else if ready <= t {
        ServiceArmsTimer(c, Consumed(Left(r, i, Granted(|s.tickets|)), next.tokens), t);
      }
    }
  }
}
