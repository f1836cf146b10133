/**
 * The half-open probe lease as a protocol between processes. Every step is one atomic action of
 * one process on the shared entry; an `at` is a clock reading taken before the row lock, so it may
 * lag behind the instant the update takes effect.
 */
module ProbeLease {
  import opened Prelude
  import opened Breaker

  /** `Held` keeps the lease between attempts; `Sending` has a wire attempt in flight. */
  datatype Phase =
    | Idle
    | Held(token: Token, leaseEnd: int)
    | Sending(token: Token, leaseEnd: int)

  datatype World = World(entry: Entry, now: int, phases: seq<Phase>, nextToken: Token)

  datatype Step =
    | Advance(to: int)
    | TripStep(at: int)
    | AcquireStep(i: nat, at: int)
    | RenewStep(i: nat, at: int)
    | SendStep(i: nat)
    | EndStep(i: nat)
    | VerdictStep(i: nat, success: bool, at: int)
    | GiveBackStep(i: nat, at: int)
    | CrashStep(i: nat)
    | ResetStep(resetAt: int, at: int)
    | AuthStep(at: int)

  predicate InPhase(w: World, i: nat, held: bool) {
    i < |w.phases| && (if held then w.phases[i].Held? else w.phases[i].Sending?)
  }

  predicate Enabled(w: World, s: Step) {
    match s
    case Advance(to) => to >= w.now
    case TripStep(at) => at <= w.now
    case AcquireStep(i, at) => i < |w.phases| && w.phases[i].Idle? && at <= w.now
    case RenewStep(i, at) => InPhase(w, i, true) && at <= w.now
    case SendStep(i) => InPhase(w, i, true)
    case EndStep(i) => InPhase(w, i, false)
    case VerdictStep(i, _, at) => InPhase(w, i, true) && at <= w.now
    case GiveBackStep(i, at) => InPhase(w, i, true) && at <= w.now
    case CrashStep(i) => i < |w.phases|
    case ResetStep(_, at) => at <= w.now
    case AuthStep(at) => at <= w.now
  }

  function Apply(w: World, s: Step, p: Params): World
    requires Enabled(w, s)
  {
    match s
    case Advance(to) => w.(now := to)
    case TripStep(at) => w.(entry := Applied(w.entry, TimedChange(Trip, at), p))
    case AcquireStep(i, at) =>
      var next := AcquireProbe(w.entry, at, w.nextToken, p);
      if next.None? then w
      else World(next.value, w.now, w.phases[i := Held(w.nextToken, at + p.probeLeaseMs)],
                 w.nextToken + 1)
    case RenewStep(i, at) =>
      var next := RenewProbe(w.entry, w.phases[i].token, at, p);
      if next.None? then w.(phases := w.phases[i := Idle])
      else w.(entry := next.value,
              phases := w.phases[i := Held(w.phases[i].token, at + p.probeLeaseMs)])
    case SendStep(i) =>
      w.(phases := w.phases[i := Sending(w.phases[i].token, w.phases[i].leaseEnd)])
    case EndStep(i) => w.(phases := w.phases[i := Held(w.phases[i].token, w.phases[i].leaseEnd)])
    case VerdictStep(i, success, at) =>
      World(Applied(w.entry, TimedChange(Complete(w.phases[i].token, success), at), p), w.now,
            w.phases[i := Idle], w.nextToken)
    case GiveBackStep(i, at) =>
      World(Applied(w.entry, TimedChange(Release(w.phases[i].token), at), p), w.now,
            w.phases[i := Idle], w.nextToken)
    case CrashStep(i) => w.(phases := w.phases[i := Idle])
    case ResetStep(resetAt, at) => w.(entry := Applied(w.entry, TimedChange(Reset(resetAt), at), p))
    case AuthStep(at) => w.(entry := Applied(w.entry, TimedChange(AuthFailure, at), p))
  }

  /**
   * What a process believes of its lease is what the shared entry says at that step: a lease taken or
   * renewed runs until a full lease after the clock reading, and one that is lost is given up. A step of
   * one process leaves the phases of the others as they are.
   */
  lemma StepsDo(w: World, s: Step, p: Params)
    requires Enabled(w, s)
    ensures var d := Apply(w, s, p);
      && |d.phases| == |w.phases| && d.now == (if s.Advance? then s.to else w.now)
      && (forall j :: 0 <= j < |w.phases| && d.phases[j] != w.phases[j] ==> Of(s, j))
      && match s
         case AcquireStep(i, at) =>
           if (w.entry.state == Open && at >= OrZero(w.entry.openUntil))
              || (w.entry.state == HalfOpen && (w.entry.probeToken.None? || at >= OrZero(w.entry.probeUntil)))
           then
             && Holds(d.entry, w.nextToken) && d.entry.probeUntil == Some(at + p.probeLeaseMs)
             && d.phases[i] == Held(w.nextToken, at + p.probeLeaseMs) && d.nextToken == w.nextToken + 1
           else d == w
         case RenewStep(i, at) =>
           if Holds(w.entry, w.phases[i].token) then
             && d.entry == w.entry.(probeUntil := Some(at + p.probeLeaseMs))
             && d.phases[i] == Held(w.phases[i].token, at + p.probeLeaseMs)
           else d.entry == w.entry && d.phases[i] == Idle
         case SendStep(i) => d.entry == w.entry && d.phases[i] == Sending(w.phases[i].token, w.phases[i].leaseEnd)
         case EndStep(i) => d.entry == w.entry && d.phases[i] == Held(w.phases[i].token, w.phases[i].leaseEnd)
         case VerdictStep(i, success, _) =>
           && d.phases[i] == Idle
           && (if Holds(w.entry, w.phases[i].token) then d.entry.state == (if success then Closed else Open)
               else d.entry == w.entry)
         case GiveBackStep(i, _) =>
           && d.phases[i] == Idle
           && d.entry == (if Holds(w.entry, w.phases[i].token) then w.entry.(probeToken := None, probeUntil := None)
                          else w.entry)
         case CrashStep(i) => d.entry == w.entry && d.phases[i] == Idle
         case _ => d.phases == w.phases
  {
  }

  /** A step of process `i`. */
  predicate Of(s: Step, i: nat) {
    match s
    case AcquireStep(j, _) => i == j
    case RenewStep(j, _) => i == j
    case SendStep(j) => i == j
    case EndStep(j) => i == j
    case VerdictStep(j, _, _) => i == j
    case GiveBackStep(j, _) => i == j
    case CrashStep(j) => i == j
    case _ => false
  }

  ghost predicate Behavior(ws: seq<World>, steps: seq<Step>, p: Params) {
    && |ws| == |steps| + 1
    && (forall i :: 0 <= i < |steps| ==> Enabled(ws[i], steps[i]) && ws[i + 1] == Apply(ws[i], steps[i], p))
  }

  ghost predicate Start(w: World) {
    && (forall i :: 0 <= i < |w.phases| ==> w.phases[i].Idle?)
    && (w.entry.probeToken.Some? ==> w.entry.probeToken.value < w.nextToken)
  }

  /** The timing hypothesis: every wire attempt ends before a lease counted from its renewal. */
  ghost predicate EndsInTime(w: World) {
    forall i :: 0 <= i < |w.phases| && w.phases[i].Sending? ==> w.now < w.phases[i].leaseEnd
  }

  /** Some process holds, or sends under, a lease that has not ended. */
  ghost predicate LiveLease(w: World) {
    exists i :: 0 <= i < |w.phases| && Live(w.phases[i], w.now)
  }

  predicate Live(ph: Phase, now: int) {
    !ph.Idle? && now < ph.leaseEnd
  }

  /** A reset comes only while no lease is live. */
  ghost predicate Quiet(w: World, s: Step) {
    s.ResetStep? ==> !LiveLease(w)
  }

  /** Wire attempts under two different probe tokens are in flight at once. */
  ghost predicate Overlap(w: World) {
    exists i, j :: 0 <= i < |w.phases| && 0 <= j < |w.phases| &&
      w.phases[i].Sending? && w.phases[j].Sending? && w.phases[i].token != w.phases[j].token
  }

  /**
   * A live lease is the one stored, unless an auth failure has taken the entry (`auth` says
   * whether one may have); no two leases are live, and no two processes share a token.
   */
  ghost predicate Inv(w: World, auth: bool) {
    && (forall i :: 0 <= i < |w.phases| && !w.phases[i].Idle? ==> w.phases[i].token < w.nextToken)
    && (forall i :: 0 <= i < |w.phases| && Live(w.phases[i], w.now) ==>
          Stored(w.entry, w.phases[i]) || (auth && w.entry.state == Auth))
    && (forall i, j :: 0 <= i < j < |w.phases| ==> !(Live(w.phases[i], w.now) && Live(w.phases[j], w.now)))
    && (forall i, j :: 0 <= i < j < |w.phases| && !w.phases[i].Idle? && !w.phases[j].Idle? ==>
          w.phases[i].token != w.phases[j].token)
  }

  predicate Stored(e: Entry, ph: Phase)
    requires !ph.Idle?
  {
    Holds(e, ph.token) && e.probeUntil == Some(ph.leaseEnd)
  }

  lemma StepKeepsInv(w: World, s: Step, p: Params, auth: bool)
    requires Enabled(w, s) && Quiet(w, s) && (s.AuthStep? ==> auth) && Inv(w, auth)
    ensures Inv(Apply(w, s, p), auth)
  {
    hide OpenDurationMs;
    match s
    case Advance(_) => hide Applied, Holds;
    case TripStep(_) => EntryStepKeepsInv(w, s, p, auth);
    case AcquireStep(i, at) => AcquireKeepsInv(w, i, at, p, auth);
    case RenewStep(_, _) => RenewKeepsInv(w, s, p, auth);
    case SendStep(_) => hide Applied, Holds;
    case EndStep(_) => hide Applied, Holds;
    case VerdictStep(_, _, _) => LeavingKeepsInv(w, s, p, auth);
    case GiveBackStep(_, _) => LeavingKeepsInv(w, s, p, auth);
    case CrashStep(_) => hide Applied, Holds;
    case ResetStep(_, _) => EntryStepKeepsInv(w, s, p, auth);
    case AuthStep(_) => EntryStepKeepsInv(w, s, p, auth);
  }

  /** Steps that touch the shared entry only. */
  lemma EntryStepKeepsInv(w: World, s: Step, p: Params, auth: bool)
    requires Enabled(w, s) && (s.TripStep? || s.ResetStep? || s.AuthStep?)
    requires Quiet(w, s) && (s.AuthStep? ==> auth) && Inv(w, auth)
    ensures Inv(Apply(w, s, p), auth)
  {
    hide OpenDurationMs;
  }

  lemma RenewKeepsInv(w: World, s: Step, p: Params, auth: bool)
    requires Enabled(w, s) && s.RenewStep? && Inv(w, auth)
    ensures Inv(Apply(w, s, p), auth)
  {
  }

  /** The holder reports its verdict or gives the lease back, and holds nothing after. */
  lemma LeavingKeepsInv(w: World, s: Step, p: Params, auth: bool)
    requires Enabled(w, s) && (s.VerdictStep? || s.GiveBackStep?) && Inv(w, auth)
    ensures Inv(Apply(w, s, p), auth)
  {
    hide OpenDurationMs;
  }

  /** While some process's lease is live the entry cannot be taken by another. */
  lemma LeasedMeansBusy(w: World, at: int, p: Params, auth: bool)
    requires Inv(w, auth) && at <= w.now
    ensures LiveLease(w) ==> AcquireProbe(w.entry, at, w.nextToken, p).None?
  {
  }

  lemma AcquireKeepsInv(w: World, i: nat, at: int, p: Params, auth: bool)
    requires Enabled(w, AcquireStep(i, at)) && Inv(w, auth)
    ensures Inv(Apply(w, AcquireStep(i, at), p), auth)
  {
    LeasedMeansBusy(w, at, p, auth);
    var w' := Apply(w, AcquireStep(i, at), p);
    if AcquireProbe(w.entry, at, w.nextToken, p).Some? {
      assert forall k :: 0 <= k < |w.phases| ==> !Live(w.phases[k], w.now);
      forall k | 0 <= k < |w.phases| && k != i
        ensures w'.phases[k] == w.phases[k] && !Live(w'.phases[k], w'.now)
      {
        assert !Live(w.phases[k], w.now);
      }
    }
  }

  lemma {:induction false} BehaviorKeepsInv(ws: seq<World>, steps: seq<Step>, p: Params, auth: bool, k: nat)
    requires Behavior(ws, steps, p) && Inv(ws[0], auth) && k <= |steps|
    requires forall i :: 0 <= i < |steps| ==> Quiet(ws[i], steps[i]) && (steps[i].AuthStep? ==> auth)
    ensures Inv(ws[k], auth)
  {
    hide Inv, Quiet, Apply, Enabled;
    if k > 0 {
      BehaviorKeepsInv(ws, steps, p, auth, k - 1);
      StepKeepsInv(ws[k - 1], steps[k - 1], p, auth);
    }
  }

  /**
   * Probe exclusivity: with every attempt ending in time and resets only while no lease is live,
   * at no moment are wire attempts of two probe tokens in flight, however many processes compete,
   * crash, act on stale clock readings, or meet an auth failure.
   */
  lemma ProbesNeverOverlap(ws: seq<World>, steps: seq<Step>, p: Params)
    requires Behavior(ws, steps, p) && Inv(ws[0], true)
    requires forall i :: 0 <= i < |steps| ==> Quiet(ws[i], steps[i])
    requires forall w :: w in ws ==> EndsInTime(w)
    ensures forall w :: w in ws ==> !Overlap(w)
  {
    forall w | w in ws
      ensures !Overlap(w)
    {
      var k :| 0 <= k < |ws| && ws[k] == w;
      BehaviorKeepsInv(ws, steps, p, true, k);
      OneSender(w, true);
    }
  }

  lemma OneSender(w: World, auth: bool)
    requires Inv(w, auth) && EndsInTime(w)
    ensures !Overlap(w)
    ensures !auth ==> forall i :: 0 <= i < |w.phases| && w.phases[i].Sending? ==> Holds(w.entry, w.phases[i].token)
  {
    assert forall i :: 0 <= i < |w.phases| && w.phases[i].Sending? ==> Live(w.phases[i], w.now);
  }

  /** Without auth failures, whoever is sending also holds the shared lease. */
  lemma SendersHoldTheLease(ws: seq<World>, steps: seq<Step>, p: Params)
    requires Behavior(ws, steps, p) && Inv(ws[0], false)
    requires forall i :: 0 <= i < |steps| ==> Quiet(ws[i], steps[i]) && !steps[i].AuthStep?
    requires forall w :: w in ws ==> EndsInTime(w)
    ensures forall w, i :: w in ws && 0 <= i < |w.phases| && w.phases[i].Sending? ==>
      Holds(w.entry, w.phases[i].token)
  {
    forall w | w in ws
      ensures forall i :: 0 <= i < |w.phases| && w.phases[i].Sending? ==> Holds(w.entry, w.phases[i].token)
    {
      var k :| 0 <= k < |ws| && ws[k] == w;
      BehaviorKeepsInv(ws, steps, p, false, k);
      OneSender(w, false);
    }
  }

  /** What ends the half-open state: its holder's verdict, a reset, or an auth failure. */
  lemma OnlyTheHolderDecides(w: World, s: Step, p: Params)
    requires Enabled(w, s) && w.entry.state == HalfOpen
    requires Apply(w, s, p).entry.state != HalfOpen
    ensures var next := Apply(w, s, p).entry.state;
      || (s.VerdictStep? && Holds(w.entry, w.phases[s.i].token) && next == (if s.success then Closed else Open))
      || (s.ResetStep? && next == Closed)
      || (s.AuthStep? && next == Auth)
  {
  }

  // ----- Resets: exactly when they are safe -----

  /** No continuation, its attempts ending in time and its own resets quiet, has an overlap. */
  ghost predicate Safe(w: World, p: Params) {
    forall ws, steps :: Behavior(ws, steps, p) && ws[0] == w && InTime(ws, steps) ==>
      forall v :: v in ws ==> !Overlap(v)
  }

  ghost predicate InTime(ws: seq<World>, steps: seq<Step>) {
    && (forall w :: w in ws ==> EndsInTime(w))
    && (forall i :: 0 <= i < |steps| && i < |ws| ==> Quiet(ws[i], steps[i]))
  }

  /** When a trip judged at `at` lets a probe start, if it takes effect now. */
  function ProbeTime(w: World, p: Params, at: int): int {
    MaxI(w.now, at + OpenDurationMs(0, p))
  }

  /** Process `i` sends, `j` starts over, and the breaker trips. */
  function Tripped(w: World, p: Params, i: nat, j: nat, at: int): World
    requires i < |w.phases| && j < |w.phases| && !w.phases[i].Idle?
  {
    w.(entry := TripBreaker(CLOSED, at, p).value,
       phases := w.phases[i := Sending(w.phases[i].token, w.phases[i].leaseEnd)][j := Idle])
  }

  /** The open period passes and `j` sends under a lease of its own. */
  function Second(w: World, p: Params, j: nat, t: int): World
    requires j < |w.phases|
  {
    World(Entry(HalfOpen, w.entry.reopenCount, w.entry.openedAt, w.entry.failingSince, w.entry.openUntil,
                Some(w.nextToken), Some(t + p.probeLeaseMs)),
          t, w.phases[j := Sending(w.nextToken, t + p.probeLeaseMs)], w.nextToken + 1)
  }

  lemma TripsUnderALease(w: World, p: Params, i: nat, j: nat, at: int) returns (ws: seq<World>, steps: seq<Step>)
    requires i < |w.phases| && j < |w.phases| && i != j && w.entry == CLOSED
    requires !w.phases[i].Idle? && at <= w.now
    ensures Behavior(ws, steps, p) && |steps| == 3 && ws[0] == w && ws[3] == Tripped(w, p, i, j, at)
    ensures forall v :: v in ws ==> v.now == w.now && Subphases(w, v, i)
    ensures forall s :: s in steps ==> !s.ResetStep?
  {
    hide OpenDurationMs;
    var a := if w.phases[i].Held? then SendStep(i) else Advance(w.now);
    var w1 := w.(phases := w.phases[i := Sending(w.phases[i].token, w.phases[i].leaseEnd)]);
    var w2 := w1.(phases := w1.phases[j := Idle]);
    assert w.phases[i].Sending? ==> w1 == w;
    ws, steps := [w, w1, w2, Tripped(w, p, i, j, at)], [a, CrashStep(j), TripStep(at)];
    forall k | 0 <= k < 3
      ensures Enabled(ws[k], steps[k]) && ws[k + 1] == Apply(ws[k], steps[k], p)
    {
      if k == 0 {} else if k == 1 {} else {}
    }
  }

  /** Nobody but `i` has started sending. */
  ghost predicate Subphases(w: World, v: World, i: nat) {
    && |v.phases| == |w.phases|
    && (forall k :: 0 <= k < |w.phases| && v.phases[k].Sending? ==>
          !w.phases[k].Idle? && v.phases[k].leaseEnd == w.phases[k].leaseEnd && (k == i || w.phases[k].Sending?))
  }

  lemma SecondProbeStarts(w: World, p: Params, j: nat, t: int) returns (ws: seq<World>, steps: seq<Step>)
    requires j < |w.phases| && w.phases[j].Idle? && w.now <= t
    requires w.entry.state == Open && OrZero(w.entry.openUntil) <= t
    ensures Behavior(ws, steps, p) && |steps| == 3 && ws[0] == w && ws[3] == Second(w, p, j, t)
    ensures forall v :: v in ws ==> v.now <= t
    ensures forall v :: v in ws && v != ws[3] ==> forall k :: 0 <= k < |v.phases| && v.phases[k].Sending? ==>
      k < |w.phases| && v.phases[k] == w.phases[k]
    ensures forall s :: s in steps ==> !s.ResetStep?
  {
    var w1 := w.(now := t);
    var held := Held(w.nextToken, t + p.probeLeaseMs);
    var w2 := World(AcquireProbe(w.entry, t, w.nextToken, p).value, t, w.phases[j := held], w.nextToken + 1);
    ws, steps := [w, w1, w2, Second(w, p, j, t)], [Advance(t), AcquireStep(j, t), SendStep(j)];
    forall k | 0 <= k < 3
      ensures Enabled(ws[k], steps[k]) && ws[k + 1] == Apply(ws[k], steps[k], p)
    {
      if k == 0 {} else if k == 1 {} else {}
    }
  }

  lemma Joined(ws: seq<World>, steps: seq<Step>, vs: seq<World>, more: seq<Step>, p: Params)
    requires Behavior(ws, steps, p) && Behavior(vs, more, p) && ws[|steps|] == vs[0]
    ensures Behavior(ws + vs[1..], steps + more, p)
    ensures forall v :: v in ws + vs[1..] ==> v in ws || v in vs
    ensures (ws + vs[1..])[|steps| + |more|] == vs[|more|]
  {
    hide Enabled, Apply;
    var all, did := ws + vs[1..], steps + more;
    forall k | 0 <= k < |did|
      ensures Enabled(all[k], did[k]) && all[k + 1] == Apply(all[k], did[k], p)
    {
      if k < |steps| {
        assert all[k] == ws[k] && all[k + 1] == ws[k + 1];
      } else {
        assert all[k] == vs[k - |steps|] && all[k + 1] == vs[k - |steps| + 1];
      }
    }
  }

  /**
   * Process `i` has a lease of a breaker that was closed under it. A trip judged by a clock
   * reading `at`, its open period, and a second process `j` overlap with it if the lease, and any
   * attempt in flight, lasts that long.
   */
  lemma ClosedUnderALease(w: World, p: Params, i: nat, j: nat, at: int)
    requires i < |w.phases| && j < |w.phases| && i != j && w.entry == CLOSED && p.probeLeaseMs > 0
    requires !w.phases[i].Idle? && w.phases[i].token < w.nextToken && at <= w.now
    requires ProbeTime(w, p, at) < w.phases[i].leaseEnd
    requires EndsInTime(w.(now := ProbeTime(w, p, at)))
    ensures !Safe(w, p)
  {
    var t := ProbeTime(w, p, at);
    var ws, steps := TripsUnderALease(w, p, i, j, at);
    var u := Tripped(w, p, i, j, at);
    var vs, more := SecondProbeStarts(u, p, j, t);
    Joined(ws, steps, vs, more, p);
    hide OpenDurationMs, Behavior;
    var all, did := ws + vs[1..], steps + more;
    forall v | v in ws ensures EndsInTime(v) {
    }
    forall v | v in vs ensures EndsInTime(v) {
      assert Subphases(w, u, i);
    }
    NoResetIsQuiet(all, did);
    assert InTime(all, did) && all[0] == w;
    var last := Second(u, p, j, t);
    assert last.phases[i].token != last.phases[j].token;
    assert Overlap(last) && all[6] == last;
  }

  lemma NoResetIsQuiet(ws: seq<World>, steps: seq<Step>)
    requires forall s :: s in steps ==> !s.ResetStep?
    ensures forall i :: 0 <= i < |steps| && i < |ws| ==> Quiet(ws[i], steps[i])
  {
    assert forall i :: 0 <= i < |steps| ==> steps[i] in steps;
  }

  /**
   * A reset is safe exactly while no lease is live, or when it changes nothing because the
   * incident is newer. Among two processes or more, any other reset can lead to an overlap,
   * since a trip may be judged by a clock reading from before the row lock.
   */
  lemma ResetIsSafeExactly(w: World, p: Params, resetAt: int, at: int)
    requires Inv(w, true) && EndsInTime(w) && |w.phases| >= 2 && p.probeLeaseMs > 0 && at <= w.now
    ensures Safe(Apply(w, ResetStep(resetAt, at), p), p) <==>
      !LiveLease(w) || ApplyReset(w.entry, resetAt).None?
  {
    var s := ResetStep(resetAt, at);
    var next := Apply(w, s, p);
    if LiveLease(w) && ApplyReset(w.entry, resetAt).Some? {
      var i :| 0 <= i < |w.phases| && Live(w.phases[i], w.now);
      var j := if i == 0 then 1 else 0;
      ClosedUnderALease(next, p, i, j, w.now - OpenDurationMs(0, p));
    } else {
      if LiveLease(w) {
        assert next == w;
      } else {
        StepKeepsInv(w, s, p, true);
      }
      hide Inv, InTime, EndsInTime, Overlap, Quiet;
      forall ws, steps | Behavior(ws, steps, p) && ws[0] == next && InTime(ws, steps)
        ensures forall v :: v in ws ==> !Overlap(v)
      {
        InTimeMeans(ws, steps);
        ProbesNeverOverlap(ws, steps, p);
      }
    }
  }

  lemma InTimeMeans(ws: seq<World>, steps: seq<Step>)
    requires InTime(ws, steps) && |ws| == |steps| + 1
    ensures forall w :: w in ws ==> EndsInTime(w)
    ensures forall i :: 0 <= i < |steps| ==> Quiet(ws[i], steps[i])
  {
  }

  /**
   * Clock readings need not be stale for it: under a lease that outlasts a whole open period from
   * now, as the default durations allow, a reset, a fresh trip and a second probe overlap.
   */
  lemma ResetLetsProbesOverlap(w: World, p: Params, i: nat, resetAt: int)
    requires Inv(w, true) && |w.phases| >= 2 && p.probeLeaseMs > 0
    requires ApplyReset(w.entry, resetAt).Some?
    requires i < |w.phases| && Live(w.phases[i], w.now) && w.now + OpenDurationMs(0, p) < w.phases[i].leaseEnd
    requires EndsInTime(w.(now := w.now + OpenDurationMs(0, p)))
    ensures !Safe(Apply(w, ResetStep(resetAt, w.now), p), p)
  {
    ClosedUnderALease(Apply(w, ResetStep(resetAt, w.now), p), p, i, if i == 0 then 1 else 0, w.now);
  }

  /** With the default durations such a world is one probe away from a tripped breaker. */
  lemma DefaultsAllowIt(p: Params)
    requires p.baseOpenMs == 120000 && p.maxOpenMs == 1800000 && p.probeLeaseMs == 150000
    ensures exists ws: seq<World>, steps: seq<Step> ::
      && Behavior(ws, steps, p) && Start(ws[0]) && InTime(ws, steps) && ws[|ws| - 1].now == 0
      && !Safe(Apply(ws[|ws| - 1], ResetStep(0, 0), p), p)
  {
    var open0 := Entry(Open, 0, Some(0), Some(0), Some(0), None, None);
    var half0 := Entry(HalfOpen, 0, Some(0), Some(0), Some(0), Some(0), Some(150000));
    var w0 := World(open0, 0, [Idle, Idle], 0);
    var w1 := World(half0, 0, [Held(0, 150000), Idle], 1);
    var ws, steps := [w0, w1], [AcquireStep(0, 0)];
    assert OpenDurationMs(0, p) == 120000;
    assert Behavior(ws, steps, p) && InTime(ws, steps);
    assert Live(w1.phases[0], w1.now);
    ResetLetsProbesOverlap(w1, p, 0, 0);
  }
}
