/**
 * The circuit breaker: the pure transitions of one engine's shared entry, the process-local
 * failure window, and the coordinator that applies transitions through an atomic locked update.
 * Instants are whole milliseconds.
 */
module Breaker {
  import opened Prelude

  datatype Mode = Closed | Open | HalfOpen | Auth

  type Token = nat

  datatype Params = Params(
    windowMs: int,
    minRequests: nat,
    failureRatio: real,
    baseOpenMs: nat,
    maxOpenMs: nat,
    probeLeaseMs: nat,
    pollMs: int)

  datatype Entry = Entry(
    state: Mode,
    reopenCount: nat,
    openedAt: Option<int>,
    failingSince: Option<int>,
    openUntil: Option<int>,
    probeToken: Option<Token>,
    probeUntil: Option<int>)

  const CLOSED := Entry(Closed, 0, None, None, None, None, None)

  function OpenDurationMs(reopenCount: nat, p: Params): nat {
    MinI(p.baseOpenMs * Pow2(reopenCount), p.maxOpenMs)
  }

  function OrElse(a: Option<int>, b: Option<int>): Option<int> {
    if a.Some? then a else b
  }

  /** `value ?? 0`. */
  function OrZero(a: Option<int>): int {
    if a.Some? then a.value else 0
  }

  function TripBreaker(e: Entry, now: int, p: Params): Option<Entry> {
    if e.state != Closed then None
    else Some(Entry(Open, e.reopenCount, Some(now), Some(now),
                    Some(now + OpenDurationMs(e.reopenCount, p)), None, None))
  }

  function AcquireProbe(e: Entry, now: int, token: Token, p: Params): Option<Entry> {
    var openExpired := e.state == Open && OrZero(e.openUntil) <= now;
    var leaseFree := e.state == HalfOpen && (e.probeToken.None? || OrZero(e.probeUntil) <= now);
    if !openExpired && !leaseFree then None
    else Some(Entry(HalfOpen, e.reopenCount, e.openedAt, e.failingSince, e.openUntil,
                    Some(token), Some(now + p.probeLeaseMs)))
  }

  predicate Holds(e: Entry, token: Token) {
    e.state == HalfOpen && e.probeToken == Some(token)
  }

  function CompleteProbe(e: Entry, token: Token, success: bool, now: int, p: Params): Option<Entry> {
    if !Holds(e, token) then None
    else if success then Some(CLOSED)
    else Some(Entry(Open, e.reopenCount + 1, Some(now), OrElse(e.failingSince, e.openedAt),
                    Some(now + OpenDurationMs(e.reopenCount + 1, p)), None, None))
  }

  function RenewProbe(e: Entry, token: Token, now: int, p: Params): Option<Entry> {
    if !Holds(e, token) then None
    else Some(e.(probeUntil := Some(now + p.probeLeaseMs)))
  }

  function ReleaseProbe(e: Entry, token: Token): Option<Entry> {
    if !Holds(e, token) then None
    else Some(e.(probeToken := None, probeUntil := None))
  }

  function EnterAuthMode(e: Entry, now: int): Option<Entry> {
    if e.state == Auth then None
    else
      var since := if e.state == Open || e.state == HalfOpen then e.openedAt else None;
      Some(Entry(Auth, e.reopenCount, Some(now),
                 OrElse(OrElse(e.failingSince, since), Some(now)), None, None, None))
  }

  function ApplyReset(e: Entry, resetAt: int): Option<Entry> {
    if e.state == Closed && e.reopenCount == 0 then None
    else if e.openedAt.Some? && e.openedAt.value > resetAt then None
    else Some(CLOSED)
  }

  datatype Verdict = AdmitClosed | AdmitProbe | Deny(auth: bool, retryAt: Option<int>)

  function EvaluateBreaker(e: Entry, now: int): Verdict {
    match e.state
    case Closed => AdmitClosed
    case Auth => Deny(true, None)
    case Open =>
      if OrZero(e.openUntil) <= now then AdmitProbe else Deny(false, Some(OrZero(e.openUntil)))
    case HalfOpen =>
      if e.probeToken.None? || e.probeUntil.None? || e.probeUntil.value <= now then AdmitProbe
      else Deny(false, e.probeUntil)
  }

  /**
   * The advice and the lease agree on every entry but one kind: a half-open lease without an
   * expiry, judged before the epoch.
   */
  lemma AdviceMatchesLease(e: Entry, now: int, token: Token, p: Params)
    ensures (EvaluateBreaker(e, now).AdmitProbe? <==> AcquireProbe(e, now, token, p).Some?)
       <==> !(e.state == HalfOpen && e.probeToken.Some? && e.probeUntil.None? && now < 0)
  {
  }

  // ----- The streak over every run of one entry -----

  datatype Change =
    | Trip
    | Acquire(token: Token)
    | Renew(token: Token)
    | Complete(token: Token, success: bool)
    | Release(token: Token)
    | AuthFailure
    | Reset(resetAt: int)

  datatype TimedChange = TimedChange(change: Change, now: int)

  function Transition(e: Entry, c: TimedChange, p: Params): Option<Entry> {
    match c.change
    case Trip => TripBreaker(e, c.now, p)
    case Acquire(token) => AcquireProbe(e, c.now, token, p)
    case Renew(token) => RenewProbe(e, token, c.now, p)
    case Complete(token, success) => CompleteProbe(e, token, success, c.now, p)
    case Release(token) => ReleaseProbe(e, token)
    case AuthFailure => EnterAuthMode(e, c.now)
    case Reset(resetAt) => ApplyReset(e, resetAt)
  }

  function Applied(e: Entry, c: TimedChange, p: Params): Entry {
    var next := Transition(e, c, p);
    if next.Some? then next.value else e
  }

  /** Which changes take effect, and what state they lead to. */
  lemma WhatChangesDo(e: Entry, c: TimedChange, p: Params)
    ensures var d := Applied(e, c, p);
      match c.change
      case Trip => d.state == (if e.state == Closed then Open else e.state) && (e.state != Closed ==> d == e)
      case Acquire(token) =>
        if (e.state == Open && c.now >= OrZero(e.openUntil))
           || (e.state == HalfOpen && (e.probeToken.None? || c.now >= OrZero(e.probeUntil)))
        then Holds(d, token) && d.probeUntil == Some(c.now + p.probeLeaseMs)
        else d == e
      case Renew(token) =>
        if Holds(e, token) then Holds(d, token) && d.probeUntil == Some(c.now + p.probeLeaseMs) else d == e
      case Complete(token, success) =>
        if !Holds(e, token) then d == e
        else if success then d == CLOSED
        else d.state == Open && d.reopenCount == e.reopenCount + 1
      case Release(token) =>
        if Holds(e, token) then d.state == HalfOpen && d.probeToken.None? else d == e
      case AuthFailure => d.state == Auth && (e.state == Auth ==> d == e)
      case Reset(resetAt) =>
        if e.openedAt.Some? && resetAt < e.openedAt.value then d == e
        else d.state == Closed && d.reopenCount == 0
  {
    hide OpenDurationMs;
  }

  function After(cs: seq<TimedChange>, p: Params): Entry {
    if cs == [] then CLOSED else Applied(After(cs[..|cs| - 1], p), cs[|cs| - 1], p)
  }

  /** When the breaker last became anything but closed, read off the history alone. */
  function LeftClosedAt(cs: seq<TimedChange>, p: Params): Option<int> {
    if cs == [] then None
    else
      var n := |cs| - 1;
      var before, now := After(cs[..n], p), After(cs, p);
      if now.state == Closed then None
      else if before.state == Closed then Some(cs[n].now)
      else LeftClosedAt(cs[..n], p)
  }

  /** Probe verdicts of failure that took effect since the breaker was last closed. */
  function FailedProbes(cs: seq<TimedChange>, p: Params): nat {
    if cs == [] then 0
    else
      var n := |cs| - 1;
      var before := After(cs[..n], p);
      var c := cs[n].change;
      if After(cs, p).state == Closed then 0
      else FailedProbes(cs[..n], p)
           + if c.Complete? && !c.success && Holds(before, c.token) then 1 else 0
  }

  /** The instant of the latest opening or re-opening of the current streak. */
  function LastOpening(cs: seq<TimedChange>, p: Params): Option<int> {
    if cs == [] then None
    else
      var n := |cs| - 1;
      var before, now := After(cs[..n], p), After(cs, p);
      if now.state == Closed then None
      else if (now.state == Open || now.state == Auth) && before.state != now.state then Some(cs[n].now)
      else LastOpening(cs[..n], p)
  }

  /** Everything an entry says about its streak follows from the history. */
  lemma {:induction false} StreakInvariant(cs: seq<TimedChange>, p: Params)
    ensures var e := After(cs, p);
      && (e.state == Closed ==> e == CLOSED)
      && e.reopenCount == FailedProbes(cs, p)
      && e.failingSince == LeftClosedAt(cs, p)
      && e.openedAt == LastOpening(cs, p)
      && (e.state == Closed <==> e.failingSince.None?)
      && (e.state == Closed <==> e.openedAt.None?)
      && (e.state == Open || e.state == HalfOpen ==>
            e.openUntil == Some(e.openedAt.value + OpenDurationMs(e.reopenCount, p)))
      && (e.probeToken.Some? <==> e.probeUntil.Some?)
      && (e.probeToken.Some? ==> e.state == HalfOpen)
  {
    if cs != [] {
      StreakInvariant(cs[..|cs| - 1], p);
    }
  }

  /** In every reachable entry, "probe" is advised exactly when the probe lease can be taken. */
  lemma ReachableAdviceMatchesLease(cs: seq<TimedChange>, p: Params, now: int, token: Token)
    ensures EvaluateBreaker(After(cs, p), now).AdmitProbe?
       <==> AcquireProbe(After(cs, p), now, token, p).Some?
  {
    StreakInvariant(cs, p);
    AdviceMatchesLease(After(cs, p), now, token, p);
  }

  /** `base` doubled `n` times. */
  function Doubled(base: nat, n: nat): nat {
    if n == 0 then base else 2 * Doubled(base, n - 1)
  }

  lemma ProductsDouble(base: nat, power: nat)
    ensures base * (2 * power) == 2 * (base * power)
  {
  }

  lemma {:induction false} DoubledIsProduct(base: nat, n: nat)
    ensures Doubled(base, n) == base * Pow2(n)
    ensures base > 0 ==> Doubled(base, n) > n
  {
    if n > 0 {
      DoubledIsProduct(base, n - 1);
      ProductsDouble(base, Pow2(n - 1));
    }
  }

  /** The open duration is the base period doubled once per failed probe, up to the cap. */
  lemma OpenDurationIs(n: nat, p: Params)
    ensures OpenDurationMs(n, p) ==
      if Doubled(p.baseOpenMs, n) <= p.maxOpenMs then Doubled(p.baseOpenMs, n) else p.maxOpenMs
  {
    DoubledIsProduct(p.baseOpenMs, n);
  }

  /**
   * The first period is the base, or the cap if that is less; each failed probe doubles it until
   * the cap, where it stays.
   */
  lemma OpenDurationDoublesToCap(n: nat, p: Params)
    ensures OpenDurationMs(0, p) == if p.baseOpenMs <= p.maxOpenMs then p.baseOpenMs else p.maxOpenMs
    ensures OpenDurationMs(n, p) <= OpenDurationMs(n + 1, p) <= p.maxOpenMs
    ensures OpenDurationMs(n + 1, p) ==
      if 2 * OpenDurationMs(n, p) <= p.maxOpenMs then 2 * OpenDurationMs(n, p) else p.maxOpenMs
    ensures p.baseOpenMs > 0 && n >= p.maxOpenMs ==> OpenDurationMs(n, p) == p.maxOpenMs
  {
    OpenDurationIs(0, p);
    OpenDurationIs(n, p);
    OpenDurationIs(n + 1, p);
    DoubledIsProduct(p.baseOpenMs, n);
    hide OpenDurationMs, Pow2;
  }

  // ----- Admission over every run -----

  /** Until when the lease of the current probe runs, read off the history alone. */
  function LeaseEnd(cs: seq<TimedChange>, p: Params): Option<int> {
    if cs == [] then None
    else
      var n := |cs| - 1;
      var before, c := After(cs[..n], p), cs[n];
      if After(cs, p).state != HalfOpen then None
      else
        match c.change
        case Acquire(token) =>
          if before.state == Open || LeaseEnd(cs[..n], p).None? || LeaseEnd(cs[..n], p).value <= c.now then
            Some(c.now + p.probeLeaseMs)
          else LeaseEnd(cs[..n], p)
        case Renew(token) => if Holds(before, token) then Some(c.now + p.probeLeaseMs) else LeaseEnd(cs[..n], p)
        case Release(token) => if Holds(before, token) then None else LeaseEnd(cs[..n], p)
        case _ => LeaseEnd(cs[..n], p)
  }

  lemma {:induction false} LeaseFollowsHistory(cs: seq<TimedChange>, p: Params)
    ensures var e := After(cs, p); e.probeUntil == LeaseEnd(cs, p)
  {
    if cs != [] {
      LeaseFollowsHistory(cs[..|cs| - 1], p);
      StreakInvariant(cs[..|cs| - 1], p);
      StreakInvariant(cs, p);
    }
  }

  /** When an open breaker lets a probe through: its opening plus the base period doubled, capped. */
  function ProbeDueAt(cs: seq<TimedChange>, p: Params): int {
    var since := if LastOpening(cs, p).Some? then LastOpening(cs, p).value else 0;
    var period := Doubled(p.baseOpenMs, FailedProbes(cs, p));
    since + if period <= p.maxOpenMs then period else p.maxOpenMs
  }

  /**
   * What a caller is told after any history, by the history alone: closed admits; open denies until
   * the period since its last opening has passed; half-open denies while the lease of the probe
   * runs; past either, exactly one lease is handed out, for a full lease from now.
   */
  lemma AdmissionFollowsHistory(cs: seq<TimedChange>, p: Params, now: int, token: Token)
    ensures var e := After(cs, p);
      var a, lease := AdmissionOf(e, e, now, token, p), AcquireProbe(e, now, token, p);
      match e.state
      case Closed => a == Admitted(None) && lease.None?
      case Auth => a == Denied(true, None) && lease.None?
      case Open =>
        if now < ProbeDueAt(cs, p) then a == Denied(false, Some(ProbeDueAt(cs, p))) && lease.None?
        else a == Admitted(Some(token)) && lease.Some? && IsLeaseOf(lease.value, token, now + p.probeLeaseMs)
      case HalfOpen =>
        if LeaseEnd(cs, p).Some? && now < LeaseEnd(cs, p).value then
          a == Denied(false, LeaseEnd(cs, p)) && lease.None?
        else a == Admitted(Some(token)) && lease.Some? && IsLeaseOf(lease.value, token, now + p.probeLeaseMs)
  {
    StreakInvariant(cs, p);
    LeaseFollowsHistory(cs, p);
    OpenDurationIs(After(cs, p).reopenCount, p);
    hide OpenDurationMs, Doubled, LastOpening, FailedProbes, LeaseEnd, LeftClosedAt;
  }

  predicate IsLeaseOf(e: Entry, token: Token, until: int) {
    e.state == HalfOpen && e.probeToken == Some(token) && e.probeUntil == Some(until)
  }

  // ----- The failure window -----

  datatype Sample = Sample(at: int, failed: bool)

  function Failures(s: seq<Sample>): nat {
    if s == [] then 0 else Failures(s[..|s| - 1]) + if s[|s| - 1].failed then 1 else 0
  }

  /** The samples inside the window, whatever their order of arrival. */
  function Recent(s: seq<Sample>, from: int): seq<Sample> {
    if s == [] then []
    else Recent(s[..|s| - 1], from) + if s[|s| - 1].at >= from then [s[|s| - 1]] else []
  }

  ghost predicate InOrder(s: seq<Sample>) {
    forall i, j :: 0 <= i < j < |s| ==> s[i].at <= s[j].at
  }

  lemma {:induction false} RecentOfOld(s: seq<Sample>, from: int)
    requires forall x :: x in s ==> x.at < from
    ensures Recent(s, from) == []
  {
    if s != [] {
      RecentOfOld(s[..|s| - 1], from);
    }
  }

  lemma {:induction false} RecentJoins(s: seq<Sample>, t: seq<Sample>, from: int)
    requires forall x :: x in t ==> x.at >= from
    ensures Recent(s + t, from) == Recent(s, from) + t
  {
    if t == [] {
      assert s + t == s;
    } else {
      var n := |t| - 1;
      assert (s + t)[..|s + t| - 1] == s + t[..n];
      RecentJoins(s, t[..n], from);
      assert t == t[..n] + [t[n]];
    }
  }

  /** Dropping the leading old samples drops exactly the old ones, as time never runs backwards. */
  lemma PrefixDropIsFilter(s: seq<Sample>, drop: nat, from: int)
    requires InOrder(s) && drop <= |s|
    requires forall i :: 0 <= i < drop ==> s[i].at < from
    requires drop < |s| ==> s[drop].at >= from
    ensures s[drop..] == Recent(s, from)
  {
    assert s == s[..drop] + s[drop..];
    RecentOfOld(s[..drop], from);
    RecentJoins(s[..drop], s[drop..], from);
    hide Recent;
  }

  predicate Trips(s: seq<Sample>, now: int, p: Params) {
    var w := Recent(s, now - p.windowMs);
    |w| >= p.minRequests && |w| > 0 && Failures(w) as real > p.failureRatio * |w| as real
  }

  lemma RatioAbove(part: nat, whole: nat, ratio: real)
    ensures whole > 0 ==> (part as real / whole as real > ratio <==> part as real > ratio * whole as real)
  {
    if whole > 0 {
      assert part as real / whole as real * whole as real == part as real;
    }
  }

  /** The positions of the samples in the window, and of the failed ones among them. */
  ghost function InWindow(s: seq<Sample>, from: int): set<nat> {
    set i: nat | i < |s| && s[i].at >= from
  }

  ghost function FailedInWindow(s: seq<Sample>, from: int): set<nat> {
    set i: nat | i < |s| && s[i].at >= from && s[i].failed
  }

  lemma WindowGrows(s: seq<Sample>, from: int)
    requires s != []
    ensures var n := |s| - 1;
      && InWindow(s, from) == InWindow(s[..n], from) + (if s[n].at >= from then {n} else {})
      && FailedInWindow(s, from)
         == FailedInWindow(s[..n], from) + (if s[n].at >= from && s[n].failed then {n} else {})
      && n !in InWindow(s[..n], from) && n !in FailedInWindow(s[..n], from)
  {
  }

  lemma FailuresGrow(s: seq<Sample>, x: Sample)
    ensures Failures(s + [x]) == Failures(s) + if x.failed then 1 else 0
  {
    assert (s + [x])[..|s|] == s;
  }

  lemma {:induction false} WindowCounts(s: seq<Sample>, from: int)
    ensures |Recent(s, from)| == |InWindow(s, from)|
    ensures Failures(Recent(s, from)) == |FailedInWindow(s, from)|
  {
    if s == [] {
      assert InWindow(s, from) == {} && FailedInWindow(s, from) == {};
    } else {
      var n := |s| - 1;
      WindowCounts(s[..n], from);
      WindowGrows(s, from);
      FailuresGrow(Recent(s[..n], from), s[n]);
      hide Failures, InWindow, FailedInWindow;
      assert s[n].at < from ==> Recent(s, from) == Recent(s[..n], from);
    }
  }

  /** The share of `part` in `whole` is above the ratio. */
  predicate ShareAbove(part: nat, whole: nat, ratio: real) {
    whole > 0 && part as real / whole as real > ratio
  }

  /** The window trips on enough samples in it, of which more than the ratio failed. */
  lemma TripsExactly(s: seq<Sample>, now: int, p: Params)
    ensures var from := now - p.windowMs;
      Trips(s, now, p) <==>
        && |InWindow(s, from)| >= p.minRequests
        && ShareAbove(|FailedInWindow(s, from)|, |InWindow(s, from)|, p.failureRatio)
  {
    var w := Recent(s, now - p.windowMs);
    RatioAbove(Failures(w), |w|, p.failureRatio);
    assert Trips(s, now, p) <==> |w| >= p.minRequests && ShareAbove(Failures(w), |w|, p.failureRatio);
    hide *;
    WindowCounts(s, now - p.windowMs);
  }

  class FailureWindow {
    var entries: seq<Sample>

    constructor ()
      ensures entries == []
    {
      entries := [];
    }

    method Record(at: int, failed: bool)
      modifies this
      ensures entries == old(entries) + [Sample(at, failed)]
    {
      entries := entries + [Sample(at, failed)];
    }

    method Prune(now: int, windowMs: int)
      requires InOrder(entries)
      modifies this
      ensures entries == Recent(old(entries), now - windowMs) && InOrder(entries)
    {
      var from := now - windowMs;
      var drop := 0;
      while drop < |entries| && entries[drop].at < from
        invariant drop <= |entries|
        invariant forall i :: 0 <= i < drop ==> entries[i].at < from
      {
        drop := drop + 1;
      }
      PrefixDropIsFilter(entries, drop, from);
      entries := entries[drop..];
    }

    method Counts() returns (requests: nat, failures: nat)
      ensures requests == |entries| && failures == Failures(entries)
    {
      requests, failures := |entries|, 0;
      var i := 0;
      while i < |entries|
        invariant 0 <= i <= |entries|
        invariant failures == Failures(entries[..i])
      {
        assert entries[..i + 1][..i] == entries[..i];
        if entries[i].failed {
          failures := failures + 1;
        }
        i := i + 1;
      }
      assert entries[..i] == entries;
    }

    /** Trips on a share of failures above the ratio among enough requests inside the window. */
    method ShouldTrip(now: int, p: Params) returns (trip: bool)
      requires InOrder(entries)
      modifies this
      ensures trip == Trips(old(entries), now, p)
      ensures entries == Recent(old(entries), now - p.windowMs) && InOrder(entries)
    {
      hide Recent, Failures, InOrder;
      Prune(now, p.windowMs);
      var requests, failures := Counts();
      RatioAbove(failures, requests, p.failureRatio);
      trip := requests >= p.minRequests && requests > 0
              && failures as real / requests as real > p.failureRatio;
    }

    method Clear()
      modifies this
      ensures entries == []
    {
      entries := [];
    }
  }

  // ----- The coordinator of one engine in one process -----

  /** The stored entry; every update runs under the row lock, on the value stored at that moment. */
  class CircuitStore {
    var entry: Entry
    var resetRequested: Option<int>

    constructor (e: Entry)
      ensures entry == e && resetRequested == None
    {
      entry, resetRequested := e, None;
    }

    /** Other processes may have written anything before this process gets the lock. */
    method Interference()
      modifies this
    {
    }

    method Update(c: TimedChange, p: Params) returns (changed: bool, ghost locked: Entry)
      modifies this
      ensures entry == Applied(locked, c, p) && changed == Transition(locked, c, p).Some?
    {
      Interference();
      locked := entry;
      var next := Transition(entry, c, p);
      changed := next.Some?;
      if changed {
        entry := next.value;
      }
    }
  }

  datatype Admission = Admitted(probeToken: Option<Token>) | Denied(auth: bool, retryAt: Option<int>)

  /**
   * The decision on the entry read and, when that advises a probe, on the entry met under the lock:
   * the lease if it can be taken, else what that entry says now.
   */
  function AdmissionOf(polled: Entry, locked: Entry, now: int, token: Token, p: Params): Admission {
    match EvaluateBreaker(polled, now)
    case AdmitClosed => Admitted(None)
    case Deny(auth, retryAt) => Denied(auth, retryAt)
    case AdmitProbe =>
      if AcquireProbe(locked, now, token, p).Some? then Admitted(Some(token))
      else
        match EvaluateBreaker(locked, now)
        case AdmitClosed => Admitted(None)
        case AdmitProbe => Denied(false, None)
        case Deny(auth, retryAt) => Denied(auth, retryAt)
  }

  /**
   * The entry read decides, unless it advises a probe: then the lease is handed out exactly when
   * the entry met under the lock lets it, and otherwise that entry decides.
   */
  lemma AdmissionDecides(polled: Entry, locked: Entry, now: int, token: Token, p: Params)
    ensures var a := AdmissionOf(polled, locked, now, token, p);
      var probes := polled.state != Closed && AcquireProbe(locked, now, token, p).Some?
                    && EvaluateBreaker(polled, now).AdmitProbe?;
      var judge := if EvaluateBreaker(polled, now).AdmitProbe? then locked else polled;
      && (probes <==> a == Admitted(Some(token)))
      && (!probes ==>
            && (a.Admitted? <==> judge.state == Closed)
            && (a.Admitted? ==> a.probeToken.None?)
            && (a.Denied? ==> (a.auth <==> judge.state == Auth))
            && (judge.state == Open ==> a.Denied? && a.retryAt == Some(OrZero(judge.openUntil))))
  {
  }

  /** A change to closed or open discards the evidence gathered under the state before. */
  ghost predicate EvidenceAfter(previous: Option<Entry>, next: Entry, before: seq<Sample>, after: seq<Sample>) {
    after == if previous.Some? && previous.value.state != next.state && next.state in {Closed, Open} then []
             else before
  }

  class Coordinator {
    const store: CircuitStore
    const p: Params
    const window: FailureWindow
    var cache: Option<Entry>
    var polledAt: int
    var seenReset: Option<int>

    ghost predicate Valid()
      reads this, window
    {
      InOrder(window.entries)
    }

    constructor (s: CircuitStore, params: Params)
      ensures store == s && p == params && fresh(window) && cache == None && Valid()
    {
      store, p := s, params;
      window := new FailureWindow();
      cache, polledAt, seenReset := None, 0, None;
    }

    method Remember(e: Entry, previous: Option<Entry>)
      requires Valid()
      modifies this`cache, window
      ensures Valid() && cache == Some(e)
      ensures EvidenceAfter(previous, e, old(window.entries), window.entries)
    {
      cache := Some(e);
      if previous.Some? && previous.value.state != e.state && (e.state == Closed || e.state == Open) {
        window.Clear();
      }
    }

    method Update(c: TimedChange) returns (changed: bool, ghost locked: Entry)
      requires Valid()
      modifies this`cache, store, window
      ensures Valid()
      ensures store.entry == Applied(locked, c, p) && changed == Transition(locked, c, p).Some?
      ensures cache == Some(store.entry)
      ensures EvidenceAfter(old(cache), store.entry, old(window.entries), window.entries)
    {
      var before := cache;
      changed, locked := store.Update(c, p);
      Remember(store.entry, before);
    }

    /**
     * Read the shared entry unless the cached one is fresh. A reset request not seen before
     * discards the local evidence and closes the engine, unless the current incident is newer.
     */
    method Poll(now: int) returns (ghost requested: Option<int>)
      requires Valid()
      modifies this, store, window
      ensures Valid() && cache.Some?
      ensures old(cache.Some? && now - polledAt < p.pollMs) ==>
        requested == None && cache == old(cache) && seenReset == old(seenReset)
        && store.entry == old(store.entry) && window.entries == old(window.entries)
      ensures !old(cache.Some? && now - polledAt < p.pollMs) ==>
        polledAt == now && cache == Some(store.entry)
      ensures requested.Some? && (old(seenReset).None? || requested.value > old(seenReset).value) ==>
        && window.entries == [] && seenReset == requested
        && (cache.value.state == Closed || OrZero(cache.value.openedAt) > requested.value)
      ensures !(requested.Some? && (old(seenReset).None? || requested.value > old(seenReset).value)) ==>
        window.entries == old(window.entries) && seenReset == old(seenReset)
    {
      requested := None;
      if cache.Some? && now - polledAt < p.pollMs {
        return;
      }
      store.Interference();
      var current, resetAt := store.entry, store.resetRequested;
      requested := resetAt;
      if resetAt.Some? && (seenReset.None? || resetAt.value > seenReset.value) {
        if ApplyReset(current, resetAt.value).Some? {
          var _, _ := store.Update(TimedChange(Reset(resetAt.value), now), p);
          var before := current;
          current := store.entry;
          Remember(current, Some(before));
        }
        window.Clear();
        seenReset := resetAt;
      }
      cache := Some(current);
      polledAt := now;
    }

    /**
     * Admission with a token means the shared entry is this process's half-open lease, live until
     * a full lease from `now`; without one, that the entry read was closed; a denial, that it was not.
     */
    method Admit(now: int, token: Token)
      returns (a: Admission, ghost polled: Entry, ghost locked: Entry, ghost evidence: seq<Sample>)
      requires Valid()
      modifies this, store, window
      ensures Valid() && cache.Some?
      ensures a == AdmissionOf(polled, locked, now, token, p)
      ensures cache == Some(polled) ||
        (EvaluateBreaker(polled, now).AdmitProbe? && cache == Some(store.entry)
         && store.entry == Applied(locked, TimedChange(Acquire(token), now), p))
      ensures a.Admitted? && a.probeToken.Some? ==>
        a.probeToken == Some(token) && Holds(store.entry, token) && cache == Some(store.entry)
        && store.entry.probeUntil == Some(now + p.probeLeaseMs)
      ensures a == Admitted(None) ==> cache.value.state == Closed
      ensures a.Denied? ==> cache.value.state != Closed && (a.auth <==> cache.value.state == Auth)
      ensures a.Denied? && a.retryAt.Some? ==> a.retryAt.value > now
      ensures old(cache.Some? && now - polledAt < p.pollMs) ==>
        polled == old(cache.value) && evidence == old(window.entries)
      ensures EvidenceAfter(Some(polled), cache.value, evidence, window.entries)
    {
      var _ := Poll(now);
      polled, evidence := cache.value, window.entries;
      locked := polled;
      var verdict := EvaluateBreaker(cache.value, now);
      match verdict {
        case AdmitClosed => a := Admitted(None);
        case Deny(auth, retryAt) => a := Denied(auth, retryAt);
        case AdmitProbe =>
          var changed, l := Update(TimedChange(Acquire(token), now));
          locked := l;
          if changed {
            a := Admitted(Some(token));
            return;
          }
          var again := EvaluateBreaker(cache.value, now);
          match again {
            case AdmitClosed => a := Admitted(None);
            case AdmitProbe => a := Denied(false, None);
            case Deny(auth, retryAt) => a := Denied(auth, retryAt);
          }
      }
    }

    /** True exactly when the stored lease was this token's, and then it is extended from `now`. */
    method Renew(token: Token, now: int) returns (held: bool, ghost locked: Entry)
      requires Valid()
      modifies this`cache, store, window
      ensures Valid() && held == Holds(locked, token)
      ensures store.entry == if held then locked.(probeUntil := Some(now + p.probeLeaseMs)) else locked
      ensures cache == Some(store.entry) && EvidenceAfter(old(cache), store.entry, old(window.entries), window.entries)
    {
      held, locked := Update(TimedChange(Change.Renew(token), now));
    }

    /**
     * The verdict of a logical request. A probe's verdict acts only on its own lease; any other
     * failure is counted, and opens a closed breaker exactly when the window trips.
     */
    method Record(success: bool, neutral: bool, probeToken: Option<Token>, now: int)
      returns (ghost locked: Entry)
      requires Valid() && (forall s :: s in window.entries ==> s.at <= now)
      modifies this`cache, store, window
      ensures Valid()
      ensures probeToken.Some? ==>
        store.entry == (if !Holds(locked, probeToken.value) then locked
                        else if neutral then locked.(probeToken := None, probeUntil := None)
                        else if success then CLOSED
                        else CompleteProbe(locked, probeToken.value, false, now, p).value)
      ensures probeToken.Some? ==>
        cache == Some(store.entry) && EvidenceAfter(old(cache), store.entry, old(window.entries), window.entries)
      ensures probeToken.None? ==>
        var trip := !neutral && !success
                    && Trips(old(window.entries) + [Sample(now, true)], now, p);
        && store.entry == (if trip then Applied(locked, TimedChange(Trip, now), p) else old(store.entry))
        && cache == (if trip then Some(store.entry) else old(cache))
        && window.entries == (if neutral then old(window.entries)
                              else if success then old(window.entries) + [Sample(now, false)]
                              else if trip then []
                              else Recent(old(window.entries) + [Sample(now, true)], now - p.windowMs))
    {
      hide Trips, Recent, Failures, OpenDurationMs;
      locked := store.entry;
      if probeToken.Some? {
        if neutral {
          var _, l := Update(TimedChange(Release(probeToken.value), now));
          locked := l;
        } else {
          var _, l := Update(TimedChange(Complete(probeToken.value, success), now));
          locked := l;
        }
        return;
      }
      if neutral {
        return;
      }
      window.Record(now, !success);
      if success {
        return;
      }
      var trip := window.ShouldTrip(now, p);
      if !trip {
        return;
      }
      var _, l := Update(TimedChange(Trip, now));
      locked := l;
      window.Clear();
    }

    method AuthFailure(now: int, credentialActive: bool) returns (ghost locked: Entry)
      requires Valid()
      modifies this`cache, store, window
      ensures Valid()
      ensures credentialActive ==> store.entry.state == Auth
      ensures credentialActive ==> store.entry == Applied(locked, TimedChange(Change.AuthFailure, now), p)
      ensures !credentialActive ==> store.entry == locked
      ensures cache == Some(store.entry) && EvidenceAfter(old(cache), store.entry, old(window.entries), window.entries)
    {
      if credentialActive {
        var _, l := Update(TimedChange(Change.AuthFailure, now));
        locked := l;
      } else {
        store.Interference();
        locked := store.entry;
        Remember(store.entry, cache);
      }
    }
  }
}
