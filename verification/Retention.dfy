/**
 * Backup retention: which backups stay and why, and why pruning again and again keeps exactly what
 * one prune of the whole history would.
 */
module Retention {
  import opened Prelude
  import opened TopK
  import opened Calendar

  datatype Reason = Daily | Weekly | Monthly | LastRestoreTested | Future

  datatype Bucket = EveryDay | Sundays | FirstDays

  const FAILED_BACKUP_GRACE_MS := 2 * 24 * 3600000
  const LEDGER_KEEP_DAYS := 31 * 6 + 7

  function KeepCount(b: Bucket): nat {
    match b
    case EveryDay => 7
    case Sundays => 4
    case FirstDays => 6
  }

  predicate InBucket(b: Bucket, day: nat) {
    match b
    case EveryDay => true
    case Sundays => Sunday(day)
    case FirstDays => FirstOfMonth(day)
  }

  predicate Current(id: Id, now: int) {
    Time(id) <= now
  }

  /** Whether a deletion-ledger copy named for backup `id` has outlived its retention. */
  predicate LedgerExpired(id: Id, now: int) {
    ValidId(id) && now - Time(id) > LEDGER_KEEP_DAYS * 86400000
  }

  /** Whether a failed backup's leftovers may be deleted. */
  predicate FailedExpired(id: Id, now: int) {
    ValidId(id) && now - Time(id) > FAILED_BACKUP_GRACE_MS
  }

  // ----- Specification -----

  predicate HasCurrent(ids: set<Id>, now: int, day: nat) {
    exists id :: id in ids && Current(id, now) && DayOf(id) == day
  }

  /** The dates of a bucket that have a current backup. */
  function DaysWith(ids: set<Id>, now: int, b: Bucket): (days: set<nat>)
    ensures forall day :: day in days <==> InBucket(b, day) && HasCurrent(ids, now, day)
  {
    set id | id in ids && Current(id, now) && InBucket(b, DayOf(id)) :: DayOf(id)
  }

  function Rank(day: nat): int { day }

  /** The most recent dates of a bucket. */
  function TopDays(ids: set<Id>, now: int, b: Bucket): set<nat> {
    Top(DaysWith(ids, now, b), KeepCount(b), Rank)
  }

  predicate NewestOfDay(ids: set<Id>, now: int, id: Id) {
    && id in ids && Current(id, now)
    && (forall x :: x in ids && Current(x, now) && DayOf(x) == DayOf(id) ==> x <= id)
  }

  predicate NewestTested(ids: set<Id>, tested: set<Id>, id: Id) {
    id in ids && id in tested && forall x :: x in ids && x in tested ==> x <= id
  }

  predicate Earns(r: Reason, ids: set<Id>, tested: set<Id>, now: int, id: Id) {
    id in ids &&
    match r
    case Daily => Current(id, now) && DayOf(id) in TopDays(ids, now, EveryDay)
    case Weekly => NewestOfDay(ids, now, id) && DayOf(id) in TopDays(ids, now, Sundays)
    case Monthly => NewestOfDay(ids, now, id) && DayOf(id) in TopDays(ids, now, FirstDays)
    case LastRestoreTested => NewestTested(ids, tested, id)
    case Future => !Current(id, now)
  }

  /** Every reason a backup has to stay. */
  function Reasons(ids: set<Id>, tested: set<Id>, now: int, id: Id): set<Reason> {
    set r: Reason | Earns(r, ids, tested, now, id)
  }

  function Keep(ids: set<Id>, tested: set<Id>, now: int): (kept: map<Id, set<Reason>>)
    ensures kept.Keys <= ids
  {
    map id | id in ids && Reasons(ids, tested, now, id) != {} :: Reasons(ids, tested, now, id)
  }

  lemma EarningIsStaying(r: Reason, ids: set<Id>, tested: set<Id>, now: int, id: Id)
    requires Earns(r, ids, tested, now, id)
    ensures id in Keep(ids, tested, now)
  {
    assert id in ids;
    hide Earns;
    assert r in Reasons(ids, tested, now, id);
  }

  // ----- The policy, in numbers -----

  /** The dates with a backup, not from the future, later than `day`. */
  ghost function LaterDates(ids: set<Id>, now: int, day: nat): set<nat> {
    set id | id in ids && Time(id) <= now && DayOf(id) > day :: DayOf(id)
  }

  /** The last backup of its date. */
  predicate LastOfItsDate(ids: set<Id>, now: int, id: Id) {
    Time(id) <= now && forall x :: x in ids && DayOf(x) == DayOf(id) && id < x ==> Time(x) > now
  }

  /**
   * Why a backup stays: its date is among the 7 latest with a backup; it is the last of one of the 4
   * latest such Sundays, or of the 6 latest such firsts of a month; it is the latest of those whose
   * restore was tested; or it is from the future.
   */
  lemma ReasonsAre(ids: set<Id>, tested: set<Id>, now: int, id: Id)
    requires id in ids
    ensures var why := Reasons(ids, tested, now, id);
      var later := LaterDates(ids, now, DayOf(id));
      && (Daily in why <==> Time(id) <= now && |later| < 7)
      && (Weekly in why <==>
            LastOfItsDate(ids, now, id) && Sunday(DayOf(id)) && |set day | day in later && Sunday(day)| < 4)
      && (Monthly in why <==>
            LastOfItsDate(ids, now, id) && DayOf(id) % 100 == 1 && |set day | day in later && day % 100 == 1| < 6)
      && (LastRestoreTested in why <==> id in tested && forall x :: x in ids && x in tested ==> x <= id)
      && (Future in why <==> Time(id) > now)
  {
    hide Time, DayOf, Sunday;
    var day, later := DayOf(id), LaterDates(ids, now, DayOf(id));
    LaterAre(ids, now, day, EveryDay);
    LaterAre(ids, now, day, Sundays);
    LaterAre(ids, now, day, FirstDays);
    assert (set d | d in later && InBucket(EveryDay, d)) == later;
    assert (set d | d in later && InBucket(Sundays, d)) == set d | d in later && Sunday(d);
    assert (set d | d in later && InBucket(FirstDays, d)) == set d | d in later && d % 100 == 1;
    assert Current(id, now) ==> HasCurrent(ids, now, day);
    hide LaterDates, Above, DaysWith;
  }

  lemma LaterAre(ids: set<Id>, now: int, day: nat, b: Bucket)
    ensures Above(DaysWith(ids, now, b), Rank, day) == set d | d in LaterDates(ids, now, day) && InBucket(b, d)
  {
    hide Time, DayOf, InBucket;
    forall d
      ensures d in Above(DaysWith(ids, now, b), Rank, day) <==> d in LaterDates(ids, now, day) && InBucket(b, d)
    {
      if d in LaterDates(ids, now, day) && InBucket(b, d) {
        assert HasCurrent(ids, now, d);
      }
    }
  }

  /** The leftovers of a failed backup go after two days, a ledger copy after 193. */
  lemma GracesAre(id: Id, now: int)
    ensures FailedExpired(id, now) <==> ValidId(id) && now - Time(id) > 2 * 86400000
    ensures LedgerExpired(id, now) <==> ValidId(id) && now - Time(id) > 193 * 86400000
  {
    hide Time, ValidId;
  }

  // ----- Pruning twice -----

  lemma MoreDaysAbove(few: set<nat>, all: set<nat>, day: nat, k: nat)
    requires few <= all && day in few && day in Top(all, k, Rank)
    ensures day in Top(few, k, Rank)
  {
    SubsetCardinality(Above(few, Rank, day), Above(all, Rank, day));
  }

  lemma DaysGrow(s: set<Id>, all: set<Id>, now1: int, now2: int, b: Bucket)
    requires s <= all && now1 <= now2
    ensures DaysWith(s, now1, b) <= DaysWith(all, now2, b)
  {
  }

  /** A date among the most recent of a larger, later set was among them before. */
  lemma WasTop(s: set<Id>, all: set<Id>, now1: int, now2: int, b: Bucket, x: Id)
    requires s <= all && now1 <= now2 && x in s && Current(x, now1)
    requires DayOf(x) in TopDays(all, now2, b)
    ensures DayOf(x) in TopDays(s, now1, b)
  {
    DaysGrow(s, all, now1, now2, b);
    assert HasCurrent(s, now1, DayOf(x));
    MoreDaysAbove(DaysWith(s, now1, b), DaysWith(all, now2, b), DayOf(x), KeepCount(b));
  }

  function Backwards(id: Id): int { 0 - id }

  lemma GreatestExists(ids: set<Id>) returns (y: Id)
    requires ids != {}
    ensures y in ids && forall x :: x in ids ==> x <= y
  {
    y := LeastExists(ids, Backwards);
    assert forall x :: x in ids ==> Backwards(y) <= Backwards(x);
  }

  /** A newest backup of a date exists. */
  lemma NewestExists(ids: set<Id>, now: int, x: Id) returns (y: Id)
    requires x in ids && Current(x, now)
    ensures NewestOfDay(ids, now, y) && DayOf(y) == DayOf(x)
  {
    hide Time, DayOf;
    var same := set z | z in ids && Current(z, now) && DayOf(z) == DayOf(x);
    assert x in same;
    y := GreatestExists(same);
    assert forall z :: z in ids && Current(z, now) && DayOf(z) == DayOf(x) ==> z in same;
  }

  function ReasonOf(b: Bucket): Reason {
    match b
    case EveryDay => Daily
    case Sundays => Weekly
    case FirstDays => Monthly
  }

  /** Whatever counts for a bucket at the later prune survived the earlier one. */
  lemma NewestSurvives(s: set<Id>, all: set<Id>, t1: set<Id>, now1: int, now2: int, b: Bucket, x: Id)
    requires s <= all && now1 <= now2 && x in s
    requires NewestOfDay(all, now2, x) && DayOf(x) in TopDays(all, now2, b)
    ensures x in Keep(s, t1, now1)
  {
    hide TopDays, Time, DayOf;
    if Current(x, now1) {
      WasTop(s, all, now1, now2, b, x);
      EarningIsStaying(ReasonOf(b), s, t1, now1, x);
    } else {
      EarningIsStaying(Future, s, t1, now1, x);
    }
  }

  lemma DailySurvives(s: set<Id>, all: set<Id>, t1: set<Id>, now1: int, now2: int, x: Id)
    requires s <= all && now1 <= now2 && x in s
    requires Current(x, now2) && DayOf(x) in TopDays(all, now2, EveryDay)
    ensures x in Keep(s, t1, now1)
  {
    hide TopDays, Time, DayOf;
    if Current(x, now1) {
      WasTop(s, all, now1, now2, EveryDay, x);
      EarningIsStaying(Daily, s, t1, now1, x);
    } else {
      EarningIsStaying(Future, s, t1, now1, x);
    }
  }

  lemma TopDaysSurvive(s: set<Id>, t1: set<Id>, now1: int, now2: int, b: Bucket)
    requires now1 <= now2
    ensures TopDays(s, now2, b) <= DaysWith(Keep(s, t1, now1).Keys, now2, b)
  {
    hide Keep, Time, DayOf;
    forall day | day in TopDays(s, now2, b)
      ensures day in DaysWith(Keep(s, t1, now1).Keys, now2, b)
    {
      assert HasCurrent(s, now2, day);
      var x :| x in s && Current(x, now2) && DayOf(x) == day;
      var y := NewestExists(s, now2, x);
      NewestSurvives(s, s, t1, now1, now2, b, y);
    }
  }

  /** The recent dates come out the same as from the whole history. */
  lemma SameTopDays(s: set<Id>, n: set<Id>, t1: set<Id>, now1: int, now2: int, b: Bucket)
    requires now1 <= now2
    ensures TopDays(Keep(s, t1, now1).Keys + n, now2, b) == TopDays(s + n, now2, b)
  {
    var k := Keep(s, t1, now1).Keys;
    TopDaysSurvive(s, t1, now1, now2, b);
    hide Keep, Time, DayOf, Top, InBucket;
    DaysGrow(k, s, now2, now2, b);
    DaysOfUnion(k, n, now2, b);
    DaysOfUnion(s, n, now2, b);
    hide DaysWith;
    TopAbsorbs(DaysWith(s, now2, b), DaysWith(k, now2, b), DaysWith(n, now2, b), KeepCount(b), Rank);
  }

  lemma DaysOfUnion(s: set<Id>, n: set<Id>, now: int, b: Bucket)
    ensures DaysWith(s + n, now, b) == DaysWith(s, now, b) + DaysWith(n, now, b)
  {
    hide Time, DayOf, InBucket;
  }

  lemma SameNewest(s: set<Id>, n: set<Id>, t1: set<Id>, now1: int, now2: int, b: Bucket, x: Id)
    requires now1 <= now2 && DayOf(x) in TopDays(s + n, now2, b)
    ensures NewestOfDay(Keep(s, t1, now1).Keys + n, now2, x) <==> NewestOfDay(s + n, now2, x)
  {
    hide Keep, Time, DayOf, TopDays;
    var k := Keep(s, t1, now1).Keys;
    if x in s + n && Current(x, now2) {
      var z := NewestExists(s + n, now2, x);
      if z in s {
        NewestSurvives(s, s + n, t1, now1, now2, b, z);
      }
      assert z in k + n;
    }
  }

  lemma SameTested(s: set<Id>, n: set<Id>, t1: set<Id>, t2: set<Id>, now1: int, x: Id)
    requires t1 <= t2 && t2 * s <= t1 + Keep(s, t1, now1).Keys + n
    ensures NewestTested(Keep(s, t1, now1).Keys + n, t2, x) <==> NewestTested(s + n, t2, x)
  {
    var k := Keep(s, t1, now1).Keys;
    var marked := (s + n) * t2;
    hide Keep;
    assert k <= s;
    assert forall y :: y in s + n && y in t2 ==> y in marked;
    if marked != {} {
      var z := GreatestExists(marked);
      if z in s && z !in k + n {
        assert z in t2 * s && z in t1;
        assert NewestTested(s, t1, z);
        EarningIsStaying(LastRestoreTested, s, t1, now1, z);
      }
      assert z in k + n && z in s + n && z in t2;
    }
  }

  /**
   * Pruning early changes nothing: what a later prune keeps, and for which reasons, is what it
   * would have kept of everything, given that restore-test markers stay and are only added to
   * backups that still exist.
   */
  lemma PruningIsHistoryIndependent(
    s: set<Id>, n: set<Id>, t1: set<Id>, t2: set<Id>, now1: int, now2: int)
    requires now1 <= now2 && t1 <= t2 && t2 * s <= t1 + Keep(s, t1, now1).Keys + n
    ensures Keep(Keep(s, t1, now1).Keys + n, t2, now2) == Keep(s + n, t2, now2)
  {
    var k := Keep(s, t1, now1).Keys;
    forall x, r: Reason
      ensures Earns(r, k + n, t2, now2, x) <==> Earns(r, s + n, t2, now2, x)
    {
      SameEarnings(s, n, t1, t2, now1, now2, x, r);
    }
    hide Earns;
    forall x
      ensures Reasons(k + n, t2, now2, x) == Reasons(s + n, t2, now2, x)
    {
    }
    forall x | x in s + n && x !in k + n
      ensures Reasons(s + n, t2, now2, x) == {}
    {
      forall r: Reason ensures !Earns(r, s + n, t2, now2, x) {
        NoEarnings(r, k + n, t2, now2, x);
      }
    }
    hide Reasons;
    assert k + n <= s + n;
  }

  lemma NoEarnings(r: Reason, ids: set<Id>, tested: set<Id>, now: int, x: Id)
    requires x !in ids
    ensures !Earns(r, ids, tested, now, x)
  {
  }

  lemma SameEarnings(
    s: set<Id>, n: set<Id>, t1: set<Id>, t2: set<Id>, now1: int, now2: int, x: Id, r: Reason)
    requires now1 <= now2 && t1 <= t2 && t2 * s <= t1 + Keep(s, t1, now1).Keys + n
    ensures Earns(r, Keep(s, t1, now1).Keys + n, t2, now2, x) <==> Earns(r, s + n, t2, now2, x)
  {
    hide Time, DayOf, TopDays;
    var k := Keep(s, t1, now1).Keys;
    match r {
      case Daily =>
        SameTopDays(s, n, t1, now1, now2, EveryDay);
        if x in s && Earns(Daily, s + n, t2, now2, x) {
          DailySurvives(s, s + n, t1, now1, now2, x);
        }
      case Weekly =>
        SameTopDays(s, n, t1, now1, now2, Sundays);
        if DayOf(x) in TopDays(s + n, now2, Sundays) {
          SameNewest(s, n, t1, now1, now2, Sundays, x);
        }
        hide Keep, NewestOfDay;
        NewestIsThere(k + n, now2, x);
        NewestIsThere(s + n, now2, x);
      case Monthly =>
        SameTopDays(s, n, t1, now1, now2, FirstDays);
        if DayOf(x) in TopDays(s + n, now2, FirstDays) {
          SameNewest(s, n, t1, now1, now2, FirstDays, x);
        }
        hide Keep, NewestOfDay;
        NewestIsThere(k + n, now2, x);
        NewestIsThere(s + n, now2, x);
      case LastRestoreTested =>
        SameTested(s, n, t1, t2, now1, x);
      case Future =>
        if x in s && !Current(x, now2) {
          EarningIsStaying(Future, s, t1, now1, x);
        }
    }
  }

  lemma NewestIsThere(ids: set<Id>, now: int, x: Id)
    ensures NewestOfDay(ids, now, x) ==> x in ids
  {
  }

  // ----- Any sequence of prunes -----

  /** Backups and restore-test markers since the previous prune, and when this one runs. */
  datatype Prune = Prune(newIds: set<Id>, newTested: set<Id>, now: int)

  function Last(ps: seq<Prune>): Prune
    requires ps != []
  {
    ps[|ps| - 1]
  }

  function Init(ps: seq<Prune>): seq<Prune>
    requires ps != []
  {
    ps[..|ps| - 1]
  }

  function Ever(ps: seq<Prune>): set<Id> {
    if ps == [] then {} else Ever(Init(ps)) + Last(ps).newIds
  }

  function Tested(ps: seq<Prune>): set<Id> {
    if ps == [] then {} else Tested(Init(ps)) + Last(ps).newTested
  }

  function Survivors(ps: seq<Prune>): set<Id> {
    if ps == [] then {} else Keep(Survivors(Init(ps)) + Last(ps).newIds, Tested(ps), Last(ps).now).Keys
  }

  /** Time does not run backwards, and only a backup that exists can be restore-tested. */
  predicate Plausible(ps: seq<Prune>) {
    ps != [] ==>
      && Plausible(Init(ps))
      && Last(ps).newTested <= Survivors(Init(ps)) + Last(ps).newIds
      && (|ps| > 1 ==> Last(Init(ps)).now <= Last(ps).now)
  }

  /** Any number of prunes keeps what the last one alone would have kept of every backup ever made. */
  lemma {:induction false} RepeatedPruningKeepsTheSame(ps: seq<Prune>)
    requires ps != [] && Plausible(ps)
    ensures Keep(Survivors(Init(ps)) + Last(ps).newIds, Tested(ps), Last(ps).now)
         == Keep(Ever(ps), Tested(ps), Last(ps).now)
  {
    hide Keep;
    var q, p := Init(ps), Last(ps);
    if q == [] {
      assert Survivors(q) + p.newIds == Ever(ps);
    } else {
      RepeatedPruningKeepsTheSame(q);
      PruningIsHistoryIndependent(Ever(q), p.newIds, Tested(q), Tested(ps), Last(q).now, p.now);
    }
  }

  /** The newest backup of all is never pruned. */
  lemma NewestIsKept(ids: set<Id>, tested: set<Id>, now: int, m: Id)
    requires m in ids && forall x :: x in ids ==> x <= m
    ensures m in Keep(ids, tested, now)
  {
    hide Time, Keep;
    if Current(m, now) {
      var days := DaysWith(ids, now, EveryDay);
      assert HasCurrent(ids, now, DayOf(m));
      forall day | day in days ensures day <= DayOf(m) {
        assert HasCurrent(ids, now, day);
      }
      assert Above(days, Rank, DayOf(m)) == {};
      EarningIsStaying(Daily, ids, tested, now, m);
    } else {
      EarningIsStaying(Future, ids, tested, now, m);
    }
  }

  // ----- The plan as the source computes it -----

  predicate Ascending(q: seq<nat>) {
    forall i, j :: 0 <= i < j < |q| ==> q[i] < q[j]
  }

  function Elements(q: seq<nat>): set<nat> {
    set x | x in q
  }

  lemma {:induction false} AscendingCount(q: seq<nat>)
    requires Ascending(q)
    ensures |Elements(q)| == |q|
  {
    if q != [] {
      var n := |q| - 1;
      AscendingCount(q[..n]);
      assert Elements(q) == Elements(q[..n]) + {q[n]};
    }
  }

  method Least(s: set<nat>) returns (m: nat)
    requires s != {}
    ensures m in s && forall x :: x in s ==> m <= x
  {
    LeastIsThere(s);
    m :| m in s && forall x :: x in s ==> m <= x;
  }

  lemma LeastIsThere(s: set<nat>)
    requires s != {}
    ensures exists m :: m in s && forall x :: x in s ==> m <= x
  {
    var m := LeastExists(s, Rank);
    assert forall x :: x in s ==> Rank(m) <= Rank(x);
  }

  lemma AppendAscending(q: seq<nat>, m: nat)
    requires Ascending(q) && forall x :: x in q ==> x < m
    ensures Ascending(q + [m]) && Elements(q + [m]) == Elements(q) + {m}
  {
    assert forall i :: 0 <= i < |q| ==> q[i] in q;
  }

  method Sorted(s: set<nat>) returns (q: seq<nat>)
    ensures Ascending(q) && Elements(q) == s
  {
    hide Ascending, Elements;
    q := [];
    NothingToSort();
    var rest := s;
    while rest != {}
      invariant Ascending(q) && Elements(q) + rest == s
      invariant forall x :: x in q ==> forall y :: y in rest ==> x < y
      decreases |rest|
    {
      var m := Least(rest);
      AppendAscending(q, m);
      q := q + [m];
      rest := rest - {m};
    }
  }

  lemma NothingToSort()
    ensures Ascending([]) && Elements([]) == {}
  {
  }

  /** The last `k` of an ascending list are the top `k` of its set. */
  lemma TopIsTheEnd(q: seq<nat>, k: nat, i: nat)
    requires Ascending(q) && i < |q|
    ensures q[i] in Top(Elements(q), k, Rank) <==> |q| - i <= k
  {
    var above := Above(Elements(q), Rank, q[i]);
    assert above == Elements(q[i + 1..]) by {
      forall x ensures x in above <==> x in Elements(q[i + 1..]) {
        if x in above {
          var j :| 0 <= j < |q| && q[j] == x;
          assert q[i + 1..][j - i - 1] == x;
        }
      }
    }
    AscendingCount(q[i + 1..]);
  }

  lemma ElementsOf(q: seq<nat>, x: nat)
    ensures Elements(q + [x]) == Elements(q) + {x} == Elements([x] + q)
  {
  }

  function Valid(input: seq<Id>): set<Id> {
    set id | id in input && ValidId(id)
  }

  function CurrentOf(ids: set<Id>, now: int): set<Id> {
    set id | id in ids && Current(id, now)
  }

  type Plan = map<Id, set<Reason>>

  function Marked(keep: Plan, who: set<Id>, r: Reason): Plan {
    map id | id in keep :: if id in who then keep[id] + {r} else keep[id]
  }

  /** The distinct dates of a bucket, newest first, as many as it keeps. */
  method RecentDays(current: seq<Id>, b: Bucket, ghost ids: set<Id>, ghost now: int) returns (days: seq<nat>)
    requires Elements(current) == CurrentOf(ids, now)
    ensures Elements(days) == TopDays(ids, now, b)
  {
    hide Time, Sunday;
    var all := set id | id in current && InBucket(b, DayOf(id)) :: DayOf(id);
    DatesOf(current, b, ids, now, all);
    hide DaysWith, Above, Top, Ascending, Elements;
    var q := Sorted(all);
    var i := |q|;
    days := [];
    while i > 0 && |days| < KeepCount(b)
      invariant 0 <= i <= |q| && |days| == |q| - i <= KeepCount(b)
      invariant Elements(days) == Elements(q[i..])
    {
      i := i - 1;
      days := days + [q[i]];
      assert q[i..] == [q[i]] + q[i + 1..];
      ElementsOf(q[i + 1..], q[i]);
      ElementsOf(days[..|days| - 1], q[i]);
      assert days == days[..|days| - 1] + [q[i]];
    }
    EndIsTop(q, KeepCount(b), i);
  }

  lemma DatesOf(current: seq<Id>, b: Bucket, ids: set<Id>, now: int, all: set<nat>)
    requires Elements(current) == CurrentOf(ids, now)
    requires all == set id | id in current && InBucket(b, DayOf(id)) :: DayOf(id)
    ensures all == DaysWith(ids, now, b)
  {
    hide Time, DayOf, InBucket;
    assert forall id :: id in current <==> id in Elements(current);
  }

  lemma EndIsTop(q: seq<nat>, k: nat, i: nat)
    requires Ascending(q) && i == MaxI(0, |q| - k)
    ensures Elements(q[i..]) == Top(Elements(q), k, Rank)
  {
    hide Top;
    forall x
      ensures x in Elements(q[i..]) <==> x in Top(Elements(q), k, Rank)
    {
      TopIsInSet(Elements(q), k, x);
      if x in q {
        var j :| 0 <= j < |q| && q[j] == x;
        TopIsTheEnd(q, k, j);
        if j >= i {
          assert q[i..][j - i] == x;
        }
      }
    }
  }

  lemma TopIsInSet(s: set<nat>, k: nat, x: nat)
    ensures x in Top(s, k, Rank) ==> x in s
  {
  }

  method NewestOf(current: seq<Id>, day: nat) returns (newest: Option<Id>)
    ensures newest.Some? ==>
      newest.value in current && DayOf(newest.value) == day
      && (forall id :: id in current && DayOf(id) == day ==> id <= newest.value)
    ensures newest.None? ==> forall id :: id in current ==> DayOf(id) != day
  {
    hide DayOf;
    newest := None;
    for i := 0 to |current|
      invariant newest.Some? ==>
        newest.value in current[..i] && DayOf(newest.value) == day
        && (forall id :: id in current[..i] && DayOf(id) == day ==> id <= newest.value)
      invariant newest.None? ==> forall id :: id in current[..i] ==> DayOf(id) != day
    {
      assert current[..i + 1] == current[..i] + [current[i]];
      if DayOf(current[i]) == day && (newest.None? || current[i] > newest.value) {
        newest := Some(current[i]);
      }
    }
    assert current[..|current|] == current;
  }

  function OnDays(current: seq<Id>, days: seq<nat>): set<Id> {
    set id | id in current && DayOf(id) in days
  }

  function NewestOn(current: seq<Id>, days: seq<nat>): set<Id> {
    set id | id in current && DayOf(id) in days
             && forall x :: x in current && DayOf(x) == DayOf(id) ==> x <= id
  }

  method MarkOne(keep: Plan, id: Id, r: Reason) returns (out: Plan)
    ensures out == Marked(keep, {id}, r)
  {
    out := keep;
    if id in keep {
      out := keep[id := keep[id] + {r}];
    }
  }

  lemma MarkedTwice(keep: Plan, a: set<Id>, b: set<Id>, r: Reason)
    ensures Marked(Marked(keep, a, r), b, r) == Marked(keep, a + b, r)
    ensures Marked(keep, {}, r) == keep
  {
  }

  method MarkDay(keep: Plan, current: seq<Id>, day: nat) returns (out: Plan)
    ensures out == Marked(keep, OnDays(current, [day]), Daily)
  {
    hide Marked, DayOf;
    out := keep;
    MarkedTwice(keep, {}, {}, Daily);
    assert OnDays(current[..0], [day]) == {};
    for i := 0 to |current|
      invariant out == Marked(keep, OnDays(current[..i], [day]), Daily)
    {
      var done := OnDays(current[..i], [day]);
      assert current[..i + 1] == current[..i] + [current[i]];
      if DayOf(current[i]) == day {
        out := MarkOne(out, current[i], Daily);
        MarkedTwice(keep, done, {current[i]}, Daily);
        assert OnDays(current[..i + 1], [day]) == done + {current[i]};
      } else {
        assert OnDays(current[..i + 1], [day]) == done;
      }
    }
    assert current[..|current|] == current;
  }

  method MarkDaily(keep: Plan, current: seq<Id>, days: seq<nat>) returns (out: Plan)
    ensures out == Marked(keep, OnDays(current, days), Daily)
  {
    hide Marked, DayOf;
    out := keep;
    MarkedTwice(keep, {}, {}, Daily);
    assert OnDays(current, days[..0]) == {};
    for i := 0 to |days|
      invariant out == Marked(keep, OnDays(current, days[..i]), Daily)
    {
      out := MarkDay(out, current, days[i]);
      MarkedTwice(keep, OnDays(current, days[..i]), OnDays(current, [days[i]]), Daily);
      assert OnDays(current, days[..i + 1]) == OnDays(current, days[..i]) + OnDays(current, [days[i]]);
    }
    assert days[..|days|] == days;
  }

  method MarkNewest(keep: Plan, current: seq<Id>, days: seq<nat>, r: Reason) returns (out: Plan)
    ensures out == Marked(keep, NewestOn(current, days), r)
  {
    hide Marked, DayOf;
    out := keep;
    MarkedTwice(keep, {}, {}, r);
    assert NewestOn(current, days[..0]) == {};
    for i := 0 to |days|
      invariant out == Marked(keep, NewestOn(current, days[..i]), r)
    {
      var newest := NewestOf(current, days[i]);
      var done := NewestOn(current, days[..i]);
      if newest.Some? {
        out := MarkOne(out, newest.value, r);
        MarkedTwice(keep, done, {newest.value}, r);
        assert NewestOn(current, days[..i + 1]) == done + {newest.value};
      } else {
        assert NewestOn(current, days[..i + 1]) == done;
      }
    }
    assert days[..|days|] == days;
  }

  /** The backups that count: valid ids, oldest first, without repeats. */
  method SortedIds(input: seq<Id>) returns (ids: seq<Id>)
    ensures Ascending(ids) && Elements(ids) == Valid(input)
  {
    hide ValidId;
    var times: set<Id> := {};
    for i := 0 to |input|
      invariant times == Valid(input[..i])
    {
      assert input[..i + 1] == input[..i] + [input[i]];
      if ValidId(input[i]) {
        times := times + {input[i]};
      }
    }
    assert input[..|input|] == input;
    ids := Sorted(times);
  }

  method CurrentIds(ids: seq<Id>, now: int) returns (current: seq<Id>)
    ensures Elements(current) == CurrentOf(Elements(ids), now)
  {
    hide Time;
    current := [];
    for i := 0 to |ids|
      invariant Elements(current) == CurrentOf(Elements(ids[..i]), now)
    {
      assert ids[..i + 1] == ids[..i] + [ids[i]];
      ElementsOf(ids[..i], ids[i]);
      ElementsOf(current, ids[i]);
      if Current(ids[i], now) {
        current := current + [ids[i]];
      }
    }
    assert ids[..|ids|] == ids;
  }

  /** The newest restore-tested backup among those listed. */
  method MarkTested(keep: Plan, ids: seq<Id>, restoreTested: set<Id>) returns (out: Plan)
    requires Ascending(ids)
    ensures out == Marked(keep, EarnedTested(Elements(ids), restoreTested), LastRestoreTested)
  {
    var tested: Option<Id> := None;
    for i := 0 to |ids|
      invariant tested.None? ==> forall j :: 0 <= j < i ==> ids[j] !in restoreTested
      invariant tested.Some? ==>
        tested.value in ids[..i] && tested.value in restoreTested
        && (forall j :: 0 <= j < i && ids[j] in restoreTested ==> ids[j] <= tested.value)
    {
      if ids[i] in restoreTested {
        tested := Some(ids[i]);
      }
    }
    hide Marked;
    MarkedTwice(keep, {}, {}, LastRestoreTested);
    if tested.None? {
      assert EarnedTested(Elements(ids), restoreTested) == {};
      out := keep;
    } else {
      assert EarnedTested(Elements(ids), restoreTested) == {tested.value};
      out := MarkOne(keep, tested.value, LastRestoreTested);
    }
  }

  function EarnedTested(ids: set<Id>, tested: set<Id>): set<Id> {
    set id | id in ids && NewestTested(ids, tested, id)
  }

  function NotCurrent(ids: set<Id>, now: int): set<Id> {
    set id | id in ids && !Current(id, now)
  }

  method MarkFuture(keep: Plan, ids: seq<Id>, now: int) returns (out: Plan)
    ensures out == Marked(keep, NotCurrent(Elements(ids), now), Future)
  {
    hide Marked, Time;
    out := keep;
    MarkedTwice(keep, {}, {}, Future);
    assert NotCurrent(Elements(ids[..0]), now) == {};
    for i := 0 to |ids|
      invariant out == Marked(keep, NotCurrent(Elements(ids[..i]), now), Future)
    {
      var done := NotCurrent(Elements(ids[..i]), now);
      assert ids[..i + 1] == ids[..i] + [ids[i]];
      if !Current(ids[i], now) {
        out := MarkOne(out, ids[i], Future);
        MarkedTwice(keep, done, {ids[i]}, Future);
        assert NotCurrent(Elements(ids[..i + 1]), now) == done + {ids[i]};
      } else {
        assert NotCurrent(Elements(ids[..i + 1]), now) == done;
      }
    }
    assert ids[..|ids|] == ids;
  }

  function Unmarked(ids: set<Id>): Plan {
    map id | id in ids :: {}
  }

  function ReasonsOf(ids: set<Id>, tested: set<Id>, now: int): Plan {
    map id | id in ids :: Reasons(ids, tested, now, id)
  }

  /** What the five rounds of marks amount to. */
  function AllMarks(ids: set<Id>, d: set<Id>, w: set<Id>, m: set<Id>, t: set<Id>, f: set<Id>): Plan {
    Marked(Marked(Marked(Marked(Marked(Unmarked(ids), d, Daily), w, Weekly), m, Monthly), t, LastRestoreTested),
           f, Future)
  }

  lemma MarksOf(ids: set<Id>, d: set<Id>, w: set<Id>, m: set<Id>, t: set<Id>, f: set<Id>, id: Id)
    requires id in ids
    ensures AllMarks(ids, d, w, m, t, f).Keys == ids
    ensures AllMarks(ids, d, w, m, t, f)[id] ==
      (if id in d then {Daily} else {}) + (if id in w then {Weekly} else {}) + (if id in m then {Monthly} else {})
      + (if id in t then {LastRestoreTested} else {}) + (if id in f then {Future} else {})
  {
  }

  lemma MarksAreReasons(ids: set<Id>, tested: set<Id>, now: int, current: seq<Id>,
                        ds: seq<nat>, ws: seq<nat>, ms: seq<nat>)
    requires Elements(current) == CurrentOf(ids, now)
    requires Elements(ds) == TopDays(ids, now, EveryDay)
    requires Elements(ws) == TopDays(ids, now, Sundays)
    requires Elements(ms) == TopDays(ids, now, FirstDays)
    ensures AllMarks(ids, OnDays(current, ds), NewestOn(current, ws), NewestOn(current, ms),
                     EarnedTested(ids, tested), NotCurrent(ids, now))
         == ReasonsOf(ids, tested, now)
  {
    hide AllMarks, Earns, OnDays, NewestOn, EarnedTested, NotCurrent, CurrentOf, Elements, TopDays;
    var d, w, m := OnDays(current, ds), NewestOn(current, ws), NewestOn(current, ms);
    var t, f := EarnedTested(ids, tested), NotCurrent(ids, now);
    var marks := AllMarks(ids, d, w, m, t, f);
    forall id | id in ids
      ensures id in marks && marks[id] == Reasons(ids, tested, now, id)
    {
      MarksOf(ids, d, w, m, t, f, id);
      MarksAreEarned(ids, tested, now, current, ds, ws, ms, id);
      forall r: Reason
        ensures r in marks[id] <==> Earns(r, ids, tested, now, id)
      {
        match r
        case Daily =>
        case Weekly =>
        case Monthly =>
        case LastRestoreTested =>
        case Future =>
      }
    }
    hide Reasons;
    KeysOfMarks(ids, d, w, m, t, f);
  }

  lemma KeysOfMarks(ids: set<Id>, d: set<Id>, w: set<Id>, m: set<Id>, t: set<Id>, f: set<Id>)
    ensures AllMarks(ids, d, w, m, t, f).Keys == ids
  {
  }

  lemma MarksAreEarned(ids: set<Id>, tested: set<Id>, now: int, current: seq<Id>,
                       ds: seq<nat>, ws: seq<nat>, ms: seq<nat>, id: Id)
    requires Elements(current) == CurrentOf(ids, now) && id in ids
    requires Elements(ds) == TopDays(ids, now, EveryDay)
    requires Elements(ws) == TopDays(ids, now, Sundays)
    requires Elements(ms) == TopDays(ids, now, FirstDays)
    ensures id in OnDays(current, ds) <==> Earns(Daily, ids, tested, now, id)
    ensures id in NewestOn(current, ws) <==> Earns(Weekly, ids, tested, now, id)
    ensures id in NewestOn(current, ms) <==> Earns(Monthly, ids, tested, now, id)
    ensures id in EarnedTested(ids, tested) <==> Earns(LastRestoreTested, ids, tested, now, id)
    ensures id in NotCurrent(ids, now) <==> Earns(Future, ids, tested, now, id)
  {
    hide TopDays, Time, DayOf;
    assert forall x :: x in current <==> x in Elements(current);
    assert DayOf(id) in ds <==> DayOf(id) in Elements(ds);
    assert DayOf(id) in ws <==> DayOf(id) in Elements(ws);
    assert DayOf(id) in ms <==> DayOf(id) in Elements(ms);
    assert NewestOfDay(ids, now, id) <==>
      id in current && forall x :: x in current && DayOf(x) == DayOf(id) ==> x <= id;
  }

  /** Exactly the backups with a reason stay, with all their reasons; the others go, oldest first. */
  method PlanRetention(input: seq<Id>, restoreTested: set<Id>, now: int) returns (keep: Plan, prune: seq<Id>)
    ensures keep == Keep(Valid(input), restoreTested, now)
    ensures Ascending(prune) && Elements(prune) == Valid(input) - keep.Keys
  {
    hide Marked, Ascending, TopDays, OnDays, NewestOn, EarnedTested, NotCurrent, Valid, Keep, CurrentOf, Elements;
    var ids := SortedIds(input);
    var current := CurrentIds(ids, now);
    ghost var all := Valid(input);
    keep := NoReasons(ids);
    var ds := RecentDays(current, EveryDay, all, now);
    keep := MarkDaily(keep, current, ds);
    var ws := RecentDays(current, Sundays, all, now);
    keep := MarkNewest(keep, current, ws, Weekly);
    var ms := RecentDays(current, FirstDays, all, now);
    keep := MarkNewest(keep, current, ms, Monthly);
    keep := MarkTested(keep, ids, restoreTested);
    keep := MarkFuture(keep, ids, now);
    MarksAreReasons(all, restoreTested, now, current, ds, ws, ms);
    keep, prune := DropUnmarked(keep, ids, all, restoreTested, now);
  }

  method NoReasons(ids: seq<Id>) returns (keep: Plan)
    ensures keep == Unmarked(Elements(ids))
  {
    keep := map id | id in ids :: {};
  }

  method DropUnmarked(marks: Plan, ids: seq<Id>, ghost all: set<Id>, ghost tested: set<Id>, ghost now: int)
    returns (keep: Plan, prune: seq<Id>)
    requires Ascending(ids) && Elements(ids) == all
    requires marks == ReasonsOf(all, tested, now)
    ensures keep == Keep(all, tested, now)
    ensures Ascending(prune) && Elements(prune) == all - keep.Keys
  {
    hide Reasons;
    prune := [];
    for i := 0 to |ids|
      invariant Ascending(prune) && forall x :: x in prune ==> x in ids[..i]
      invariant Elements(prune) == set id | id in Elements(ids[..i]) && marks[id] == {}
    {
      assert ids[..i + 1] == ids[..i] + [ids[i]];
      if marks[ids[i]] == {} {
        AppendAscending(prune, ids[i]);
        prune := prune + [ids[i]];
      }
    }
    assert ids[..|ids|] == ids;
    keep := marks - (set id | id in prune);
  }
}
