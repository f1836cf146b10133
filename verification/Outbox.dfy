/**
 * The durable job outbox: one table, each SQL statement one atomic step with `now()` as an input.
 * Rows are kept in id order. A conflicting insert consumes an identity value, as in PostgreSQL.
 */
module Outbox {
  import opened Prelude

  type Token = nat

  datatype Intent = Intent(queue: string, payload: string, dedupeKey: Option<string>)

  datatype Lease = Lease(token: Token, until: int)

  datatype Row = Row(
    id: nat,
    intent: Intent,
    requester: Option<string>,
    availableAt: int,
    deliveredAt: Option<int>,
    attempts: nat,
    lease: Option<Lease>,
    lastError: Option<string>)

  datatype Table = Table(rows: seq<Row>, nextId: nat)

  // ----- Rows and the partial unique index on (queue, dedupe_key) -----

  predicate SameKey(a: Intent, b: Intent) {
    a.dedupeKey.Some? && a.dedupeKey == b.dedupeKey && a.queue == b.queue
  }

  predicate Pends(r: Row, x: Intent) {
    r.deliveredAt.None? && SameKey(r.intent, x)
  }

  /** The undelivered row an insert of `x` conflicts with, or |rows|. */
  function Clash(rows: seq<Row>, x: Intent): (i: nat)
    ensures i <= |rows|
    ensures i < |rows| ==> Pends(rows[i], x)
    ensures forall j :: 0 <= j < i ==> !Pends(rows[j], x)
  {
    if rows == [] then 0 else if Pends(rows[0], x) then 0 else 1 + Clash(rows[1..], x)
  }

  ghost predicate WellFormed(t: Table) {
    && (forall i :: 0 <= i < |t.rows| ==> t.rows[i].id < t.nextId)
    && (forall i, j :: 0 <= i < j < |t.rows| ==> t.rows[i].id < t.rows[j].id)
    && (forall i, j :: 0 <= i < j < |t.rows| && t.rows[i].deliveredAt.None? ==>
          !Pends(t.rows[j], t.rows[i].intent))
  }

  function IndexOf(rows: seq<Row>, id: nat): (i: nat)
    ensures i <= |rows|
    ensures i < |rows| ==> rows[i].id == id
    ensures forall j :: 0 <= j < i ==> rows[j].id != id
  {
    if rows == [] then 0 else if rows[0].id == id then 0 else 1 + IndexOf(rows[1..], id)
  }

  predicate LiveLease(r: Row, now: int) {
    r.lease.Some? && r.lease.value.until > now
  }

  predicate Owned(r: Row, token: Token) {
    r.deliveredAt.None? && r.lease.Some? && r.lease.value.token == token
  }

  // ----- Writers -----

  /** greatest(now(), availableAt), where a null argument is ignored. */
  function DueAt(now: int, availableAt: Option<int>): int {
    if availableAt.Some? then MaxI(now, availableAt.value) else now
  }

  function NewRow(id: nat, x: Intent, requester: Option<string>, due: int): Row {
    Row(id, x, requester, due, None, 0, None, None)
  }

  /** The worker's ON CONFLICT DO UPDATE, with its WHERE clause. */
  predicate Rearms(r: Row, availableAt: Option<int>, now: int) {
    LiveLease(r, now) || (availableAt.Some? && DueAt(now, availableAt) < r.availableAt)
  }

  function Rearmed(r: Row, availableAt: Option<int>, now: int): Row {
    var due := DueAt(now, availableAt);
    r.(availableAt := if LiveLease(r, now) then due else MinI(r.availableAt, due), lease := None)
  }

  function UpsertWorker(t: Table, x: Intent, availableAt: Option<int>, now: int): Table {
    var i := Clash(t.rows, x);
    var rows :=
      if i == |t.rows| then t.rows + [NewRow(t.nextId, x, None, DueAt(now, availableAt))]
      else if Rearms(t.rows[i], availableAt, now) then
        t.rows[i := Rearmed(t.rows[i], availableAt, now)]
      else t.rows;
    Table(rows, t.nextId + 1)
  }

  /** The tenant's ON CONFLICT DO NOTHING. */
  function InsertTenant(t: Table, x: Intent, requester: Option<string>, now: int): Table {
    var rows := if Clash(t.rows, x) == |t.rows| then t.rows + [NewRow(t.nextId, x, requester, now)]
                else t.rows;
    Table(rows, t.nextId + 1)
  }

  function Sequential(t: Table, xs: seq<Intent>, availableAt: Option<int>, now: int): Table {
    if xs == [] then t
    else UpsertWorker(Sequential(t, xs[..|xs| - 1], availableAt, now), xs[|xs| - 1], availableAt, now)
  }

  // ----- One statement for many intents -----

  /**
   * A multi-row upsert in progress: `touched` holds the rows it inserted or updated, which the
   * same statement must not meet again.
   */
  datatype Batch = Batch(table: Table, touched: set<nat>)

  function BatchStep(b: Batch, x: Intent, availableAt: Option<int>, now: int): Option<Batch> {
    var rows := b.table.rows;
    var i := Clash(rows, x);
    var t := UpsertWorker(b.table, x, availableAt, now);
    if i == |rows| then Some(Batch(t, b.touched + {b.table.nextId}))
    else if rows[i].id in b.touched then None
    else if Rearms(rows[i], availableAt, now) then Some(Batch(t, b.touched + {rows[i].id}))
    else Some(Batch(t, b.touched))
  }

  /** None is PostgreSQL's "cannot affect row a second time". */
  function UpsertBatch(t: Table, xs: seq<Intent>, availableAt: Option<int>, now: int): Option<Batch> {
    if xs == [] then Some(Batch(t, {}))
    else
      var b := UpsertBatch(t, xs[..|xs| - 1], availableAt, now);
      if b.None? then None else BatchStep(b.value, xs[|xs| - 1], availableAt, now)
  }

  predicate Repeats(xs: seq<Intent>, x: Intent) {
    exists i :: 0 <= i < |xs| && SameKey(xs[i], x)
  }

  function FirstOccurrences(xs: seq<Intent>): seq<Intent> {
    if xs == [] then []
    else
      var n := |xs| - 1;
      FirstOccurrences(xs[..n]) + if Repeats(xs[..n], xs[n]) then [] else [xs[n]]
  }

  // ----- Relay statements -----

  /** Due, undelivered and not under a lease that is live or ends exactly now. */
  predicate Claimable(r: Row, now: int) {
    r.deliveredAt.None? && r.availableAt <= now && (r.lease.None? || r.lease.value.until < now)
  }

  /** ORDER BY available_at, id. */
  predicate ClaimedBefore(a: Row, b: Row) {
    a.availableAt < b.availableAt || (a.availableAt == b.availableAt && a.id < b.id)
  }

  /** What LIMIT and SKIP LOCKED leave: the first unlocked claimable rows, as many as allowed. */
  ghost predicate Picks(rows: seq<Row>, now: int, limit: nat, locked: set<nat>, chosen: set<nat>) {
    && |chosen| <= limit
    && (forall id :: id in chosen ==>
          exists r :: r in rows && r.id == id && Claimable(r, now) && id !in locked)
    && (forall r :: r in rows && Claimable(r, now) && r.id !in locked && r.id !in chosen ==>
          |chosen| == limit && (forall c :: c in rows && c.id in chosen ==> ClaimedBefore(c, r)))
  }

  /** `c` is claimable and ordered before every other claimable row outside `skip`. */
  predicate First(rows: seq<Row>, c: Row, now: int, skip: set<nat>) {
    && Claimable(c, now) && c.id !in skip
    && (forall r :: r in rows && Claimable(r, now) && r.id !in skip && r.id != c.id ==>
          ClaimedBefore(c, r))
  }

  function Claim(r: Row, token: Token, until: int): Row {
    r.(lease := Some(Lease(token, until)), attempts := r.attempts + 1)
  }

  function ClaimAll(rows: seq<Row>, chosen: set<nat>, token: Token, until: int): (d: seq<Row>)
    ensures |d| == |rows|
    ensures forall i :: 0 <= i < |rows| ==>
      d[i] == if rows[i].id in chosen then Claim(rows[i], token, until) else rows[i]
  {
    if rows == [] then []
    else
      [if rows[0].id in chosen then Claim(rows[0], token, until) else rows[0]]
      + ClaimAll(rows[1..], chosen, token, until)
  }

  /** The claiming statement turned `rows` into `d`. */
  ghost predicate Leases(rows: seq<Row>, d: seq<Row>, chosen: set<nat>, token: Token, until: int) {
    d == ClaimAll(rows, chosen, token, until)
  }

  function Completed(rows: seq<Row>, id: nat, token: Token, now: int): seq<Row> {
    var i := IndexOf(rows, id);
    if i < |rows| && Owned(rows[i], token) then
      rows[i := rows[i].(deliveredAt := Some(now), lease := None, lastError := None)]
    else rows
  }

  /** The part of an error that is stored. */
  function Stored(error: string): string {
    if |error| <= 500 then error else error[..500]
  }

  function Failed(rows: seq<Row>, id: nat, token: Token, error: string, retryAt: int): seq<Row> {
    var i := IndexOf(rows, id);
    if i < |rows| && Owned(rows[i], token) then
      rows[i := rows[i].(lease := None, lastError := Some(Stored(error)), availableAt := retryAt)]
    else rows
  }

  predicate Old(r: Row, cutoff: int) {
    r.deliveredAt.Some? && r.deliveredAt.value < cutoff
  }

  /** Delivered rows older than the cutoff go; undelivered work never does. */
  function Purged(rows: seq<Row>, cutoff: int): (d: seq<Row>)
    ensures forall r :: r in d <==> r in rows && !Old(r, cutoff)
  {
    if rows == [] then []
    else
      var n := |rows| - 1;
      var r := rows[n];
      var init := Purged(rows[..n], cutoff);
      assert rows == rows[..n] + [r];
      if Old(r, cutoff) then init else init + [r]
  }

  /** The purge with a limit: the first old rows go, in order of their ids. */
  function PurgedUpTo(rows: seq<Row>, cutoff: int, limit: nat): (d: seq<Row>)
    ensures |d| <= |rows|
  {
    if rows == [] then []
    else if limit > 0 && Old(rows[0], cutoff) then PurgedUpTo(rows[1..], cutoff, limit - 1)
    else [rows[0]] + PurgedUpTo(rows[1..], cutoff, limit)
  }

  lemma PurgeStep(rows: seq<Row>, cutoff: int, limit: nat)
    ensures PurgedUpTo(rows, cutoff, limit) ==
      if rows == [] then []
      else if limit > 0 && Old(rows[0], cutoff) then PurgedUpTo(rows[1..], cutoff, limit - 1)
      else [rows[0]] + PurgedUpTo(rows[1..], cutoff, limit)
  {
  }

  /** At most the limit goes, less only if no old row is left, and the oldest first; nothing else goes. */
  lemma {:induction false} PurgeTakesTheFirst(rows: seq<Row>, cutoff: int, limit: nat)
    requires forall i, j :: 0 <= i < j < |rows| ==> rows[i].id < rows[j].id
    ensures var d := PurgedUpTo(rows, cutoff, limit);
      && |rows| - |d| <= limit
      && (forall r :: r in d ==> r in rows)
      && (forall r :: r in rows && r !in d ==> Old(r, cutoff))
      && (forall r, o :: r in rows && r !in d && o in d && Old(o, cutoff) ==> r.id < o.id)
      && (|rows| - |d| < limit ==> forall r :: r in d ==> !Old(r, cutoff))
  {
    if rows != [] {
      var rest := rows[1..];
      var n := if limit > 0 && Old(rows[0], cutoff) then limit - 1 else limit;
      assert forall r :: r in rest ==> rows[0].id < r.id;
      assert rows == [rows[0]] + rest;
      PurgeTakesTheFirst(rest, cutoff, n);
      hide Old;
      if limit == 0 {
        PurgeOfNone(rest, cutoff);
      }
    }
  }

  lemma {:induction false} PurgeOfNone(rows: seq<Row>, cutoff: int)
    ensures PurgedUpTo(rows, cutoff, 0) == rows
  {
    if rows != [] {
      PurgeOfNone(rows[1..], cutoff);
    }
  }

  // ----- What each statement does, row by row -----

  /** The same work, pending: an undelivered row of the same queue and key. */
  predicate Competes(r: Row, x: Intent) {
    r.deliveredAt.None? && r.intent.queue == x.queue && x.dedupeKey.Some? && r.intent.dedupeKey == x.dedupeKey
  }

  /**
   * A pending row, after a worker has asked for the same work to be due at `due`: a relay that may
   * be at work on it loses its lease and the work is due again then; otherwise it is only ever
   * brought forward.
   */
  function AskedAgain(r: Row, wanted: Option<int>, due: int, now: int): Row {
    if r.lease.Some? && now < r.lease.value.until then r.(availableAt := due, lease := None)
    else if wanted.Some? && due < r.availableAt then r.(availableAt := due, lease := None)
    else r
  }

  lemma UpsertDoes(t: Table, x: Intent, wanted: Option<int>, now: int)
    requires WellFormed(t)
    ensures var d := UpsertWorker(t, x, wanted, now);
      var due := if wanted.Some? && now < wanted.value then wanted.value else now;
      && d.nextId == t.nextId + 1
      && ((forall r :: r in t.rows ==> !Competes(r, x)) ==>
            d.rows == t.rows + [Row(t.nextId, x, None, due, None, 0, None, None)])
      && ((exists r :: r in t.rows && Competes(r, x)) ==> |d.rows| == |t.rows|)
      && (forall i :: 0 <= i < |t.rows| ==>
            d.rows[i] == if Competes(t.rows[i], x) then AskedAgain(t.rows[i], wanted, due, now) else t.rows[i])
  {
    ClashIsUnique(t, x);
  }

  lemma ClashIsUnique(t: Table, x: Intent)
    requires WellFormed(t)
    ensures forall i :: 0 <= i < |t.rows| ==> (Competes(t.rows[i], x) <==> i == Clash(t.rows, x))
    ensures Clash(t.rows, x) == |t.rows| <==> forall r :: r in t.rows ==> !Competes(r, x)
  {
    var k := Clash(t.rows, x);
    forall i | 0 <= i < |t.rows|
      ensures Competes(t.rows[i], x) <==> i == k
    {
      assert Competes(t.rows[i], x) <==> Pends(t.rows[i], x);
      if k < i {
        assert !Pends(t.rows[i], t.rows[k].intent);
      }
    }
    if k < |t.rows| {
      assert Competes(t.rows[k], x);
    }
  }

  lemma TenantInsertDoes(t: Table, x: Intent, requester: Option<string>, now: int)
    requires WellFormed(t)
    ensures var d := InsertTenant(t, x, requester, now);
      && d.nextId == t.nextId + 1
      && d.rows == if exists r :: r in t.rows && Competes(r, x) then t.rows
                   else t.rows + [Row(t.nextId, x, requester, now, None, 0, None, None)]
  {
    ClashIsUnique(t, x);
  }

  /** Free to be claimed: due, undelivered, not locked, and under no lease that ends now or later. */
  predicate Waits(r: Row, now: int, locked: set<nat>) {
    && r.deliveredAt.None? && r.availableAt <= now && r.id !in locked
    && (r.lease.Some? ==> r.lease.value.until < now)
  }

  /** Due earlier, or as early with a lower number. */
  predicate Sooner(a: Row, b: Row) {
    a.availableAt < b.availableAt || (a.availableAt == b.availableAt && a.id < b.id)
  }

  /**
   * Claiming takes the first rows that wait, as many as allowed, puts each under the new lease and
   * counts the attempt; no other row changes.
   */
  lemma ClaimingDoes(
    t: Table, d: seq<Row>, now: int, limit: nat, leaseMs: int, token: Token, locked: set<nat>, chosen: set<nat>)
    requires WellFormed(t) && Picks(t.rows, now, limit, locked, chosen)
    requires Leases(t.rows, d, chosen, token, now + leaseMs)
    ensures |d| == |t.rows| && |chosen| <= limit
    ensures forall i :: 0 <= i < |d| ==>
      d[i] == if t.rows[i].id in chosen
              then t.rows[i].(lease := Some(Lease(token, now + leaseMs)), attempts := t.rows[i].attempts + 1)
              else t.rows[i]
    ensures forall r :: r in t.rows && r.id in chosen ==> Waits(r, now, locked)
    ensures forall r :: r in t.rows && r.id !in chosen && Waits(r, now, locked) ==>
      |chosen| == limit && forall c :: c in t.rows && c.id in chosen ==> Sooner(c, r)
  {
    IdsAreDistinct(t);
  }

  /** The rows of `id` that `token` still owns. */
  predicate OwnedBy(r: Row, id: nat, token: Token) {
    r.id == id && r.deliveredAt.None? && r.lease.Some? && r.lease.value.token == token
  }

  /** Completion and failure touch exactly the row they were claimed for, while the token owns it. */
  lemma SettlingDoes(t: Table, id: nat, token: Token, now: int, error: string, retryAt: int)
    requires WellFormed(t)
    ensures var c, f := Completed(t.rows, id, token, now), Failed(t.rows, id, token, error, retryAt);
      var kept := if |error| > 500 then error[..500] else error;
      && |c| == |t.rows| == |f|
      && (forall i :: 0 <= i < |t.rows| ==>
            && c[i] == (if OwnedBy(t.rows[i], id, token)
                        then t.rows[i].(deliveredAt := Some(now), lease := None, lastError := None) else t.rows[i])
            && f[i] == (if OwnedBy(t.rows[i], id, token)
                        then t.rows[i].(lease := None, lastError := Some(kept), availableAt := retryAt) else t.rows[i]))
  {
    var k := IndexOf(t.rows, id);
    forall i | 0 <= i < |t.rows|
      ensures t.rows[i].id == id <==> i == k
    {
    }
  }

  /** Only rows delivered before the cutoff are purged, and without a limit all of them. */
  lemma PurgeDoes(rows: seq<Row>, cutoff: int, limit: nat)
    ensures forall r :: r in Purged(rows, cutoff) <==>
      r in rows && !(r.deliveredAt.Some? && r.deliveredAt.value < cutoff)
    ensures forall r :: r in rows && r !in PurgedUpTo(rows, cutoff, limit) ==>
      r.deliveredAt.Some? && r.deliveredAt.value < cutoff
  {
    PurgeSpares(rows, cutoff, limit);
  }

  lemma {:induction false} PurgeSpares(rows: seq<Row>, cutoff: int, limit: nat)
    ensures forall r :: r in rows && r !in PurgedUpTo(rows, cutoff, limit) ==> Old(r, cutoff)
  {
    if rows != [] {
      assert rows == [rows[0]] + rows[1..];
      PurgeSpares(rows[1..], cutoff, if limit > 0 && Old(rows[0], cutoff) then limit - 1 else limit);
      hide Old;
    }
  }

  // ----- The writer's batch equals its inserts one by one -----

  function Anonymous(rows: seq<Row>): (d: seq<Row>)
    ensures |d| == |rows|
    ensures forall i :: 0 <= i < |rows| ==> d[i] == rows[i].(id := 0)
  {
    seq(|rows|, i requires 0 <= i < |rows| => rows[i].(id := 0))
  }

  lemma {:induction false} ClashIgnoresIds(a: seq<Row>, b: seq<Row>, x: Intent)
    requires Anonymous(a) == Anonymous(b)
    ensures Clash(a, x) == Clash(b, x)
  {
    assert |a| == |b|;
    assert forall i :: 0 <= i < |a| ==> Anonymous(a)[i] == Anonymous(b)[i];
    assert forall i :: 0 <= i < |a| ==> a[i].(id := 0) == b[i].(id := 0);
    assert forall i :: 0 <= i < |a| ==> Pends(a[i], x) == Pends(b[i], x);
    FirstIsClash(a, x, Clash(b, x));
  }

  lemma FirstIsClash(rows: seq<Row>, x: Intent, i: nat)
    requires i <= |rows| && (i < |rows| ==> Pends(rows[i], x))
    requires forall j :: 0 <= j < i ==> !Pends(rows[j], x)
    ensures Clash(rows, x) == i
  {
  }

  lemma UpsertIgnoresIds(a: Table, b: Table, x: Intent, availableAt: Option<int>, now: int)
    requires Anonymous(a.rows) == Anonymous(b.rows)
    ensures Anonymous(UpsertWorker(a, x, availableAt, now).rows)
         == Anonymous(UpsertWorker(b, x, availableAt, now).rows)
  {
    ClashIgnoresIds(a.rows, b.rows, x);
    assert |a.rows| == |b.rows|;
    forall i | 0 <= i < |a.rows| ensures a.rows[i].(id := 0) == b.rows[i].(id := 0) {
      assert Anonymous(a.rows)[i] == Anonymous(b.rows)[i];
    }
  }

  /** The key of `x` waits already, and another insert of it would change nothing. */
  predicate Settled(rows: seq<Row>, x: Intent, availableAt: Option<int>, now: int) {
    var i := Clash(rows, x);
    i < |rows| && !Rearms(rows[i], availableAt, now)
  }

  lemma {:induction false} SameKeySameClash(rows: seq<Row>, x: Intent, y: Intent)
    requires SameKey(x, y)
    ensures Clash(rows, x) == Clash(rows, y)
  {
    if rows != [] {
      SameKeySameClash(rows[1..], x, y);
    }
  }

  /** What an upsert of `x` does to the row pending for `y`. */
  lemma UpsertSettles(t: Table, x: Intent, y: Intent, availableAt: Option<int>, now: int)
    ensures var d := UpsertWorker(t, x, availableAt, now).rows;
      && (SameKey(x, y) ==> Settled(d, y, availableAt, now))
      && (!SameKey(x, y) && Clash(t.rows, y) < |t.rows| ==>
            Clash(d, y) == Clash(t.rows, y) && d[Clash(d, y)] == t.rows[Clash(t.rows, y)])
  {
    var d := UpsertWorker(t, x, availableAt, now).rows;
    var i := Clash(t.rows, y);
    assert forall k :: 0 <= k < |t.rows| ==> Pends(d[k], y) == Pends(t.rows[k], y);
    if SameKey(x, y) {
      SameKeySameClash(t.rows, x, y);
      assert i == |t.rows| ==> Pends(d[i], y);
      FirstIsClash(d, y, i);
    } else if i < |t.rows| {
      FirstIsClash(d, y, i);
    }
  }

  /** Ids are handed out upwards, so the order of the rows is the order of their ids. */
  lemma UpsertKeepsWellFormed(t: Table, x: Intent, availableAt: Option<int>, now: int)
    requires WellFormed(t)
    ensures WellFormed(UpsertWorker(t, x, availableAt, now))
  {
    var d := UpsertWorker(t, x, availableAt, now);
    var n := |t.rows|;
    forall i, j | 0 <= i < j < |d.rows| && d.rows[i].deliveredAt.None?
      ensures !Pends(d.rows[j], d.rows[i].intent)
    {
      assert t.rows[i].deliveredAt.None? && t.rows[i].intent == d.rows[i].intent;
      if j == n {
        assert !Pends(t.rows[i], x);
      } else {
        assert !Pends(t.rows[j], t.rows[i].intent);
      }
    }
  }

  /** Every row the batch touched belongs to a key it has already met, and stays settled. */
  ghost predicate Met(b: Batch, xs: seq<Intent>, availableAt: Option<int>, now: int) {
    && WellFormed(b.table)
    && (forall i :: 0 <= i < |xs| && xs[i].dedupeKey.Some? ==>
          Settled(b.table.rows, xs[i], availableAt, now))
    && (forall r :: r in b.table.rows && r.id in b.touched && r.intent.dedupeKey.Some? ==>
          Repeats(xs, r.intent))
  }

  /** A key met before is skipped: inserting it again would change no row. */
  lemma RepeatChangesNothing(
    t: Table, xs: seq<Intent>, x: Intent, availableAt: Option<int>, now: int)
    requires Repeats(xs, x)
    requires forall i :: 0 <= i < |xs| && xs[i].dedupeKey.Some? ==> Settled(t.rows, xs[i], availableAt, now)
    ensures UpsertWorker(t, x, availableAt, now).rows == t.rows
  {
    var i :| 0 <= i < |xs| && SameKey(xs[i], x);
    SameKeySameClash(t.rows, xs[i], x);
  }

  lemma TouchedClashRepeats(b: Batch, xs: seq<Intent>, x: Intent, availableAt: Option<int>, now: int)
    requires Met(b, xs, availableAt, now)
    requires Clash(b.table.rows, x) < |b.table.rows|
    requires b.table.rows[Clash(b.table.rows, x)].id in b.touched
    ensures Repeats(xs, x)
  {
    var r := b.table.rows[Clash(b.table.rows, x)];
    assert r in b.table.rows;
    var k :| 0 <= k < |xs| && SameKey(xs[k], r.intent);
    assert SameKey(xs[k], x);
  }

  lemma NewKeyIsAccepted(b: Batch, xs: seq<Intent>, x: Intent, availableAt: Option<int>, now: int)
    requires Met(b, xs, availableAt, now) && !Repeats(xs, x)
    ensures var n := BatchStep(b, x, availableAt, now);
      n.Some? && n.value.table == UpsertWorker(b.table, x, availableAt, now)
  {
    hide Met, Repeats, UpsertWorker, Rearms;
    var i := Clash(b.table.rows, x);
    if i < |b.table.rows| && b.table.rows[i].id in b.touched {
      TouchedClashRepeats(b, xs, x, availableAt, now);
    }
  }

  lemma NewKeyIsMet(b: Batch, xs: seq<Intent>, x: Intent, availableAt: Option<int>, now: int)
    requires Met(b, xs, availableAt, now) && !Repeats(xs, x)
    ensures var n := BatchStep(b, x, availableAt, now);
      n.Some? && Met(n.value, xs + [x], availableAt, now)
  {
    hide WellFormed, Settled, UpsertWorker, BatchStep, Repeats;
    NewKeyIsAccepted(b, xs, x, availableAt, now);
    var n := BatchStep(b, x, availableAt, now).value;
    UpsertKeepsWellFormed(b.table, x, availableAt, now);
    var ys := xs + [x];
    forall j | 0 <= j < |ys| && ys[j].dedupeKey.Some?
      ensures Settled(n.table.rows, ys[j], availableAt, now)
    {
      UpsertSettles(b.table, x, ys[j], availableAt, now);
      if j < |xs| && !SameKey(x, ys[j]) {
        StaysSettled(b.table, x, ys[j], availableAt, now);
      }
    }
    forall r | r in n.table.rows && r.id in n.touched && r.intent.dedupeKey.Some?
      ensures Repeats(ys, r.intent)
    {
      TouchedIsMet(b, xs, x, availableAt, now, r);
    }
  }

  lemma StaysSettled(t: Table, x: Intent, y: Intent, availableAt: Option<int>, now: int)
    requires !SameKey(x, y) && Settled(t.rows, y, availableAt, now)
    ensures Settled(UpsertWorker(t, x, availableAt, now).rows, y, availableAt, now)
  {
    UpsertSettles(t, x, y, availableAt, now);
  }

  lemma TouchedIsMet(
    b: Batch, xs: seq<Intent>, x: Intent, availableAt: Option<int>, now: int, r: Row)
    requires Met(b, xs, availableAt, now) && !Repeats(xs, x)
    requires BatchStep(b, x, availableAt, now).Some?
    requires var n := BatchStep(b, x, availableAt, now).value;
      r in n.table.rows && r.id in n.touched && r.intent.dedupeKey.Some?
    ensures Repeats(xs + [x], r.intent)
  {
    var rows := b.table.rows;
    var n := BatchStep(b, x, availableAt, now).value;
    var j :| 0 <= j < |n.table.rows| && n.table.rows[j] == r;
    var ys := xs + [x];
    if SameKey(x, r.intent) {
      assert ys[|xs|] == x;
    } else {
      assert j < |rows| && rows[j].intent == r.intent && rows[j].id == r.id && rows[j] in rows;
      assert r.id in b.touched;
      var k :| 0 <= k < |xs| && SameKey(xs[k], r.intent);
      assert ys[k] == xs[k];
    }
  }

  lemma FirstOccurrencesAppend(xs: seq<Intent>, x: Intent)
    ensures FirstOccurrences(xs + [x])
         == FirstOccurrences(xs) + if Repeats(xs, x) then [] else [x]
  {
    assert (xs + [x])[..|xs|] == xs;
  }

  lemma UpsertBatchAppend(t: Table, f: seq<Intent>, x: Intent, availableAt: Option<int>, now: int)
    ensures var b := UpsertBatch(t, f, availableAt, now);
      b.Some? ==>
        UpsertBatch(t, f + [x], availableAt, now) == BatchStep(b.value, x, availableAt, now)
  {
    assert (f + [x])[..|f|] == f;
  }

  lemma SequentialAppend(t: Table, xs: seq<Intent>, x: Intent, availableAt: Option<int>, now: int)
    ensures Sequential(t, xs + [x], availableAt, now)
         == UpsertWorker(Sequential(t, xs, availableAt, now), x, availableAt, now)
  {
    assert (xs + [x])[..|xs|] == xs;
  }

  lemma {:induction false} BatchMatches(
    t: Table, xs: seq<Intent>, availableAt: Option<int>, now: int)
    requires WellFormed(t)
    ensures var b := UpsertBatch(t, FirstOccurrences(xs), availableAt, now);
      var s := Sequential(t, xs, availableAt, now);
      && b.Some? && Met(b.value, xs, availableAt, now)
      && Anonymous(b.value.table.rows) == Anonymous(s.rows)
      && WellFormed(s)
      && b.value.table.nextId <= s.nextId
  {
    if xs != [] {
      hide Met, WellFormed, UpsertWorker, BatchStep, Anonymous, Repeats;
      hide UpsertBatch, Sequential, FirstOccurrences;
      var x, ys := xs[|xs| - 1], xs[..|xs| - 1];
      assert ys + [x] == xs;
      BatchMatches(t, ys, availableAt, now);
      var b := UpsertBatch(t, FirstOccurrences(ys), availableAt, now).value;
      var s := Sequential(t, ys, availableAt, now);
      SequentialAppend(t, ys, x, availableAt, now);
      FirstOccurrencesAppend(ys, x);
      UpsertIgnoresIds(b.table, s, x, availableAt, now);
      UpsertKeepsWellFormed(s, x, availableAt, now);
      UpsertAdvancesId(s, x, availableAt, now);
      if Repeats(ys, x) {
        MetIsSettled(b, ys, availableAt, now);
        RepeatChangesNothing(b.table, ys, x, availableAt, now);
        RepeatIsMet(b, ys, x, availableAt, now);
        assert FirstOccurrences(ys) + [] == FirstOccurrences(ys);
      } else {
        NewKeyIsMet(b, ys, x, availableAt, now);
        BatchStepIsUpsert(b, x, availableAt, now);
        UpsertBatchAppend(t, FirstOccurrences(ys), x, availableAt, now);
      }
    }
  }

  lemma MetIsSettled(b: Batch, xs: seq<Intent>, availableAt: Option<int>, now: int)
    requires Met(b, xs, availableAt, now)
    ensures forall i :: 0 <= i < |xs| && xs[i].dedupeKey.Some? ==>
      Settled(b.table.rows, xs[i], availableAt, now)
  {
  }

  lemma BatchStepIsUpsert(b: Batch, x: Intent, availableAt: Option<int>, now: int)
    ensures var n := BatchStep(b, x, availableAt, now);
      n.Some? ==> n.value.table == UpsertWorker(b.table, x, availableAt, now)
                  && n.value.table.nextId == b.table.nextId + 1
  {
  }

  lemma UpsertAdvancesId(t: Table, x: Intent, availableAt: Option<int>, now: int)
    ensures UpsertWorker(t, x, availableAt, now).nextId == t.nextId + 1
  {
  }

  lemma RepeatIsMet(b: Batch, xs: seq<Intent>, x: Intent, availableAt: Option<int>, now: int)
    requires Met(b, xs, availableAt, now) && Repeats(xs, x)
    ensures Met(b, xs + [x], availableAt, now)
  {
    var ys := xs + [x];
    var i :| 0 <= i < |xs| && SameKey(xs[i], x);
    SameKeySameClash(b.table.rows, xs[i], x);
    forall r | r in b.table.rows && r.id in b.touched && r.intent.dedupeKey.Some?
      ensures Repeats(ys, r.intent)
    {
      var k :| 0 <= k < |xs| && SameKey(xs[k], r.intent);
      assert ys[k] == xs[k];
    }
  }

  /**
   * A batch enqueue, deduplicated by first occurrence, never trips over its own rows and leaves
   * the table that inserting the intents one by one leaves, identity values aside: for repeated
   * and null keys, and for leased, unleased and absent rows. Both keep rows in id order.
   */
  lemma BatchEqualsSequential(
    t: Table, xs: seq<Intent>, availableAt: Option<int>, now: int)
    requires WellFormed(t)
    ensures var b := UpsertBatch(t, FirstOccurrences(xs), availableAt, now);
      && b.Some?
      && Anonymous(b.value.table.rows) == Anonymous(Sequential(t, xs, availableAt, now).rows)
      && WellFormed(b.value.table)
      && WellFormed(Sequential(t, xs, availableAt, now))
      && b.value.table.nextId <= Sequential(t, xs, availableAt, now).nextId
  {
    BatchMatches(t, xs, availableAt, now);
  }

  /** Without repeats nothing is skipped, and the tables agree on identity values too. */
  lemma {:induction false} BatchIsItsRows(t: Table, xs: seq<Intent>, availableAt: Option<int>, now: int)
    requires UpsertBatch(t, xs, availableAt, now).Some?
    ensures UpsertBatch(t, xs, availableAt, now).value.table == Sequential(t, xs, availableAt, now)
  {
    hide UpsertWorker;
    if xs != [] {
      BatchIsItsRows(t, xs[..|xs| - 1], availableAt, now);
      BatchStepIsUpsert(UpsertBatch(t, xs[..|xs| - 1], availableAt, now).value, xs[|xs| - 1],
                        availableAt, now);
    }
  }

  // ----- The table as an object -----

  class JobOutbox {
    var rows: seq<Row>
    var nextId: nat

    ghost function Abs(): Table
      reads this
    {
      Table(rows, nextId)
    }

    lemma AbsIs()
      ensures Abs() == Table(rows, nextId)
    {
    }

    constructor ()
      ensures Abs() == Table([], 1)
    {
      rows, nextId := [], 1;
    }

    /** Other transactions may commit anything between two statements of ours. */
    method Interference()
      modifies this
    {
    }

    method FindClash(x: Intent) returns (i: nat)
      ensures i == Clash(rows, x)
    {
      i := 0;
      while i < |rows| && !Pends(rows[i], x)
        invariant i <= |rows|
        invariant Clash(rows, x) == i + Clash(rows[i..], x)
      {
        i := i + 1;
      }
    }

    method FindId(id: nat) returns (i: nat)
      ensures i == IndexOf(rows, id)
    {
      i := 0;
      while i < |rows| && rows[i].id != id
        invariant i <= |rows|
        invariant IndexOf(rows, id) == i + IndexOf(rows[i..], id)
      {
        i := i + 1;
      }
    }

    /** True when inserted, re-armed or brought forward; false when already pending no later. */
    method InsertWorkerIntent(x: Intent, availableAt: Option<int>, now: int) returns (written: bool)
      modifies this
      ensures Abs() == UpsertWorker(old(Abs()), x, availableAt, now)
      ensures written <==> rows != old(rows)
    {
      var due := if availableAt.Some? then MaxI(now, availableAt.value) else now;
      var i := FindClash(x);
      var id := nextId;
      nextId := nextId + 1;
      if i == |rows| {
        rows := rows + [Row(id, x, None, due, None, 0, None, None)];
        return true;
      }
      var r := rows[i];
      var live := r.lease.Some? && r.lease.value.until > now;
      if live {
        rows := rows[i := r.(availableAt := due, lease := None)];
        assert rows[i] != r;
        return true;
      }
      if availableAt.Some? && due < r.availableAt {
        rows := rows[i := r.(availableAt := due, lease := None)];
        assert rows[i] != r;
        return true;
      }
      written := false;
    }

    method InsertWorkerIntents(xs: seq<Intent>, availableAt: Option<int>, now: int)
      returns (failed: bool)
      requires WellFormed(Abs())
      modifies this
      ensures !failed
      ensures Anonymous(rows) == Anonymous(Sequential(old(Abs()), xs, availableAt, now).rows)
      ensures WellFormed(Abs())
    {
      var distinct := DistinctIntents(xs);
      ghost var t := Abs();
      var b := UpsertBatch(Table(rows, nextId), distinct, availableAt, now);
      BatchEqualsSequential(t, xs, availableAt, now);
      failed := b.None?;
      if b.Some? {
        rows, nextId := b.value.table.rows, b.value.table.nextId;
      }
    }

    method InsertIntent(x: Intent, requester: Option<string>, now: int)
      modifies this
      ensures Abs() == InsertTenant(old(Abs()), x, requester, now)
    {
      var i := FindClash(x);
      if i == |rows| {
        rows := rows + [Row(nextId, x, requester, now, None, 0, None, None)];
      }
      nextId := nextId + 1;
    }

    /** The claimable row that ORDER BY puts first among those not locked and not yet chosen. */
    method FirstClaimable(now: int, skip: set<nat>) returns (found: bool, id: nat)
      requires WellFormed(Abs())
      ensures !found ==> forall r :: r in rows && Claimable(r, now) ==> r.id in skip
      ensures found ==> (exists c :: c in rows && c.id == id && First(rows, c, now, skip))
    {
      found, id := false, 0;
      var i, best := 0, 0;
      while i < |rows|
        invariant 0 <= i <= |rows|
        invariant found ==> best < i && rows[best].id == id && Claimable(rows[best], now) && id !in skip
        invariant forall j :: 0 <= j < i && Claimable(rows[j], now) && rows[j].id !in skip ==>
          found && (j != best ==> ClaimedBefore(rows[best], rows[j]))
      {
        var r := rows[i];
        if Claimable(r, now) && r.id !in skip && (!found || ClaimedBefore(r, rows[best])) {
          found, id, best := true, r.id, i;
        }
        i := i + 1;
      }
      if found {
        assert rows[best] in rows && First(rows, rows[best], now, skip);
      }
    }

    method ClaimDue(now: int, limit: nat, leaseMs: int, token: Token, locked: set<nat>)
      returns (chosen: set<nat>)
      requires WellFormed(Abs())
      modifies this
      ensures Picks(old(rows), now, limit, locked, chosen)
      ensures Leases(old(rows), rows, chosen, token, now + leaseMs) && nextId == old(nextId)
    {
      chosen := {};
      while |chosen| < limit
        invariant rows == old(rows) && nextId == old(nextId) && |chosen| <= limit
        invariant forall id :: id in chosen ==>
          exists r :: r in rows && r.id == id && Claimable(r, now) && id !in locked
        invariant forall r, c ::
          r in rows && c in rows && c.id in chosen && Claimable(r, now) && r.id !in locked + chosen ==>
            ClaimedBefore(c, r)
        decreases limit - |chosen|
      {
        var found, id := FirstClaimable(now, locked + chosen);
        if !found {
          break;
        }
        IdsAreDistinct(Abs());
        chosen := chosen + {id};
      }
      rows := ClaimAll(rows, chosen, token, now + leaseMs);
    }

    method Complete(id: nat, token: Token, now: int) returns (ok: bool)
      modifies this
      ensures rows == Completed(old(rows), id, token, now) && nextId == old(nextId)
      ensures ok <==> IndexOf(old(rows), id) < old(|rows|) && Owned(old(rows)[IndexOf(old(rows), id)], token)
    {
      var i := FindId(id);
      ok := i < |rows| && Owned(rows[i], token);
      if ok {
        rows := rows[i := rows[i].(deliveredAt := Some(now), lease := None, lastError := None)];
      }
    }

    method Fail(id: nat, token: Token, error: string, retryAt: int) returns (ok: bool)
      modifies this
      ensures rows == Failed(old(rows), id, token, error, retryAt) && nextId == old(nextId)
      ensures ok <==> IndexOf(old(rows), id) < old(|rows|) && Owned(old(rows)[IndexOf(old(rows), id)], token)
    {
      var i := FindId(id);
      ok := i < |rows| && Owned(rows[i], token);
      if ok {
        rows := rows[i := rows[i].(lease := None, lastError := Some(Stored(error)), availableAt := retryAt)];
      }
    }

    method PurgeDelivered(cutoff: int) returns (deleted: nat)
      modifies this
      ensures rows == Purged(old(rows), cutoff) && nextId == old(nextId)
      ensures deleted == old(|rows|) - |rows|
    {
      var kept: seq<Row> := [];
      var i := 0;
      while i < |rows|
        invariant 0 <= i <= |rows| && rows == old(rows) && nextId == old(nextId)
        invariant kept == Purged(rows[..i], cutoff) && |kept| <= i
      {
        assert rows[..i + 1][..i] == rows[..i];
        if !Old(rows[i], cutoff) {
          kept := kept + [rows[i]];
        }
        i := i + 1;
      }
      assert rows[..i] == rows;
      deleted := |rows| - |kept|;
      rows := kept;
    }

    method PurgeDeliveredUpTo(cutoff: int, limit: nat) returns (deleted: nat)
      modifies this
      ensures rows == PurgedUpTo(old(rows), cutoff, limit) && nextId == old(nextId)
      ensures deleted == old(|rows|) - |rows|
    {
      hide Old, PurgedUpTo;
      var kept: seq<Row> := [];
      var i := 0;
      deleted := 0;
      assert rows[0..] == rows;
      while i < |rows|
        invariant 0 <= i <= |rows| && rows == old(rows) && nextId == old(nextId)
        invariant deleted == i - |kept| && deleted <= limit
        invariant kept + PurgedUpTo(rows[i..], cutoff, limit - deleted) == PurgedUpTo(rows, cutoff, limit)
      {
        PurgeStep(rows[i..], cutoff, limit - deleted);
        assert rows[i..][0] == rows[i] && rows[i..][1..] == rows[i + 1..];
        if deleted < limit && Old(rows[i], cutoff) {
          deleted := deleted + 1;
        } else {
          kept := kept + [rows[i]];
        }
        i := i + 1;
      }
      PurgeStep(rows[|rows|..], cutoff, limit - deleted);
      rows := kept;
    }
  }

  lemma IdsAreDistinct(t: Table)
    requires WellFormed(t)
    ensures forall a, b :: a in t.rows && b in t.rows && a.id == b.id ==> a == b
  {
  }

  /** The writer's first-occurrence filter, with its `seen` set of keys. */
  method DistinctIntents(xs: seq<Intent>) returns (distinct: seq<Intent>)
    ensures distinct == FirstOccurrences(xs)
  {
    var seen: set<(string, string)> := {};
    distinct := [];
    var i := 0;
    while i < |xs|
      invariant 0 <= i <= |xs|
      invariant distinct == FirstOccurrences(xs[..i])
      invariant forall k :: k in seen <==>
        exists j :: 0 <= j < i && xs[j].dedupeKey.Some? && k == (xs[j].queue, xs[j].dedupeKey.value)
    {
      var x := xs[i];
      assert xs[..i + 1][..i] == xs[..i];
      if x.dedupeKey.None? {
        distinct := distinct + [x];
      } else {
        var key := (x.queue, x.dedupeKey.value);
        assert key in seen <==> Repeats(xs[..i], x);
        if key !in seen {
          seen := seen + {key};
          distinct := distinct + [x];
        }
      }
      i := i + 1;
    }
    assert xs[..i] == xs;
  }
}
