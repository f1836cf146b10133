/**
 * The outbox as a distributed protocol: worker and tenant transactions write intents, relays claim
 * rows under token leases, send them to the broker, and complete or keep them, or crash; jobs
 * start and finish. Every step is one atomic statement. `at` is a transaction's `now()`, which may
 * lag behind the clock at which the statement takes effect.
 */
module WakeUp {
  import opened Prelude
  import opened Outbox

  /** How the relay hands an intent to the broker: a pure function of its queue and payload. */
  datatype SendSpec = Plain(singletonKey: Option<string>) | Debounced(key: string)

  /** `spec` is the send specification, `wire` the payload put on the wire for an intent. */
  datatype Codec = Codec(spec: (string, string) -> SendSpec, wire: Intent -> string)

  datatype JobState = Created | Retry | Active | Done

  datatype Job = Job(queue: string, singletonKey: Option<string>, data: string, state: JobState)

  /** One claimed intent inside one relay; `sent` once the broker is known to hold its job. */
  datatype Flight = Flight(id: nat, intent: Intent, token: Token, until: int, sent: bool)

  datatype World = World(
    table: Table,
    jobs: seq<Job>,
    flights: set<Flight>,
    clock: int,
    nextToken: Token)

  datatype Step =
    | WorkerEnqueue(x: Intent, availableAt: Option<int>, at: int)
    | TenantEnqueue(x: Intent, requester: Option<string>, at: int)
    | ClaimDue(chosen: set<nat>, leaseMs: int, at: int)
    | Send(f: Flight)
    | ProveEquivalent(f: Flight)
    | Complete(f: Flight)
    | Fail(f: Flight, error: string, retryAt: int)
    | Crash(f: Flight)
    | JobMoves(j: nat, to: JobState)
    | OtherJob(job: Job)
    | Purge(cutoff: int)
    | Tick(until: int)

  function KeyOf(s: SendSpec): Option<string> {
    if s.Debounced? then Some(s.key) else s.singletonKey
  }

  const FULL_RANK_KEY_PREFIX := "rank-full:"
  const ESTIMATE_RANK_KEY_PREFIX := "rank-est:"

  predicate HasPrefix(s: string, prefix: string) {
    |prefix| <= |s| && s[..|prefix|] == prefix
  }

  /** Debounced and full or estimate rank jobs re-read durable state: any payload covers them. */
  predicate AnyPayload(s: SendSpec) {
    s.Debounced? || (s.singletonKey.Some?
                     && (HasPrefix(s.singletonKey.value, FULL_RANK_KEY_PREFIX)
                         || HasPrefix(s.singletonKey.value, ESTIMATE_RANK_KEY_PREFIX)))
  }

  function JobFor(c: Codec, x: Intent): Job {
    Job(x.queue, KeyOf(c.spec(x.queue, x.payload)), c.wire(x), Created)
  }

  /** The job has not started and does the work of `x`. */
  predicate Covers(c: Codec, j: Job, x: Intent) {
    && (j.state == Created || j.state == Retry)
    && j.queue == x.queue
    && j.singletonKey == KeyOf(c.spec(x.queue, x.payload))
    && (AnyPayload(c.spec(x.queue, x.payload)) || j.data == c.wire(x))
  }

  /**
   * The job a relay sends for an intent covers it, until it starts. Whatever covers an intent waits in
   * its queue under its key, and carries its payload unless the key is debounced, of a full rank, or of
   * an estimate rank.
   */
  lemma CoversMeans(c: Codec, j: Job, x: Intent)
    ensures Covers(c, JobFor(c, x), x)
    ensures JobFor(c, x).queue == x.queue && JobFor(c, x).data == c.wire(x)
    ensures var s := c.spec(x.queue, x.payload);
      var key := if s.Debounced? then Some(s.key) else s.singletonKey;
      var anyPayload := s.Debounced? || (key.Some? && ("rank-full:" <= key.value || "rank-est:" <= key.value));
      Covers(c, j, x) <==>
      && (j.state == Created || j.state == Retry) && j.queue == x.queue && j.singletonKey == key
      && (j.data == c.wire(x) || anyPayload)
  {
  }

  ghost predicate Covered(c: Codec, w: World, x: Intent) {
    exists j :: 0 <= j < |w.jobs| && Covers(c, w.jobs[j], x)
  }

  /** The rest of a relay's work on one intent; a crash is possible at any point. */
  predicate Enabled(c: Codec, w: World, s: Step) {
    match s
    case WorkerEnqueue(_, _, at) => at <= w.clock
    case TenantEnqueue(_, _, at) => at <= w.clock
    case ClaimDue(chosen, _, at) =>
      && at <= w.clock
      && (forall i :: 0 <= i < |w.table.rows| && w.table.rows[i].id in chosen ==>
            Claimable(w.table.rows[i], at))
    case Send(f) => f in w.flights && !f.sent
    case ProveEquivalent(f) =>
      && f in w.flights && !f.sent
      && KeyOf(c.spec(f.intent.queue, f.intent.payload)).Some?
      && (exists j :: 0 <= j < |w.jobs| && Covers(c, w.jobs[j], f.intent))
    case Complete(f) => f in w.flights && f.sent
    case Fail(f, _, _) => f in w.flights
    case Crash(f) => f in w.flights
    case JobMoves(j, _) => j < |w.jobs|
    case OtherJob(_) => true
    case Purge(_) => true
    case Tick(until) => w.clock <= until
  }

  function Flights(rows: seq<Row>, chosen: set<nat>, token: Token, until: int): set<Flight> {
    set i | 0 <= i < |rows| && rows[i].id in chosen ::
      Flight(rows[i].id, rows[i].intent, token, until, false)
  }

  function ClaimedWorld(w: World, chosen: set<nat>, until: int): World {
    w.(table := w.table.(rows := ClaimAll(w.table.rows, chosen, w.nextToken, until)),
       flights := w.flights + Flights(w.table.rows, chosen, w.nextToken, until),
       nextToken := w.nextToken + 1)
  }

  function Apply(c: Codec, w: World, s: Step): World
    requires Enabled(c, w, s)
  {
    match s
    case WorkerEnqueue(x, availableAt, at) =>
      w.(table := UpsertWorker(w.table, x, availableAt, at))
    case TenantEnqueue(x, requester, at) => w.(table := InsertTenant(w.table, x, requester, at))
    case ClaimDue(chosen, leaseMs, at) => ClaimedWorld(w, chosen, at + leaseMs)
    case Send(f) =>
      w.(jobs := w.jobs + [JobFor(c, f.intent)], flights := w.flights - {f} + {f.(sent := true)})
    case ProveEquivalent(f) => w.(flights := w.flights - {f} + {f.(sent := true)})
    case Complete(f) =>
      w.(table := w.table.(rows := Completed(w.table.rows, f.id, f.token, w.clock)),
         flights := w.flights - {f})
    case Fail(f, error, retryAt) =>
      w.(table := w.table.(rows := Failed(w.table.rows, f.id, f.token, error, retryAt)),
         flights := w.flights - {f})
    case Crash(f) => w.(flights := w.flights - {f})
    case JobMoves(j, to) => w.(jobs := w.jobs[j := w.jobs[j].(state := to)])
    case OtherJob(job) => w.(jobs := w.jobs + [job])
    case Purge(cutoff) => w.(table := w.table.(rows := Purged(w.table.rows, cutoff)))
    case Tick(until) => w.(clock := until)
  }

  /**
   * What each step does to the jobs and to the relays under way: only a send or another producer adds a
   * job; an intent sent or proven covered may be completed; a relay that completes, fails or crashes is
   * over; and only enqueueing, claiming, completing, failing and purging touch the table.
   */
  lemma StepsDo(c: Codec, w: World, s: Step)
    requires Enabled(c, w, s)
    ensures var d := Apply(c, w, s);
      && d.clock == (if s.Tick? then s.until else w.clock)
      && (s.Send? ==>
            |d.jobs| == |w.jobs| + 1 && d.jobs[..|w.jobs|] == w.jobs && d.jobs[|w.jobs|] == JobFor(c, s.f.intent))
      && (s.OtherJob? ==> |d.jobs| == |w.jobs| + 1 && d.jobs[..|w.jobs|] == w.jobs && d.jobs[|w.jobs|] == s.job)
      && (s.JobMoves? ==> |d.jobs| == |w.jobs| && d.jobs[s.j].state == s.to)
      && (s.Send? || s.OtherJob? || s.JobMoves? || d.jobs == w.jobs)
      && (forall g :: g in d.flights <==>
            || (g in w.flights && !(Ends(s) && g == s.f) && !(Settles(s) && g == s.f))
            || (Settles(s) && g == s.f.(sent := true))
            || (s.ClaimDue? && g in Flights(w.table.rows, s.chosen, w.nextToken, s.at + s.leaseMs)))
      && (Settles(s) || s.Crash? || s.JobMoves? || s.OtherJob? || s.Tick? ==> d.table == w.table)
  {
  }

  /** The relay's work on its intent is over. */
  predicate Ends(s: Step) {
    s.Complete? || s.Fail? || s.Crash?
  }

  /** The intent's job is known to exist. */
  predicate Settles(s: Step) {
    s.Send? || s.ProveEquivalent?
  }

  ghost predicate Behavior(c: Codec, ws: seq<World>, steps: seq<Step>) {
    && |ws| == |steps| + 1
    && (forall i :: 0 <= i < |steps| ==> Enabled(c, ws[i], steps[i]) && ws[i + 1] == Apply(c, ws[i], steps[i]))
  }

  // ----- Invariant -----

  predicate Matches(f: Flight, r: Row) {
    r.id == f.id ==>
      r.intent == f.intent && (Owned(r, f.token) ==> r.lease.value.until == f.until)
  }

  /** A lease on a row is the lease of the flight that holds its token. */
  ghost predicate Inv(w: World) {
    && WellFormed(w.table)
    && (forall f :: f in w.flights ==> f.id < w.table.nextId && f.token < w.nextToken)
    && (forall r :: r in w.table.rows && r.lease.Some? ==> r.lease.value.token < w.nextToken)
    && (forall f, r :: f in w.flights && r in w.table.rows ==> Matches(f, r))
  }

  lemma {:induction false} PurgeKeepsOrder(rows: seq<Row>, cutoff: int, i: nat, j: nat)
    requires forall k, l :: 0 <= k < l < |rows| ==> rows[k].id < rows[l].id
    requires i < j < |Purged(rows, cutoff)|
    ensures Purged(rows, cutoff)[i].id < Purged(rows, cutoff)[j].id
  {
    var n := |rows| - 1;
    var init := Purged(rows[..n], cutoff);
    if j < |init| {
      PurgeKeepsOrder(rows[..n], cutoff, i, j);
    } else {
      assert init[i] in init;
    }
  }

  /** Statements that rewrite rows in place keep ids, intents, and whether a row is delivered. */
  lemma RewriteKeepsWellFormed(t: Table, d: seq<Row>)
    requires WellFormed(t) && |d| == |t.rows|
    requires forall i :: 0 <= i < |d| ==>
      d[i].id == t.rows[i].id && d[i].intent == t.rows[i].intent
      && (d[i].deliveredAt.None? ==> t.rows[i].deliveredAt.None?)
    ensures WellFormed(t.(rows := d))
  {
    forall i, j | 0 <= i < j < |d| && d[i].deliveredAt.None?
      ensures !Pends(d[j], d[i].intent)
    {
      assert !Pends(t.rows[j], t.rows[i].intent);
    }
  }

  lemma EnqueueKeepsInv(w: World, x: Intent, availableAt: Option<int>, at: int)
    requires Inv(w)
    ensures Inv(w.(table := UpsertWorker(w.table, x, availableAt, at)))
  {
    UpsertKeepsWellFormed(w.table, x, availableAt, at);
    var d := UpsertWorker(w.table, x, availableAt, at);
    forall r | r in d.rows && !(r in w.table.rows)
      ensures r.lease.None?
      ensures r.id == w.table.nextId || exists o :: o in w.table.rows && o.id == r.id && o.intent == r.intent
    {
      var i := Clash(w.table.rows, x);
      if i < |w.table.rows| {
        assert w.table.rows[i] in w.table.rows;
      }
    }
  }

  lemma TenantKeepsInv(w: World, x: Intent, requester: Option<string>, at: int)
    requires Inv(w)
    ensures Inv(w.(table := InsertTenant(w.table, x, requester, at)))
  {
    var d := InsertTenant(w.table, x, requester, at);
    var t := w.table;
    var n := |t.rows|;
    forall i, j | 0 <= i < j < |d.rows| && d.rows[i].deliveredAt.None?
      ensures !Pends(d.rows[j], d.rows[i].intent)
    {
      assert d.rows[i] == t.rows[i];
      if j == n {
        assert !Pends(t.rows[i], x);
      } else {
        assert !Pends(t.rows[j], t.rows[i].intent);
      }
    }
  }

  lemma NewFlight(t: Table, chosen: set<nat>, token: Token, until: int, f: Flight)
    requires WellFormed(t) && f in Flights(t.rows, chosen, token, until)
    ensures f == Flight(f.id, f.intent, token, until, false) && f.id < t.nextId
    ensures forall r :: r in t.rows && r.id == f.id ==> r.intent == f.intent && r.id in chosen
  {
    var i :| 0 <= i < |t.rows| && t.rows[i].id in chosen
      && f == Flight(t.rows[i].id, t.rows[i].intent, token, until, false);
    hide Pends;
  }

  lemma ClaimedRow(rows: seq<Row>, chosen: set<nat>, token: Token, until: int, r: Row) returns (o: Row)
    requires r in ClaimAll(rows, chosen, token, until)
    ensures o in rows && r == if o.id in chosen then Claim(o, token, until) else o
  {
    var k :| 0 <= k < |rows| && ClaimAll(rows, chosen, token, until)[k] == r;
    o := rows[k];
  }

  lemma ClaimedRowsMatch(w: World, chosen: set<nat>, until: int)
    requires Inv(w)
    ensures var fs := Flights(w.table.rows, chosen, w.nextToken, until);
      forall f, r :: f in w.flights + fs && r in ClaimAll(w.table.rows, chosen, w.nextToken, until) ==>
        Matches(f, r)
  {
    hide WellFormed, ClaimAll, Flights;
    var rows := w.table.rows;
    forall f, r | f in w.flights + Flights(rows, chosen, w.nextToken, until)
                  && r in ClaimAll(rows, chosen, w.nextToken, until)
      ensures Matches(f, r)
    {
      var o := ClaimedRow(rows, chosen, w.nextToken, until, r);
      if f in Flights(rows, chosen, w.nextToken, until) {
        NewFlight(w.table, chosen, w.nextToken, until, f);
      } else {
        assert Matches(f, o);
      }
    }
  }

  lemma ClaimedTokensAreKnown(w: World, chosen: set<nat>, until: int)
    requires Inv(w)
    ensures forall f :: f in Flights(w.table.rows, chosen, w.nextToken, until) ==>
      f.id < w.table.nextId && f.token == w.nextToken && !f.sent
    ensures forall r :: r in ClaimAll(w.table.rows, chosen, w.nextToken, until) && r.lease.Some? ==>
      r.lease.value.token < w.nextToken + 1
  {
    hide WellFormed, ClaimAll, Flights;
    var rows := w.table.rows;
    forall f | f in Flights(rows, chosen, w.nextToken, until)
      ensures f.id < w.table.nextId && f.token == w.nextToken && !f.sent
    {
      NewFlight(w.table, chosen, w.nextToken, until, f);
    }
    forall r | r in ClaimAll(rows, chosen, w.nextToken, until) && r.lease.Some?
      ensures r.lease.value.token < w.nextToken + 1
    {
      var _ := ClaimedRow(rows, chosen, w.nextToken, until, r);
    }
  }

  lemma ClaimedIsWellFormed(t: Table, chosen: set<nat>, token: Token, until: int)
    requires WellFormed(t)
    ensures WellFormed(t.(rows := ClaimAll(t.rows, chosen, token, until)))
  {
    RewriteKeepsWellFormed(t, ClaimAll(t.rows, chosen, token, until));
  }

  lemma ClaimKeepsInv(w: World, chosen: set<nat>, until: int)
    requires Inv(w)
    ensures Inv(ClaimedWorld(w, chosen, until))
  {
    hide WellFormed, ClaimAll, Flights, Matches, Owned;
    ClaimedIsWellFormed(w.table, chosen, w.nextToken, until);
    ClaimedTokensAreKnown(w, chosen, until);
    ClaimedRowsMatch(w, chosen, until);
  }

  lemma UpdateKeepsInv(w: World, f: Flight, d: seq<Row>, i: nat)
    requires Inv(w) && i < |d| == |w.table.rows| && d == w.table.rows[i := d[i]]
    requires d[i].id == w.table.rows[i].id && d[i].intent == w.table.rows[i].intent
    requires d[i].lease.None? && (d[i].deliveredAt.None? ==> w.table.rows[i].deliveredAt.None?)
    ensures Inv(w.(table := w.table.(rows := d), flights := w.flights - {f}))
  {
    RewriteKeepsWellFormed(w.table, d);
    assert w.table.rows[i] in w.table.rows;
    forall r | r in d
      ensures r == d[i] || r in w.table.rows
    {
      var k :| 0 <= k < |d| && d[k] == r;
      assert k != i ==> w.table.rows[k] == r;
    }
  }

  lemma OutcomeKeepsInv(w: World, f: Flight, error: string, retryAt: int)
    requires Inv(w)
    ensures Inv(w.(table := w.table.(rows := Completed(w.table.rows, f.id, f.token, w.clock)),
                   flights := w.flights - {f}))
    ensures Inv(w.(table := w.table.(rows := Failed(w.table.rows, f.id, f.token, error, retryAt)),
                   flights := w.flights - {f}))
  {
    var i := IndexOf(w.table.rows, f.id);
    if i < |w.table.rows| && Owned(w.table.rows[i], f.token) {
      UpdateKeepsInv(w, f, Completed(w.table.rows, f.id, f.token, w.clock), i);
      UpdateKeepsInv(w, f, Failed(w.table.rows, f.id, f.token, error, retryAt), i);
    }
  }

  lemma PurgeKeepsInv(w: World, cutoff: int)
    requires Inv(w)
    ensures Inv(w.(table := w.table.(rows := Purged(w.table.rows, cutoff))))
  {
    var d := Purged(w.table.rows, cutoff);
    forall i, j | 0 <= i < j < |d|
      ensures d[i].id < d[j].id
    {
      PurgeKeepsOrder(w.table.rows, cutoff, i, j);
    }
    forall i, j | 0 <= i < j < |d| && d[i].deliveredAt.None?
      ensures !Pends(d[j], d[i].intent)
    {
      assert d[i] in d && d[j] in d;
      if Pends(d[j], d[i].intent) {
        OnePending(w.table, d[i], d[j], d[i].intent);
      }
    }
    forall i | 0 <= i < |d| ensures d[i].id < w.table.nextId {
      assert d[i] in d;
    }
  }

  lemma StepKeepsInv(c: Codec, w: World, s: Step)
    requires Inv(w) && Enabled(c, w, s)
    ensures Inv(Apply(c, w, s))
  {
    hide WellFormed, UpsertWorker, InsertTenant, ClaimAll, Completed, Failed, Purged, Flights, Owned;
    match s
    case WorkerEnqueue(x, availableAt, at) => EnqueueKeepsInv(w, x, availableAt, at);
    case TenantEnqueue(x, requester, at) => TenantKeepsInv(w, x, requester, at);
    case ClaimDue(chosen, leaseMs, at) => ClaimKeepsInv(w, chosen, at + leaseMs);
    case Send(f) => SentKeepsInv(w, f);
    case ProveEquivalent(f) => SentKeepsInv(w, f);
    case Complete(f) => OutcomeKeepsInv(w, f, "", 0);
    case Fail(f, error, retryAt) => OutcomeKeepsInv(w, f, error, retryAt);
    case Crash(f) =>
    case JobMoves(_, _) =>
    case OtherJob(_) =>
    case Purge(cutoff) => PurgeKeepsInv(w, cutoff);
    case Tick(_) =>
  }

  lemma SentKeepsInv(w: World, f: Flight)
    requires Inv(w) && f in w.flights
    ensures Inv(w.(flights := w.flights - {f} + {f.(sent := true)}))
  {
  }

  // ----- No lost wake-up -----

  ghost predicate Undelivered(w: World, x: Intent) {
    Clash(w.table.rows, x) < |w.table.rows|
  }

  /** A job doing the pending row's work exists and has not started. */
  ghost predicate Moment(c: Codec, w: World, x: Intent) {
    Undelivered(w, x) && Covered(c, w, w.table.rows[Clash(w.table.rows, x)].intent)
  }

  /**
   * The wake-up is safe: its row waits, and any relay that already sent that row has lost it, or
   * can no longer complete it in time.
   */
  ghost predicate Owed(w: World, x: Intent) {
    && Undelivered(w, x)
    && var r := w.table.rows[Clash(w.table.rows, x)];
       forall f :: f in w.flights && f.sent && f.id == r.id && Owned(r, f.token) ==> w.clock >= f.until
  }

  /** Completing `f` delivers the pending row of `x`. */
  ghost predicate Takes(w: World, f: Flight, x: Intent) {
    Undelivered(w, x)
    && var r := w.table.rows[Clash(w.table.rows, x)];
       r.id == f.id && Owned(r, f.token)
  }

  /** The step completes the pending row of `x` at or after the end of its lease. */
  ghost predicate TakesLate(w: World, s: Step, x: Intent) {
    s.Complete? && Takes(w, s.f, x) && w.clock >= s.f.until
  }

  /** A worker enqueue owes a wake-up: it revokes the live lease of a relay already under way. */
  lemma EnqueueOwes(w: World, x: Intent, availableAt: Option<int>, at: int, y: Intent)
    requires Inv(w) && at <= w.clock
    requires SameKey(x, y)
    ensures Owed(w.(table := UpsertWorker(w.table, x, availableAt, at)), y)
  {
    UpsertSettles(w.table, x, y, availableAt, at);
    SameKeySameClash(w.table.rows, x, y);
    var i := Clash(w.table.rows, x);
    if i < |w.table.rows| {
      assert w.table.rows[i] in w.table.rows;
    }
  }

  lemma OtherEnqueueKeepsOwed(w: World, x: Intent, availableAt: Option<int>, at: int, y: Intent)
    requires Owed(w, y) && !SameKey(x, y)
    ensures Owed(w.(table := UpsertWorker(w.table, x, availableAt, at)), y)
  {
    UpsertSettles(w.table, x, y, availableAt, at);
  }

  lemma ClashAfterRewrite(rows: seq<Row>, d: seq<Row>, x: Intent)
    requires |d| >= |rows| && Clash(rows, x) < |rows|
    requires forall i :: 0 <= i <= Clash(rows, x) ==>
      d[i].intent == rows[i].intent && (d[i].deliveredAt.None? <==> rows[i].deliveredAt.None?)
    ensures Clash(d, x) == Clash(rows, x)
  {
    FirstIsClash(d, x, Clash(rows, x));
  }

  lemma TenantKeepsOwed(w: World, y: Intent, requester: Option<string>, at: int, x: Intent)
    requires Owed(w, x)
    ensures Owed(w.(table := InsertTenant(w.table, y, requester, at)), x)
  {
    ClashAfterRewrite(w.table.rows, InsertTenant(w.table, y, requester, at).rows, x);
  }

  lemma ClaimKeepsOwed(w: World, chosen: set<nat>, until: int, x: Intent)
    requires Inv(w) && Owed(w, x)
    ensures Owed(ClaimedWorld(w, chosen, until), x)
  {
    var rows := w.table.rows;
    var i := Clash(rows, x);
    assert rows[i] in rows;
    ClashAfterRewrite(rows, ClaimAll(rows, chosen, w.nextToken, until), x);
    ClaimedTokensAreKnown(w, chosen, until);
    hide WellFormed, ClaimAll, Flights, Clash;
  }

  /** A send of the owed row is a moment at which its job exists and has not started. */
  lemma SendIsAMoment(c: Codec, w: World, s: Step, x: Intent)
    requires Inv(w) && Owed(w, x) && Enabled(c, w, s) && (s.Send? || s.ProveEquivalent?)
    ensures Owed(Apply(c, w, s), x) || Moment(c, Apply(c, w, s), x)
  {
    var r := w.table.rows[Clash(w.table.rows, x)];
    assert r in w.table.rows;
    var w' := Apply(c, w, s);
    if s.f.id == r.id {
      assert r.intent == s.f.intent;
      if s.Send? {
        assert Covers(c, w'.jobs[|w.jobs|], r.intent);
      } else {
        var j :| 0 <= j < |w.jobs| && Covers(c, w.jobs[j], s.f.intent);
        assert Covers(c, w'.jobs[j], r.intent);
      }
      assert Covered(c, w', r.intent);
    }
  }

  /** A completion removes a pending wake-up exactly when it delivers that row. */
  lemma CompletionTakes(c: Codec, w: World, f: Flight, x: Intent)
    requires Inv(w) && Undelivered(w, x) && Enabled(c, w, Complete(f))
    ensures Undelivered(Apply(c, w, Complete(f)), x) <==> !Takes(w, f, x)
  {
    var rows := w.table.rows;
    var i, k := Clash(rows, x), IndexOf(rows, f.id);
    var d := Completed(rows, f.id, f.token, w.clock);
    if Takes(w, f, x) {
      IndexOfId(w.table, i);
      forall j | 0 <= j < |d| ensures !Pends(d[j], x) {
        if j != i && Pends(rows[j], x) {
          OnePending(w.table, rows[i], rows[j], x);
        }
      }
    } else {
      assert k == i ==> d == rows;
      FirstIsClash(d, x, i);
    }
  }

  lemma IndexOfId(t: Table, i: nat)
    requires WellFormed(t) && i < |t.rows|
    ensures IndexOf(t.rows, t.rows[i].id) == i
  {
  }

  /**
   * On an owed row: a completion removes it exactly when its relay still owns it, and such a
   * relay is past the end of its lease.
   */
  lemma OnlyALateCompletionTakes(c: Codec, w: World, f: Flight, x: Intent)
    requires Inv(w) && Owed(w, x) && Enabled(c, w, Complete(f))
    ensures Undelivered(Apply(c, w, Complete(f)), x) <==> !Takes(w, f, x)
    ensures Takes(w, f, x) <==> TakesLate(w, Complete(f), x)
  {
    CompletionTakes(c, w, f, x);
  }

  lemma CompleteKeepsOwed(c: Codec, w: World, f: Flight, x: Intent)
    requires Inv(w) && Owed(w, x) && Enabled(c, w, Complete(f)) && !Takes(w, f, x)
    ensures Owed(Apply(c, w, Complete(f)), x)
  {
    var i, k := Clash(w.table.rows, x), IndexOf(w.table.rows, f.id);
    var d := Completed(w.table.rows, f.id, f.token, w.clock);
    assert k == i ==> d == w.table.rows;
    FirstIsClash(d, x, i);
  }

  lemma FailKeepsOwed(c: Codec, w: World, f: Flight, error: string, retryAt: int, x: Intent)
    requires Inv(w) && Owed(w, x) && Enabled(c, w, Fail(f, error, retryAt))
    ensures Owed(Apply(c, w, Fail(f, error, retryAt)), x)
  {
    ClashAfterRewrite(w.table.rows, Failed(w.table.rows, f.id, f.token, error, retryAt), x);
  }

  lemma PurgeKeepsOwed(w: World, cutoff: int, x: Intent)
    requires Inv(w) && Owed(w, x)
    ensures Owed(w.(table := w.table.(rows := Purged(w.table.rows, cutoff))), x)
  {
    var d := Purged(w.table.rows, cutoff);
    var i := Clash(w.table.rows, x);
    var r := w.table.rows[i];
    assert r in d;
    var j :| 0 <= j < |d| && d[j] == r;
    assert Pends(d[j], x);
    var k := Clash(d, x);
    assert k <= j;
    assert d[k] in w.table.rows;
    OnePending(w.table, r, d[k], x);
  }

  lemma OnePending(t: Table, a: Row, b: Row, x: Intent)
    requires WellFormed(t) && a in t.rows && b in t.rows && Pends(a, x) && Pends(b, x)
    ensures a == b
  {
    var i :| 0 <= i < |t.rows| && t.rows[i] == a;
    var j :| 0 <= j < |t.rows| && t.rows[j] == b;
    assert SameKey(a.intent, b.intent) && SameKey(b.intent, a.intent);
    assert i < j ==> !Pends(t.rows[j], t.rows[i].intent);
    assert j < i ==> !Pends(t.rows[i], t.rows[j].intent);
  }

  lemma StepKeepsOwed(c: Codec, w: World, s: Step, x: Intent)
    requires Inv(w) && Owed(w, x) && Enabled(c, w, s) && !TakesLate(w, s, x)
    ensures Owed(Apply(c, w, s), x) || Moment(c, Apply(c, w, s), x)
  {
    hide WellFormed, UpsertWorker, InsertTenant, ClaimedWorld, Completed, Failed, Purged, Covers, Takes;
    match s
    case WorkerEnqueue(y, availableAt, at) =>
      if SameKey(y, x) {
        EnqueueOwes(w, y, availableAt, at, x);
      } else {
        OtherEnqueueKeepsOwed(w, y, availableAt, at, x);
      }
    case TenantEnqueue(y, requester, at) => TenantKeepsOwed(w, y, requester, at, x);
    case ClaimDue(chosen, leaseMs, at) => ClaimKeepsOwed(w, chosen, at + leaseMs, x);
    case Send(_) => SendIsAMoment(c, w, s, x);
    case ProveEquivalent(_) => SendIsAMoment(c, w, s, x);
    case Complete(f) =>
      OnlyALateCompletionTakes(c, w, f, x);
      CompleteKeepsOwed(c, w, f, x);
    case Fail(f, error, retryAt) => FailKeepsOwed(c, w, f, error, retryAt, x);
    case Crash(_) =>
    case JobMoves(_, _) =>
    case OtherJob(_) =>
    case Purge(cutoff) => PurgeKeepsOwed(w, cutoff, x);
    case Tick(_) =>
  }

  /** A relay that has sent the pending row of `x` and can still complete it in time. */
  ghost predicate RelayAhead(w: World, x: Intent) {
    exists f :: f in w.flights && f.sent && Takes(w, f, x) && w.clock < f.until
  }

  lemma OwedExactly(w: World, x: Intent)
    ensures Owed(w, x) <==> Undelivered(w, x) && !RelayAhead(w, x)
  {
  }

  lemma StepOwes(c: Codec, w: World, s: Step)
    requires Inv(w) && Enabled(c, w, s) && s.WorkerEnqueue? && s.x.dedupeKey.Some?
    ensures Owed(Apply(c, w, s), s.x)
  {
    EnqueueOwes(w, s.x, s.availableAt, s.at, s.x);
  }

  lemma TenantInsertPends(w: World, x: Intent, requester: Option<string>, at: int)
    requires x.dedupeKey.Some?
    ensures var d := InsertTenant(w.table, x, requester, at);
      && Clash(d.rows, x) == Clash(w.table.rows, x) < |d.rows|
      && (Undelivered(w, x) ==> d.rows == w.table.rows)
      && (!Undelivered(w, x) ==> d.rows[|w.table.rows|].lease.None?)
  {
    FirstIsClash(InsertTenant(w.table, x, requester, at).rows, x, Clash(w.table.rows, x));
  }

  /** A tenant insert owes its wake-up exactly unless a relay is ahead of it. */
  lemma TenantOwesExactly(w: World, x: Intent, requester: Option<string>, at: int)
    requires x.dedupeKey.Some?
    ensures Owed(w.(table := InsertTenant(w.table, x, requester, at)), x) <==> !RelayAhead(w, x)
  {
    TenantInsertPends(w, x, requester, at);
    var w' := w.(table := InsertTenant(w.table, x, requester, at));
    hide Clash;
    OwedExactly(w', x);
    forall f | f in w.flights
      ensures Takes(w', f, x) <==> Takes(w, f, x)
    {
    }
  }

  /** The condition a tenant can check on the row itself: no lease on it is live. */
  lemma TenantOwes(w: World, x: Intent, requester: Option<string>, at: int)
    requires Inv(w) && x.dedupeKey.Some?
    requires Undelivered(w, x) ==> !LiveLease(w.table.rows[Clash(w.table.rows, x)], w.clock)
    ensures Owed(w.(table := InsertTenant(w.table, x, requester, at)), x)
  {
    TenantOwesExactly(w, x, requester, at);
    if Undelivered(w, x) {
      var r := w.table.rows[Clash(w.table.rows, x)];
      assert r in w.table.rows;
      assert forall f :: f in w.flights ==> Matches(f, r);
    }
  }

  lemma OwedMeansUndelivered(w: World, x: Intent)
    ensures Owed(w, x) ==> Undelivered(w, x)
  {
  }

  lemma {:induction false} BehaviorKeepsInv(c: Codec, ws: seq<World>, steps: seq<Step>, k: nat)
    requires Behavior(c, ws, steps) && Inv(ws[0]) && k <= |steps|
    ensures Inv(ws[k])
  {
    if k > 0 {
      BehaviorKeepsInv(c, ws, steps, k - 1);
      StepKeepsInv(c, ws[k - 1], steps[k - 1]);
    }
  }

  /**
   * No lost wake-up, from any moment at which one is owed: after every worker enqueue, and after
   * a tenant insert with no relay ahead of it. Unless a relay completes that row at or after the
   * end of its lease, the row stays undelivered, or there is a later moment at which a job doing
   * its work exists and has not started.
   */
  lemma {:induction false} NoLostWakeUp(
    c: Codec, ws: seq<World>, steps: seq<Step>, x: Intent, i: nat, j: nat)
    requires Behavior(c, ws, steps) && Inv(ws[0])
    requires i <= j <= |steps| && Owed(ws[i], x)
    requires forall k :: i <= k < j ==> !TakesLate(ws[k], steps[k], x)
    ensures Owed(ws[j], x) || exists m :: i < m <= j && Moment(c, ws[m], x)
    ensures Undelivered(ws[j], x) || exists m :: i < m <= j && Moment(c, ws[m], x)
    decreases j
  {
    hide Inv, Owed, Moment, Apply, Enabled, Undelivered, TakesLate;
    OwedMeansUndelivered(ws[j], x);
    if i < j {
      BehaviorKeepsInv(c, ws, steps, j - 1);
      NoLostWakeUp(c, ws, steps, x, i, j - 1);
      if Owed(ws[j - 1], x) {
        StepKeepsOwed(c, ws[j - 1], steps[j - 1], x);
      }
    }
  }

  /** Every committed worker enqueue of a key, in every interleaving, is such a moment. */
  lemma WorkerWakeUpIsNotLost(c: Codec, ws: seq<World>, steps: seq<Step>, i: nat, j: nat)
    requires Behavior(c, ws, steps) && Inv(ws[0])
    requires i < j <= |steps| && steps[i].WorkerEnqueue? && steps[i].x.dedupeKey.Some?
    requires forall k :: i < k < j ==> !TakesLate(ws[k], steps[k], steps[i].x)
    ensures Undelivered(ws[j], steps[i].x) || exists m :: i < m <= j && Moment(c, ws[m], steps[i].x)
  {
    hide Inv, Owed, Moment, Apply, Enabled, Undelivered, TakesLate;
    BehaviorKeepsInv(c, ws, steps, i);
    StepOwes(c, ws[i], steps[i]);
    NoLostWakeUp(c, ws, steps, steps[i].x, i + 1, j);
  }

  // ----- Exactly when it is lost -----

  /** `x` keeps its row up to the end of the run, or meets a moment at which its job waits. */
  ghost predicate Kept(c: Codec, ws: seq<World>, x: Intent) {
    forall j :: 0 <= j < |ws| ==> Undelivered(ws[j], x) || exists m :: 0 <= m <= j && Moment(c, ws[m], x)
  }

  /** No completion of the run takes the row of `x` late. */
  ghost predicate InTime(ws: seq<World>, steps: seq<Step>, x: Intent) {
    forall k :: 0 <= k < |steps| && k < |ws| ==> !TakesLate(ws[k], steps[k], x)
  }

  /** Whatever follows `w`, as long as the row of `x` is completed in time or not at all. */
  ghost predicate Safe(c: Codec, w: World, x: Intent) {
    forall ws, steps :: Behavior(c, ws, steps) && ws[0] == w && InTime(ws, steps, x) ==> Kept(c, ws, x)
  }

  /**
   * The wake-up of `x` is safe in every continuation exactly when its row is pending and no relay
   * is ahead of it, or its job already waits: otherwise the very next completion loses it.
   */
  lemma SafeExactly(c: Codec, w: World, x: Intent)
    requires Inv(w) && Undelivered(w, x)
    ensures Safe(c, w, x) <==> !RelayAhead(w, x) || Moment(c, w, x)
  {
    hide Inv, Moment, Apply, Enabled, Undelivered, TakesLate, Takes;
    OwedExactly(w, x);
    if RelayAhead(w, x) && !Moment(c, w, x) {
      var f :| f in w.flights && f.sent && Takes(w, f, x) && w.clock < f.until;
      TheRelayAheadWins(c, w, f, x);
    } else {
      forall ws, steps | Behavior(c, ws, steps) && ws[0] == w && InTime(ws, steps, x)
        ensures Kept(c, ws, x)
      {
        forall j | 0 <= j < |ws|
          ensures Undelivered(ws[j], x) || exists m :: 0 <= m <= j && Moment(c, ws[m], x)
        {
          if !RelayAhead(w, x) {
            NoLostWakeUp(c, ws, steps, x, 0, j);
          }
        }
      }
    }
  }

  /** A relay ahead of `x` completes in time, and the row is gone with no moment since. */
  lemma TheRelayAheadWins(c: Codec, w: World, f: Flight, x: Intent)
    requires Inv(w) && f in w.flights && f.sent && Takes(w, f, x) && w.clock < f.until && !Moment(c, w, x)
    ensures !Safe(c, w, x)
  {
    var next := Apply(c, w, Complete(f));
    CompletionTakes(c, w, f, x);
    hide Takes, Undelivered, Apply, Covered, Inv;
    var ws, steps := [w, next], [Complete(f)];
    assert Behavior(c, ws, steps) && InTime(ws, steps, x);
    assert !Undelivered(ws[1], x) && !Moment(c, ws[0], x) && !Moment(c, ws[1], x);
  }

  /**
   * A tenant insert can be lost exactly when a relay that has already sent the pending row can
   * still complete it in time and the row's job no longer waits.
   */
  lemma TenantInsertIsSafeExactly(c: Codec, w: World, x: Intent, requester: Option<string>, at: int)
    requires Inv(w) && x.dedupeKey.Some? && Enabled(c, w, TenantEnqueue(x, requester, at))
    ensures Safe(c, Apply(c, w, TenantEnqueue(x, requester, at)), x) <==>
      !RelayAhead(w, x) || Moment(c, w, x)
  {
    var w' := Apply(c, w, TenantEnqueue(x, requester, at));
    TenantInsertPends(w, x, requester, at);
    TenantOwesExactly(w, x, requester, at);
    OwedExactly(w', x);
    StepKeepsInv(c, w, TenantEnqueue(x, requester, at));
    SafeExactly(c, w', x);
    if RelayAhead(w, x) {
      SameMoment(c, w, x, requester, at);
    }
  }

  lemma SameMoment(c: Codec, w: World, x: Intent, requester: Option<string>, at: int)
    requires x.dedupeKey.Some? && Undelivered(w, x)
    ensures Moment(c, w.(table := InsertTenant(w.table, x, requester, at)), x) <==> Moment(c, w, x)
  {
    TenantInsertPends(w, x, requester, at);
    hide Clash, Covers;
  }

  /** A worker enqueue is safe in every continuation, with no condition. */
  lemma WorkerEnqueueIsSafe(c: Codec, w: World, x: Intent, availableAt: Option<int>, at: int)
    requires Inv(w) && x.dedupeKey.Some? && Enabled(c, w, WorkerEnqueue(x, availableAt, at))
    ensures Safe(c, Apply(c, w, WorkerEnqueue(x, availableAt, at)), x)
  {
    var s := WorkerEnqueue(x, availableAt, at);
    StepKeepsInv(c, w, s);
    StepOwes(c, w, s);
    hide Inv, Apply, Enabled, Moment, UpsertWorker;
    OwedExactly(Apply(c, w, s), x);
    SafeExactly(c, Apply(c, w, s), x);
  }

  /**
   * In a run that starts owing `x` and meets no moment for it, the row is there throughout exactly
   * when no relay completes it late.
   */
  lemma LostExactlyByALateCompletion(c: Codec, ws: seq<World>, steps: seq<Step>, x: Intent)
    requires Behavior(c, ws, steps) && Inv(ws[0]) && Owed(ws[0], x)
    requires forall m :: 0 <= m < |ws| ==> !Moment(c, ws[m], x)
    ensures (forall j :: 0 <= j < |ws| ==> Undelivered(ws[j], x)) <==> InTime(ws, steps, x)
  {
    hide Inv, Owed, Moment, Apply, Enabled, Undelivered, TakesLate;
    if InTime(ws, steps, x) {
      forall j | 0 <= j < |ws| ensures Undelivered(ws[j], x) {
        NoLostWakeUp(c, ws, steps, x, 0, j);
      }
    } else {
      var k :| 0 <= k < |steps| && TakesLate(ws[k], steps[k], x);
      BehaviorKeepsInv(c, ws, steps, k);
      LateCompletionTakes(c, ws[k], steps[k], x);
      assert !Undelivered(ws[k + 1], x);
    }
  }

  lemma LateCompletionTakes(c: Codec, w: World, s: Step, x: Intent)
    requires Inv(w) && Enabled(c, w, s) && TakesLate(w, s, x)
    ensures !Undelivered(Apply(c, w, s), x)
  {
    CompletionTakes(c, w, s.f, x);
  }

  // ----- Both happen: concrete runs -----

  /** An enqueue at step `i` whose row is gone at the end, with no covering job since. */
  ghost predicate Lost(c: Codec, ws: seq<World>, i: nat, x: Intent) {
    && i < |ws| && !Undelivered(ws[|ws| - 1], x)
    && (forall m :: i < m < |ws| ==> !Covered(c, ws[m], x))
  }

  /** The first enqueue of `x`, its claim under a lease until 10, its send, and the job's start. */
  function Opening(c: Codec, x: Intent): (seq<World>, seq<Step>) {
    var row := NewRow(1, x, None, 0);
    var leased := row.(attempts := 1, lease := Some(Lease(0, 10)));
    var f := Flight(1, x, 0, 10, false);
    var job := JobFor(c, x);
    ([World(Table([], 1), [], {}, 0, 0),
      World(Table([row], 2), [], {}, 0, 0),
      World(Table([leased], 2), [], {f}, 0, 1),
      World(Table([leased], 2), [job], {f.(sent := true)}, 0, 1),
      World(Table([leased], 2), [job.(state := Active)], {f.(sent := true)}, 0, 1)],
     [WorkerEnqueue(x, None, 0), ClaimDue({1}, 10, 0), Send(f), JobMoves(0, Active)])
  }

  lemma OpeningIsABehavior(c: Codec, x: Intent)
    ensures Behavior(c, Opening(c, x).0, Opening(c, x).1)
  {
    var (ws, steps) := Opening(c, x);
    assert Flights(ws[1].table.rows, {1}, 0, 10) == {steps[2].f} by {
      assert ws[1].table.rows[0].id == 1;
    }
    forall i | 0 <= i < 4
      ensures Enabled(c, ws[i], steps[i]) && ws[i + 1] == Apply(c, ws[i], steps[i])
    {
      if i == 0 {} else if i == 1 {} else if i == 2 {} else {}
    }
  }

  /** A tenant insert does not re-arm a leased row: its wake-up can be lost. */
  lemma TenantWakeUpCanBeLost(c: Codec, x: Intent)
    requires x.dedupeKey.Some?
    ensures exists ws, steps ::
      && Behavior(c, ws, steps) && Inv(ws[0])
      && InTime(ws, steps, x)
      && |steps| > 4 && steps[4] == TenantEnqueue(x, None, 0) && Lost(c, ws, 4, x)
  {
    OpeningIsABehavior(c, x);
    var (ws, steps) := Opening(c, x);
    var last := ws[4];
    var f := Flight(1, x, 0, 10, true);
    var w5 := last.(table := Table(last.table.rows, 3));
    var done := last.table.rows[0].(deliveredAt := Some(0), lease := None, lastError := None);
    var w6 := w5.(table := Table([done], 3), flights := {});
    Extended(c, ws, steps, TenantEnqueue(x, None, 0), w5);
    Extended(c, ws + [w5], steps + [TenantEnqueue(x, None, 0)], Complete(f), w6);
    var all, did := ws + [w5] + [w6], steps + [TenantEnqueue(x, None, 0)] + [Complete(f)];
    assert all[5] == w5 && all[6] == w6 && did[4] == TenantEnqueue(x, None, 0);
    assert Lost(c, all, 4, x);
  }

  /**
   * Completion checks only the token: one that lands at the very instant its lease ends, just
   * after a worker enqueue of the same key, loses that wake-up.
   */
  lemma LateCompletionLosesAWakeUp(c: Codec, x: Intent)
    requires x.dedupeKey.Some?
    ensures exists ws, steps ::
      && Behavior(c, ws, steps) && Inv(ws[0])
      && |steps| > 5 && steps[5] == WorkerEnqueue(x, None, 10) && Lost(c, ws, 5, x)
  {
    OpeningIsABehavior(c, x);
    var (ws, steps) := Opening(c, x);
    var last := ws[4];
    var f := Flight(1, x, 0, 10, true);
    var w5 := last.(clock := 10);
    var w6 := w5.(table := Table(last.table.rows, 3));
    var done := last.table.rows[0].(deliveredAt := Some(10), lease := None, lastError := None);
    var w7 := w6.(table := Table([done], 3), flights := {});
    Extended(c, ws, steps, Tick(10), w5);
    Extended(c, ws + [w5], steps + [Tick(10)], WorkerEnqueue(x, None, 10), w6);
    Extended(c, ws + [w5] + [w6], steps + [Tick(10)] + [WorkerEnqueue(x, None, 10)], Complete(f), w7);
    var all := ws + [w5] + [w6] + [w7];
    var did := steps + [Tick(10)] + [WorkerEnqueue(x, None, 10)] + [Complete(f)];
    assert all[6] == w6 && all[7] == w7 && did[5] == WorkerEnqueue(x, None, 10);
    assert Lost(c, all, 5, x);
  }

  lemma Extended(c: Codec, ws: seq<World>, steps: seq<Step>, s: Step, w: World)
    requires Behavior(c, ws, steps)
    requires Enabled(c, ws[|steps|], s) && w == Apply(c, ws[|steps|], s)
    ensures Behavior(c, ws + [w], steps + [s])
  {
    hide Enabled, Apply;
    var all, did := ws + [w], steps + [s];
    forall i | 0 <= i < |did|
      ensures Enabled(c, all[i], did[i]) && all[i + 1] == Apply(c, all[i], did[i])
    {
      if i < |steps| {
        assert all[i] == ws[i] && all[i + 1] == ws[i + 1] && did[i] == steps[i];
      }
    }
  }
}
