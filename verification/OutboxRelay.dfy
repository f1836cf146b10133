/**
 * One relay pass: claim due intents, send each to the broker, and mark an intent delivered only
 * once a job for it is known to exist. What the broker, the registry and the database answer for
 * an intent is an arbitrary input.
 */
module OutboxRelay {
  import opened Prelude
  import opened Outbox

  const INVALID_INTENT_RETRY_SECONDS := 3600
  const CONFLICT_RETRY_SECONDS := 5

  datatype Outcome = Delivered | Retained | FailedSend | Lost

  /**
   * Where an exception strikes, if anywhere, and its code; `throwsAgain` is for the update of the
   * handler.
   */
  datatype Throws = Never | AtSend | AtEquivalence | AtQueueLookup | AtKeep | AtComplete

  datatype Answers = Answers(
    knownQueue: bool,
    validPayload: bool,
    stageAvailable: bool,
    jobSent: bool,
    keyed: bool,
    equivalentPending: bool,
    queueExists: bool,
    throws: Throws,
    code: string,
    throwsAgain: bool)

  datatype Options = Options(unavailableRetrySeconds: nat, missingQueueRetrySeconds: nat)

  datatype Claimed = Claimed(id: nat, queue: string, attempts: nat, token: Token)

  function RetryDelaySeconds(attempts: nat): nat {
    MinI(900, Pow2(MinI(attempts, 10)))
  }

  /** The backoff starts at one second, never shrinks, and stays within fifteen minutes. */
  lemma {:induction false} BackoffGrowsToItsCap(attempts: nat)
    ensures RetryDelaySeconds(0) == 1
    ensures 1 <= RetryDelaySeconds(attempts) <= RetryDelaySeconds(attempts + 1) <= 900
    ensures attempts >= 10 ==> RetryDelaySeconds(attempts) == 900
    ensures attempts < 9 ==> RetryDelaySeconds(attempts + 1) == 2 * RetryDelaySeconds(attempts)
  {
    assert attempts <= 9 ==> Pow2(attempts) <= 512 by {
      SmallPowers(attempts);
    }
    assert Pow2(10) == 1024 by {
      assert Pow2(5) == 32;
      assert Pow2(10) == 32 * Pow2(5);
    }
  }

  lemma SmallPowers(n: nat)
    ensures n <= 9 ==> Pow2(n) <= 512
  {
    assert Pow2(0) == 1 && Pow2(1) == 2 && Pow2(2) == 4 && Pow2(3) == 8 && Pow2(4) == 16;
    assert Pow2(5) == 32 && Pow2(6) == 64 && Pow2(7) == 128 && Pow2(8) == 256 && Pow2(9) == 512;
  }

  /** The intent is good enough for the broker to be asked. */
  predicate Sendable(a: Answers) {
    a.knownQueue && a.validPayload && a.stageAvailable
  }

  /** The broker is known to hold a job for this intent. */
  predicate JobKnown(a: Answers) {
    && Sendable(a) && a.throws != AtSend
    && (a.jobSent || (a.keyed && a.throws != AtEquivalence && a.equivalentPending))
  }

  /** Neither sent nor covered by an equivalent job. */
  predicate Unsent(a: Answers) {
    Sendable(a) && !a.jobSent && !(a.keyed && a.equivalentPending)
  }

  /** An exception reaches the handler. */
  predicate Caught(a: Answers) {
    match a.throws
    case Never => false
    case AtSend => Sendable(a)
    case AtEquivalence => Sendable(a) && !a.jobSent && a.keyed
    case AtQueueLookup => Unsent(a)
    case AtKeep => !Sendable(a) || Unsent(a)
    case AtComplete => JobKnown(a)
  }

  /** The queue is found missing: no job, no equivalent one, and no queue to hold either. */
  predicate QueueMissing(a: Answers) {
    Unsent(a) && (Caught(a) ==> a.throws == AtKeep) && !a.queueExists
  }

  /** The exception that leaves the relay of an intent, and with it the pass. */
  predicate Escapes(a: Answers) {
    Caught(a) && a.throwsAgain
  }

  /** How long an intent that is not delivered waits. */
  function KeptFor(a: Answers, x: Claimed, o: Options): nat {
    if Caught(a) then RetryDelaySeconds(x.attempts)
    else if !a.knownQueue || !a.validPayload then INVALID_INTENT_RETRY_SECONDS
    else if !a.stageAvailable then o.unavailableRetrySeconds
    else if !a.queueExists then o.missingQueueRetrySeconds
    else CONFLICT_RETRY_SECONDS
  }

  /** An hour for what can never be sent as it is, five seconds for a conflict, the options otherwise. */
  lemma WaitsAre(a: Answers, x: Claimed, o: Options)
    ensures !Caught(a) && (!a.knownQueue || !a.validPayload) ==> KeptFor(a, x, o) == 3600
    ensures !Caught(a) && a.knownQueue && a.validPayload && !a.stageAvailable ==>
      KeptFor(a, x, o) == o.unavailableRetrySeconds
    ensures !Caught(a) && Unsent(a) ==> KeptFor(a, x, o) == if a.queueExists then 5 else o.missingQueueRetrySeconds
    ensures Caught(a) ==> KeptFor(a, x, o) == RetryDelaySeconds(x.attempts)
  {
  }

  /** The error recorded with an intent that is not delivered. */
  predicate Says(a: Answers, error: string) {
    error == if Caught(a) then a.code
             else if !a.knownQueue then "unknown_queue"
             else if !a.validPayload then "invalid_payload"
             else if !a.stageAvailable then "stage_unavailable"
             else if !a.queueExists then "queue_missing"
             else "singleton_conflict"
  }

  /** What becomes of an intent while its lease is still ours. */
  function Expected(a: Answers): Outcome {
    if Caught(a) || !a.knownQueue || !a.validPayload then FailedSend
    else if JobKnown(a) then Delivered
    else Retained
  }

  /** The row of the intent is still under its token. */
  predicate Owns(rows: seq<Row>, x: Claimed) {
    var i := IndexOf(rows, x.id);
    i < |rows| && Owned(rows[i], x.token)
  }

  /** What became of one intent of a pass; `rows` is the table that its last statement met. */
  predicate Treated(a: Answers, x: Claimed, rows: seq<Row>, o: Outcome) {
    !Escapes(a) && o == if Owns(rows, x) then Expected(a) else Lost
  }

  lemma TreatedMeans(a: Answers, x: Claimed, rows: seq<Row>, o: Outcome)
    ensures Treated(a, x, rows, o) <==> !Escapes(a) && o == if Owns(rows, x) then Expected(a) else Lost
  {
  }

  /**
   * What the last statement about an intent made of the table: the row delivered, or due again with
   * its error, or nothing when the lease was no longer ours.
   */
  ghost predicate Written(a: Answers, x: Claimed, opts: Options, now: int, before: seq<Row>, after: seq<Row>,
                          o: Outcome) {
    match o
    case Delivered => after == Completed(before, x.id, x.token, now)
    case Lost => after == before
    case _ => exists error :: Says(a, error) && after == Failed(before, x.id, x.token, error, now + KeptFor(a, x, opts))
  }

  lemma WrittenMeans(a: Answers, x: Claimed, opts: Options, now: int, before: seq<Row>, after: seq<Row>, o: Outcome,
                     error: string)
    requires match o
      case Delivered => after == Completed(before, x.id, x.token, now)
      case Lost => after == before
      case _ => Says(a, error) && after == Failed(before, x.id, x.token, error, now + KeptFor(a, x, opts))
    ensures Written(a, x, opts, now, before, after, o)
  {
    hide Says, Completed, Failed, KeptFor;
  }

  /**
   * What became of the first of the claimed intents, by the table each one's last statement met (`met`)
   * and the table it left.
   */
  ghost predicate AllTreated(claimed: seq<Claimed>, answers: nat -> Answers, opts: Options, now: int,
                             outcomes: seq<Outcome>, met: seq<seq<Row>>, left: seq<seq<Row>>) {
    && |met| == |left| == |outcomes| <= |claimed|
    && (forall i :: 0 <= i < |outcomes| ==>
          && Treated(answers(claimed[i].id), claimed[i], met[i], outcomes[i])
          && Written(answers(claimed[i].id), claimed[i], opts, now, met[i], left[i], outcomes[i]))
  }

  lemma CountsAll(n: nat, outcomes: seq<Outcome>)
    ensures var t := Counted(n, outcomes); t.delivered + t.retained + t.failed + t.lost == |outcomes| && t.claimed == n
  {
    EveryOutcomeCountsOnce(outcomes);
  }

  lemma CountNext(n: nat, outcomes: seq<Outcome>, o: Outcome)
    ensures var t := Counted(n, outcomes);
      Counted(n, outcomes + [o])
      == match o
         case Delivered => t.(delivered := t.delivered + 1)
         case Retained => t.(retained := t.retained + 1)
         case FailedSend => t.(failed := t.failed + 1)
         case Lost => t.(lost := t.lost + 1)
  {
    assert (outcomes + [o])[..|outcomes|] == outcomes;
  }

  lemma NoneTreated(missing: set<string>, claimed: seq<Claimed>, answers: nat -> Answers, opts: Options, now: int)
    ensures AllTreated(claimed, answers, opts, now, [], [], [])
    ensures MissingAfter(missing, claimed[..0], answers) == missing
    ensures Counted(|claimed|, []) == Report(|claimed|, 0, 0, 0, 0)
  {
  }

  lemma OneMoreTreated(claimed: seq<Claimed>, answers: nat -> Answers, opts: Options, now: int,
                       outcomes: seq<Outcome>, met: seq<seq<Row>>, left: seq<seq<Row>>,
                       o: Outcome, before: seq<Row>, after: seq<Row>)
    requires AllTreated(claimed, answers, opts, now, outcomes, met, left) && |outcomes| < |claimed|
    requires var x := claimed[|outcomes|];
      Treated(answers(x.id), x, before, o) && Written(answers(x.id), x, opts, now, before, after, o)
    ensures AllTreated(claimed, answers, opts, now, outcomes + [o], met + [before], left + [after])
  {
    hide Treated, Written;
  }

  /** The queues known to be missing after some intents: each that found its queue so, or found it back. */
  ghost function MissingAfter(missing: set<string>, claimed: seq<Claimed>, answers: nat -> Answers): set<string> {
    if claimed == [] then missing
    else
      var k := |claimed| - 1;
      var a := answers(claimed[k].id);
      var sofar := MissingAfter(missing, claimed[..k], answers);
      if QueueMissing(a) then sofar + {claimed[k].queue}
      else if JobKnown(a) then sofar - {claimed[k].queue}
      else sofar
  }

  lemma MissingNext(missing: set<string>, claimed: seq<Claimed>, answers: nat -> Answers, i: nat)
    requires i < |claimed|
    ensures var a, sofar := answers(claimed[i].id), MissingAfter(missing, claimed[..i], answers);
      MissingAfter(missing, claimed[..i + 1], answers)
      == if QueueMissing(a) then sofar + {claimed[i].queue}
         else if JobKnown(a) then sofar - {claimed[i].queue}
         else sofar
  {
    hide QueueMissing, JobKnown;
    assert claimed[..i + 1][..i] == claimed[..i];
  }

  /** A queue is known to be missing exactly if the last intent for it that could tell found it so. */
  lemma {:induction false} MissingIsLatest(missing: set<string>, claimed: seq<Claimed>, answers: nat -> Answers,
                                           q: string)
    ensures q in MissingAfter(missing, claimed, answers) <==>
      || (q in missing && !exists k :: 0 <= k < |claimed| && claimed[k].queue == q && Tells(answers(claimed[k].id)))
      || (exists k :: 0 <= k < |claimed| && claimed[k].queue == q && QueueMissing(answers(claimed[k].id))
                      && forall j :: k < j < |claimed| && claimed[j].queue == q ==> !Tells(answers(claimed[j].id)))
  {
    hide QueueMissing, JobKnown;
    if claimed != [] {
      var k := |claimed| - 1;
      assert claimed[..k] + [claimed[k]] == claimed;
      MissingIsLatest(missing, claimed[..k], answers, q);
    }
  }

  /** An intent that finds its queue missing, or a job in it. */
  predicate Tells(a: Answers) {
    QueueMissing(a) || JobKnown(a)
  }

  lemma CompletionOf(rows: seq<Row>, x: Claimed, now: int)
    ensures Owns(rows, x) <==> IndexOf(rows, x.id) < |rows| && Owned(rows[IndexOf(rows, x.id)], x.token)
    ensures !Owns(rows, x) ==> Completed(rows, x.id, x.token, now) == rows
  {
  }

  /** Make the intent due again; nothing is done when the update throws. */
  method Keep(db: JobOutbox, x: Claimed, outcome: Outcome, error: string, retrySeconds: nat, throws: bool, now: int)
    returns (o: Option<Outcome>, ghost before: seq<Row>)
    modifies db
    ensures o.None? <==> throws
    ensures o.Some? ==> db.rows == Failed(before, x.id, x.token, error, now + retrySeconds)
    ensures o.Some? ==> o.value == if Owns(before, x) then outcome else Lost
    ensures o.None? || (o == Some(Lost) && outcome != Lost) ==> db.rows == before
  {
    db.Interference();
    before := db.rows;
    if throws {
      return None, before;
    }
    var ok := db.Fail(x.id, x.token, error, now + retrySeconds);
    o := Some(if ok then outcome else Lost);
  }

  /** The relay of an intent up to its first exception, which is None. */
  method TryIntent(db: JobOutbox, x: Claimed, a: Answers, o: Options, missing: set<string>, now: int)
    returns (outcome: Option<Outcome>, missing': set<string>, error: string, ghost before: seq<Row>)
    modifies db
    ensures outcome.None? <==> Caught(a)
    ensures outcome.Some? ==> outcome.value == if Owns(before, x) then Expected(a) else Lost
    ensures outcome == Some(Delivered) ==> JobKnown(a) && db.rows == Completed(before, x.id, x.token, now)
    ensures outcome == Some(Retained) || outcome == Some(FailedSend) ==>
      && !JobKnown(a) && Says(a, error)
      && db.rows == Failed(before, x.id, x.token, error, now + KeptFor(a, x, o))
    ensures outcome == Some(Lost) ==> db.rows == before
    ensures missing' == if QueueMissing(a) then missing + {x.queue}
                        else if JobKnown(a) then missing - {x.queue}
                        else missing
  {
    hide Failed, Completed, RetryDelaySeconds, IndexOf, Owns;
    missing', error, before := missing, "", db.rows;
    var keepThrows := a.throws == AtKeep;
    if !a.knownQueue {
      error := "unknown_queue";
      outcome, before := Keep(db, x, FailedSend, error, INVALID_INTENT_RETRY_SECONDS, keepThrows, now);
      return;
    }
    if !a.validPayload {
      error := "invalid_payload";
      outcome, before := Keep(db, x, FailedSend, error, INVALID_INTENT_RETRY_SECONDS, keepThrows, now);
      return;
    }
    if !a.stageAvailable {
      error := "stage_unavailable";
      outcome, before := Keep(db, x, Retained, error, o.unavailableRetrySeconds, keepThrows, now);
      return;
    }
    if a.throws == AtSend {
      return None, missing', error, before;
    }
    if !a.jobSent {
      var equivalent := false;
      if a.keyed {
        if a.throws == AtEquivalence {
          return None, missing', error, before;
        }
        equivalent := a.equivalentPending;
      }
      if !equivalent {
        if a.throws == AtQueueLookup {
          return None, missing', error, before;
        }
        if !a.queueExists {
          missing' := missing + {x.queue};
          error := "queue_missing";
          outcome, before := Keep(db, x, Retained, error, o.missingQueueRetrySeconds, keepThrows, now);
          return;
        }
        error := "singleton_conflict";
        outcome, before := Keep(db, x, Retained, error, CONFLICT_RETRY_SECONDS, keepThrows, now);
        return;
      }
    }
    missing' := missing - {x.queue};
    if a.throws == AtComplete {
      return None, missing', error, before;
    }
    db.Interference();
    before := db.rows;
    var ok := db.Complete(x.id, x.token, now);
    CompletionOf(before, x, now);
    outcome := Some(if ok then Delivered else Lost);
  }

  /**
   * An intent is delivered only when the broker holds a job for it and the lease is still ours;
   * anything else keeps its row, due again after the delay its failure calls for. An exception, that
   * of the update that keeps the row too, is a failure; one more in the update that records it
   * leaves the row as it is and escapes. `before` is the table that the final statement met.
   */
  method RelayIntent(db: JobOutbox, x: Claimed, a: Answers, o: Options, missing: set<string>, now: int)
    returns (outcome: Option<Outcome>, missing': set<string>, error: string, ghost before: seq<Row>)
    modifies db
    ensures outcome.None? <==> Escapes(a)
    ensures outcome.None? ==> db.rows == before
    ensures outcome.Some? ==> outcome.value == if Owns(before, x) then Expected(a) else Lost
    ensures outcome == Some(Delivered) ==>
      && JobKnown(a) && !Caught(a) && Owns(before, x)
      && db.rows == Completed(before, x.id, x.token, now)
    ensures outcome == Some(Retained) || outcome == Some(FailedSend) ==>
      && (JobKnown(a) ==> Caught(a)) && Says(a, error)
      && db.rows == Failed(before, x.id, x.token, error, now + KeptFor(a, x, o))
    ensures outcome == Some(FailedSend) ==> Caught(a) || !a.knownQueue || !a.validPayload
    ensures outcome == Some(Retained) ==> !Caught(a) && a.knownQueue && a.validPayload && !JobKnown(a)
    ensures outcome == Some(Lost) ==> db.rows == before
    ensures missing' == if QueueMissing(a) then missing + {x.queue}
                        else if JobKnown(a) then missing - {x.queue}
                        else missing
  {
    hide Failed, Completed, RetryDelaySeconds, IndexOf, Owns, QueueMissing, JobKnown;
    outcome, missing', error, before := TryIntent(db, x, a, o, missing, now);
    if outcome.None? {
      error := a.code;
      outcome, before := Keep(db, x, FailedSend, error, RetryDelaySeconds(x.attempts), a.throwsAgain, now);
    }
  }

  datatype Report = Report(claimed: nat, delivered: nat, retained: nat, failed: nat, lost: nat)

  function Tally(os: seq<Outcome>, o: Outcome): nat {
    if os == [] then 0 else Tally(os[..|os| - 1], o) + if os[|os| - 1] == o then 1 else 0
  }

  lemma {:induction false} EveryOutcomeCountsOnce(os: seq<Outcome>)
    ensures Tally(os, Delivered) + Tally(os, Retained) + Tally(os, FailedSend) + Tally(os, Lost) == |os|
  {
    if os != [] {
      EveryOutcomeCountsOnce(os[..|os| - 1]);
    }
  }

  /** The tally of a pass. */
  function Counted(claimed: nat, os: seq<Outcome>): Report {
    Report(claimed, Tally(os, Delivered), Tally(os, Retained), Tally(os, FailedSend), Tally(os, Lost))
  }

  /** The claimed rows, as the relay takes them, with the attempt counted. */
  function ListOf(rows: seq<Row>, chosen: set<nat>, token: Token): seq<Claimed> {
    if rows == [] then []
    else
      var init, r := rows[..|rows| - 1], rows[|rows| - 1];
      ListOf(init, chosen, token)
      + if r.id in chosen then [Claimed(r.id, r.intent.queue, r.attempts, token)] else []
  }

  predicate Ascend(rows: seq<Row>) {
    forall i, j :: 0 <= i < j < |rows| ==> rows[i].id < rows[j].id
  }

  predicate InOrder(l: seq<Claimed>) {
    forall i, j :: 0 <= i < j < |l| ==> l[i].id < l[j].id
  }

  lemma {:induction false} ListAscends(rows: seq<Row>, chosen: set<nat>, token: Token)
    requires Ascend(rows)
    ensures InOrder(ListOf(rows, chosen, token))
    ensures forall c :: c in ListOf(rows, chosen, token) ==> exists k :: 0 <= k < |rows| && rows[k].id == c.id
  {
    if rows != [] {
      var init, r := rows[..|rows| - 1], rows[|rows| - 1];
      ListAscends(init, chosen, token);
      var l0 := ListOf(init, chosen, token);
      forall c | c in l0
        ensures c.id < r.id && exists k :: 0 <= k < |rows| && rows[k].id == c.id
      {
        var k :| 0 <= k < |init| && init[k].id == c.id;
        assert rows[k].id == c.id;
      }
      AppendInOrder(l0, Claimed(r.id, r.intent.queue, r.attempts, token));
    }
  }

  lemma AppendInOrder(l: seq<Claimed>, c: Claimed)
    requires InOrder(l) && forall x :: x in l ==> x.id < c.id
    ensures InOrder(l + [c])
  {
    forall i | 0 <= i < |l| ensures l[i].id < c.id {
      assert l[i] in l;
    }
  }

  /** The claimed rows are listed in order of their ids, which is the order the source sorts them by. */
  lemma ListedInOrder(t: Table, d: seq<Row>, chosen: set<nat>, token: Token, until: int)
    requires WellFormed(t) && Leases(t.rows, d, chosen, token, until)
    ensures Ascend(d) && InOrder(ListOf(d, chosen, token))
  {
    assert forall i :: 0 <= i < |d| ==> d[i].id == t.rows[i].id;
    ListAscends(d, chosen, token);
  }

  /** The intent as a leased row carries it. */
  ghost predicate Carries(rows: seq<Row>, chosen: set<nat>, token: Token, c: Claimed) {
    exists r :: r in rows && r.id in chosen && c == Claimed(r.id, r.intent.queue, r.attempts, token)
  }

  /** Exactly the leased rows that were chosen, each once, in order of their ids. */
  ghost predicate IsClaim(claimed: seq<Claimed>, rows: seq<Row>, chosen: set<nat>, token: Token) {
    && (forall c :: c in claimed <==> Carries(rows, chosen, token, c))
    && |claimed| == |chosen|
    && InOrder(claimed)
  }

  lemma {:induction false} ListHasTheChosen(rows: seq<Row>, chosen: set<nat>, token: Token)
    ensures forall c :: c in ListOf(rows, chosen, token) <==> Carries(rows, chosen, token, c)
  {
    if rows != [] {
      var init, r := rows[..|rows| - 1], rows[|rows| - 1];
      ListHasTheChosen(init, chosen, token);
      assert rows == init + [r];
      forall c
        ensures Carries(rows, chosen, token, c) <==>
          Carries(init, chosen, token, c)
          || (r.id in chosen && c == Claimed(r.id, r.intent.queue, r.attempts, token))
      {
      }
    }
  }

  function Ids(l: seq<Claimed>): set<nat> {
    set c | c in l :: c.id
  }

  lemma {:induction false} AsManyIds(l: seq<Claimed>)
    requires InOrder(l)
    ensures |Ids(l)| == |l|
  {
    if l != [] {
      var n := |l| - 1;
      AsManyIds(l[..n]);
      assert l == l[..n] + [l[n]];
      assert Ids(l) == Ids(l[..n]) + {l[n].id};
      assert l[n].id !in Ids(l[..n]);
    }
  }

  lemma ListIsTheClaim(rows: seq<Row>, chosen: set<nat>, token: Token)
    requires Ascend(rows) && forall id :: id in chosen ==> exists r :: r in rows && r.id == id
    ensures IsClaim(ListOf(rows, chosen, token), rows, chosen, token)
  {
    var l := ListOf(rows, chosen, token);
    ListAscends(rows, chosen, token);
    ListHasTheChosen(rows, chosen, token);
    AsManyIds(l);
    hide ListOf, Ascend, InOrder;
    forall id
      ensures id in Ids(l) <==> id in chosen
    {
      if id in chosen {
        var r :| r in rows && r.id == id;
        assert Carries(rows, chosen, token, Claimed(r.id, r.intent.queue, r.attempts, token));
      }
    }
    assert Ids(l) == chosen;
  }

  lemma ChosenAreLeased(
    rows: seq<Row>, d: seq<Row>, now: int, limit: nat, locked: set<nat>, chosen: set<nat>, token: Token, until: int)
    requires Picks(rows, now, limit, locked, chosen) && Leases(rows, d, chosen, token, until)
    ensures forall id :: id in chosen ==> exists r :: r in d && r.id == id
  {
    forall id | id in chosen
      ensures exists r :: r in d && r.id == id
    {
      var o :| o in rows && o.id == id;
      var i :| 0 <= i < |rows| && rows[i] == o;
      assert d[i] in d && d[i].id == id;
    }
  }

  /** What the claiming statement leased and picked is what the relay gets. */
  lemma ClaimIsComplete(
    t: Table, d: seq<Row>, now: int, limit: nat, locked: set<nat>, chosen: set<nat>, token: Token, until: int)
    requires WellFormed(t) && Picks(t.rows, now, limit, locked, chosen) && Leases(t.rows, d, chosen, token, until)
    ensures IsClaim(ListOf(d, chosen, token), d, chosen, token)
  {
    ListedInOrder(t, d, chosen, token, until);
    ChosenAreLeased(t.rows, d, now, limit, locked, chosen, token, until);
    hide *;
    ListIsTheClaim(d, chosen, token);
  }

  /** What the claiming statement returns. */
  method ClaimIntents(db: JobOutbox, limit: nat, leaseMs: nat, token: Token, locked: set<nat>, now: int)
    returns (claimed: seq<Claimed>, chosen: set<nat>)
    requires WellFormed(db.Abs())
    modifies db
    ensures Picks(old(db.rows), now, limit, locked, chosen)
    ensures Leases(old(db.rows), db.rows, chosen, token, now + leaseMs) && db.nextId == old(db.nextId)
    ensures IsClaim(claimed, db.rows, chosen, token)
  {
    hide *;
    db.AbsIs();
    ghost var t := Table(db.rows, db.nextId);
    chosen := db.ClaimDue(now, limit, leaseMs, token, locked);
    ClaimIsComplete(t, db.rows, now, limit, locked, chosen, token, now + leaseMs);
    claimed := Returned(db.rows, chosen, token);
  }

  method Returned(rows: seq<Row>, chosen: set<nat>, token: Token) returns (claimed: seq<Claimed>)
    ensures claimed == ListOf(rows, chosen, token)
  {
    claimed := [];
    for i := 0 to |rows|
      invariant claimed == ListOf(rows[..i], chosen, token)
    {
      var r := rows[i];
      assert rows[..i + 1][..i] == rows[..i];
      if r.id in chosen {
        claimed := claimed + [Claimed(r.id, r.intent.queue, r.attempts, token)];
      }
    }
    assert rows[..|rows|] == rows;
  }

  /**
   * A pass claims what is due and accounts for every intent claimed exactly once, by what became of
   * it, unless an exception escapes: then the intents from that one on wait for their lease to end.
   * `answers` is what the broker and the database answer for each intent.
   */
  method RelayOnce(
    db: JobOutbox, answers: nat -> Answers, o: Options, limit: nat, leaseMs: nat, token: Token, locked: set<nat>,
    missing: set<string>, now: int)
    returns (report: Option<Report>, missing': set<string>, claimed: seq<Claimed>, ghost chosen: set<nat>,
             ghost leased: seq<Row>, ghost outcomes: seq<Outcome>, ghost met: seq<seq<Row>>, ghost left: seq<seq<Row>>)
    requires WellFormed(db.Abs())
    modifies db
    ensures Picks(old(db.rows), now, limit, locked, chosen)
    ensures Leases(old(db.rows), leased, chosen, token, now + leaseMs)
    ensures IsClaim(claimed, leased, chosen, token)
    ensures AllTreated(claimed, answers, o, now, outcomes, met, left)
    ensures report.Some? ==> |outcomes| == |claimed| && report.value == Counted(|claimed|, outcomes)
    ensures report.Some? ==>
      report.value.claimed
      == report.value.delivered + report.value.retained + report.value.failed + report.value.lost
    ensures report.None? ==> |outcomes| < |claimed| && Escapes(answers(claimed[|outcomes|].id))
    ensures missing' == MissingAfter(missing, claimed[..if report.Some? then |claimed| else |outcomes| + 1], answers)
  {
    hide *;
    claimed, chosen := ClaimIntents(db, limit, leaseMs, token, locked, now);
    leased := db.rows;
    var tally := Report(|claimed|, 0, 0, 0, 0);
    missing', outcomes, met, left := missing, [], [], [];
    NoneTreated(missing, claimed, answers, o, now);
    var i := 0;
    while i < |claimed|
      invariant 0 <= i <= |claimed| && |outcomes| == i
      invariant tally == Counted(|claimed|, outcomes)
      invariant AllTreated(claimed, answers, o, now, outcomes, met, left)
      invariant missing' == MissingAfter(missing, claimed[..i], answers)
    {
      ghost var a := answers(claimed[i].id);
      var outcome, m, error, before := RelayIntent(db, claimed[i], answers(claimed[i].id), o, missing', now);
      MissingNext(missing, claimed, answers, i);
      missing' := m;
      if outcome.None? {
        return None, missing', claimed, chosen, leased, outcomes, met, left;
      }
      WrittenMeans(a, claimed[i], o, now, before, db.rows, outcome.value, error);
      TreatedMeans(a, claimed[i], before, outcome.value);
      OneMoreTreated(claimed, answers, o, now, outcomes, met, left, outcome.value, before, db.rows);
      match outcome.value {
        case Delivered => tally := tally.(delivered := tally.delivered + 1);
        case Retained => tally := tally.(retained := tally.retained + 1);
        case FailedSend => tally := tally.(failed := tally.failed + 1);
        case Lost => tally := tally.(lost := tally.lost + 1);
      }
      CountNext(|claimed|, outcomes, outcome.value);
      outcomes, met, left := outcomes + [outcome.value], met + [before], left + [db.rows];
      i := i + 1;
    }
    assert claimed[..|claimed|] == claimed;
    CountsAll(|claimed|, outcomes);
    report := Some(tally);
  }
}
