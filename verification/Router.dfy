/**
 * One engine's part of a logical request: wire attempts with their rate ticket, permits, probe
 * lease, credential, reservation and settlement; packs with retries; lanes; and the fallback.
 *
 * Answers of the limiter, the semaphores, the breaker, the store, the credential resolver and the
 * provider are inputs, chosen freely (`*`). What an attempt has taken from each of them is kept in a
 * `Wire` record, together with everything it was told (`Heard`); what a pack and a lane are told
 * besides is a `Turn` and an `Entry`. What is done, and how each attempt, pack and lane ends, is stated
 * by what was told.
 */
module Router {
  import opened Prelude
  import opened Normalize
  import opened PackSplitting
  import opened Retry
  import SpendGuard

  type Questions = seq<Normalize.Entry>

  type Answers = map<string, Answer>

  datatype Slot = EngineSlot | LlmSlot

  datatype Usage = Usage(inputTokens: nat, outputTokens: nat)

  datatype Lane = Lane(
    engine: Engine,
    injected: bool,
    semaphores: seq<Slot>,
    limited: bool,
    repriceable: bool,
    estimateUsd: (Questions, real) -> real,
    costUsd: (Usage, real) -> real,
    entropy: Entropy)

  /**
   * The two paid lanes: only Jev is rate limited, and the LLM takes its own slot first. Estimates
   * are token counts times prices, never negative.
   */
  ghost predicate IsPaidLane(l: Lane) {
    && (forall qs, price :: l.estimateUsd(qs, price) >= 0.0)
    && (|| (l.engine == Typesafe && l.semaphores == [EngineSlot] && l.limited)
        || (l.engine == Llm && l.semaphores == [LlmSlot, EngineSlot] && !l.limited && !l.repriceable))
  }

  datatype Attempt =
    | Success(answers: Answers, usage: Option<Usage>, costUsd: real)
    | Failure(status: Status, retryable: bool, retryAfterMs: Option<int>, usage: Option<Usage>, known: bool)

  /** What an attempt cost, or nothing when its billing is uncertain. */
  function CostOf(l: Lane, a: Attempt, price: real): Option<real> {
    match a
    case Success(_, usage, costUsd) =>
      Some(if l.repriceable && usage.Some? then l.costUsd(usage.value, price) else costUsd)
    case Failure(_, _, _, usage, known) =>
      if !known then None
      else Some(if usage.Some? then l.costUsd(usage.value, price) else 0.0)
  }

  /**
   * A failure of unknown billing has no known cost, and one known to have used nothing is free; a price
   * read at the attempt reprices what a repriceable engine used, and any other success costs what it says.
   */
  lemma CostsAre(l: Lane, a: Attempt, price: real)
    ensures a.Failure? && !a.known ==> CostOf(l, a, price) == None
    ensures a.Failure? && a.known ==>
      CostOf(l, a, price) == Some(if a.usage == None then 0.0 else l.costUsd(a.usage.value, price))
    ensures a.Success? && l.repriceable && a.usage.Some? ==>
      CostOf(l, a, price) == Some(l.costUsd(a.usage.value, price))
    ensures a.Success? && (!l.repriceable || a.usage.None?) ==> CostOf(l, a, price) == Some(a.costUsd)
  {
  }

  // ----- The account of one wire attempt -----

  // `opens` marks the first attempt of a pack and `probed` one begun with a probe token held;
  // `consulted` says that the shared breaker was asked between the previous attempt and this one, and
  // `reply` is what the engine sent back, when that could be read at all.

  datatype Ticket = NoTicket | Debited | Refunded

  datatype EvalReserve = NoReserve | Held | Cancelled | Committed(cost: Option<real>)

  datatype Spend = NotAsked | Refused | Raised | Admitted | Released | Settled | LeftCharged

  datatype Ending = Unsettled | Answered(status: Option<Status>, cost: Option<real>)

  /** What one attempt was told by everyone it asked; `without` says that there is no credential. */
  datatype Heard = Heard(
    without: bool,
    probed: bool,
    aborted: bool,
    rate: Option<Grant>,
    permits: seq<Grant>,
    renewal: Option<Said>,
    admission: Option<Said>,
    token: Option<nat>,
    credential: Option<bool>,
    reserve: Option<bool>,
    store: Option<Said>,
    price: real,
    provider: Option<Attempt>,
    releases: seq<bool>,
    settles: seq<bool>)

  datatype Grant = Given | WaitCancelled | WaitExpired

  datatype Said = Yes | No | Fails

  function Nothing(without: bool, probed: bool): Heard {
    Heard(without, probed, false, None, [], None, None, None, None, None, None, 0.0, None, [], [])
  }

  /** The probe lease held after an attempt: one that was lost is given up for what the breaker says then. */
  function TokenAfter(h: Heard, held: Option<nat>): Option<nat> {
    if h.renewal != Some(No) then held else if h.admission == Some(Yes) then h.token else None
  }

  predicate Ends(gs: seq<Grant>, g: Grant) {
    gs != [] && gs[|gs| - 1] == g
  }

  /** Nobody asked so far stands in the way. */
  predicate Unrefused(h: Heard) {
    && !h.aborted && (h.rate.Some? ==> h.rate.value == Given)
    && (forall i :: 0 <= i < |h.permits| ==> h.permits[i] == Given)
    && (h.renewal.Some? ==> h.renewal.value != Fails) && (h.admission.Some? ==> h.admission.value == Yes)
  }

  /** Why an attempt is not sent, by what it was told. */
  function RefusalOf(h: Heard): Option<AttemptResult> {
    if h.aborted || h.rate == Some(WaitCancelled) || Ends(h.permits, WaitCancelled) then Some(Abandoned)
    else if h.rate == Some(WaitExpired) || Ends(h.permits, WaitExpired) then Some(Deferred)
    else if h.renewal == Some(Fails) || h.admission == Some(Fails) || h.store == Some(Fails) then Some(Threw)
    else if h.admission == Some(No) then Some(CircuitDenied)
    else if h.reserve == Some(false) then Some(EvalBudget)
    else if h.store == Some(No) then Some(SpendDenied)
    else if h.store.None? then Some(NoCredential)
    else None
  }

  /** An attempt is sent exactly if the store admitted it and nobody before said anything but yes. */
  lemma SentExactly(h: Heard)
    ensures RefusalOf(h) == None <==>
      && h.store == Some(Yes) && h.reserve != Some(false) && !h.aborted
      && (h.rate == None || h.rate == Some(Given)) && (h.permits == [] || h.permits[|h.permits| - 1] == Given)
      && (h.renewal == None || h.renewal == Some(Yes) || h.renewal == Some(No))
      && (h.admission == None || h.admission == Some(Yes))
  {
    SaidIs(h.store);
    SaidIs(h.renewal);
    SaidIs(h.admission);
    GrantIs(h.rate);
    GrantIs(if h.permits == [] then None else Some(h.permits[|h.permits| - 1]));
  }

  lemma GrantIs(o: Option<Grant>)
    ensures o in {None, Some(Given), Some(WaitCancelled), Some(WaitExpired)}
  {
    match o
    case None =>
    case Some(g) => assert g == Given || g == WaitCancelled || g == WaitExpired;
  }

  lemma SaidIs(o: Option<Said>)
    ensures o in {None, Some(Yes), Some(No), Some(Fails)}
  {
    match o
    case None =>
    case Some(s) => assert s == Yes || s == No || s == Fails;
  }

  /** Everyone an attempt must ask was asked, and agreed. */
  predicate AllYes(h: Heard, l: Lane, eval: bool) {
    && Unrefused(h) && h.store == Some(Yes) && h.reserve == (if eval then Some(true) else None)
    && h.rate == (if l.limited then Some(Given) else None) && |h.permits| == |l.semaphores|
    && (if h.probed then h.renewal.Some? && (h.renewal == Some(No) ==> h.admission == Some(Yes)) else h.renewal.None?)
    && (if h.without then h.credential.None?
        else h.credential == Some(true) || (h.credential == Some(false) && l.injected))
  }

  /** Tried until it worked, at most three times. */
  predicate Tried(bs: seq<bool>, ok: bool) {
    && 1 <= |bs| <= 3 && bs[|bs| - 1] == ok && (forall i :: 0 <= i < |bs| - 1 ==> !bs[i])
    && (!ok ==> |bs| == 3)
  }

  /** What became of the reservation, by what the store said. */
  predicate SpendSays(w: Wire, h: Heard) {
    match h.store
    case None => w.spend == NotAsked
    case Some(No) => w.spend == Refused
    case Some(Fails) => w.spend == Raised
    case Some(Yes) =>
      if Sent(w) then
        h.releases == []
        && (|| w.spend == Admitted
            || (w.spend == Settled && Tried(h.settles, true))
            || (w.spend == LeftCharged && Tried(h.settles, false)))
      else (w.spend == Released && Tried(h.releases, true)) || (w.spend == LeftCharged && Tried(h.releases, false))
  }

  datatype Wire = Wire(
    ticket: Ticket,
    eval: EvalReserve,
    spend: Spend,
    reservedUsd: real,
    ordinal: Option<nat>,
    slots: seq<Slot>,
    opens: bool,
    probed: bool,
    consulted: bool,
    reply: Option<Json>,
    ending: Ending,
    heard: Heard)

  function Fresh(opens: bool, probed: bool): Wire {
    Wire(NoTicket, NoReserve, NotAsked, 0.0, None, [], opens, probed, false, None, Unsettled, Nothing(true, probed))
  }

  predicate Sent(w: Wire) {
    w.ordinal.Some?
  }

  /** An attempt that is not sent keeps nothing but, at worst, a charge nobody could release. */
  predicate ClosedUnsent(w: Wire, eval: bool) {
    && w.ordinal == None && w.ending == Unsettled && w.slots == []
    && w.ticket != Debited && w.reservedUsd >= 0.0
    && (match w.spend
        case NotAsked => w.eval == NoReserve
        case Refused => w.eval == (if eval then Cancelled else NoReserve)
        case Raised => w.eval == (if eval then Cancelled else NoReserve)
        case Released => w.eval == (if eval then Cancelled else NoReserve)
        case LeftCharged => w.eval == (if eval then Committed(None) else NoReserve)
        case _ => false)
  }

  /** An attempt on the wire, not settled yet: everything it took is still its own. */
  predicate InFlight(w: Wire, l: Lane, eval: bool) {
    && Sent(w) && w.ending == Unsettled && w.slots == l.semaphores
    && w.ticket == (if l.limited then Debited else NoTicket)
    && w.eval == (if eval then Held else NoReserve)
    && w.spend == Admitted && w.reservedUsd >= 0.0
  }

  /** A sent attempt keeps its rate ticket and is charged: settled, or left for housekeeping. */
  predicate ClosedSent(w: Wire, l: Lane, eval: bool) {
    && Sent(w) && w.ending.Answered? && w.slots == l.semaphores
    && w.ticket == (if l.limited then Debited else NoTicket)
    && w.eval == (if eval then Committed(w.ending.cost) else NoReserve)
    && (w.spend == Settled || w.spend == LeftCharged) && w.reservedUsd >= 0.0
  }

  predicate Closed(w: Wire, l: Lane, eval: bool) {
    ClosedUnsent(w, eval) || ClosedSent(w, l, eval)
  }

  /**
   * An attempt is sent exactly if everyone it asked agreed; what became of its reservation follows
   * from what the store said, and its ending from what the provider reported.
   */
  ghost predicate FollowsHeard(w: Wire, l: Lane, eval: bool) {
    && SpendSays(w, w.heard) && w.heard.probed == w.probed
    && (Sent(w) <==> RefusalOf(w.heard) == None)
    && (Sent(w) ==>
          && AllYes(w.heard, l, eval) && w.heard.provider.Some?
          && var said := w.heard.provider.value;
          w.ending == Answered(if said.Success? then None else Some(said.status), CostOf(l, said, w.heard.price)))
  }

  /** What an attempt ends with is what it was told: the provider's report, or the first refusal. */
  ghost predicate IsResult(r: AttemptResult, w: Wire, l: Lane, qs: Questions) {
    && RefusalOf(w.heard) == (if r.OnWire? then None else Some(r))
    && (r.OnWire? ==>
          && w.heard.provider == Some(r.attempt) && r.price == w.heard.price
          && (r.authenticated <==> w.heard.credential == Some(true))
          && w.reservedUsd == l.estimateUsd(qs, r.price)
          && (r.attempt.Success? && !l.injected ==> Relayed(l, r.attempt.answers, qs, w.reply)))
  }

  /** The attempt is known to have cost more than it reserved. */
  predicate Overran(w: Wire) {
    w.ending.Answered? && w.ending.cost.Some?
    && w.ending.cost.value > w.reservedUsd + SpendGuard.USD_EPSILON
  }

  /** An attempt that another one of the same pack may follow. */
  predicate MayRetry(w: Wire) {
    && Sent(w) && !Overran(w)
    && w.ending.Answered? && w.ending.status.Some? && Transient(w.ending.status.value)
  }

  predicate Invalid(w: Wire) {
    w.ending.Answered? && w.ending.status == Some(InvalidResponse)
  }

  // ----- The account of a lane -----

  function Sends(ws: seq<Wire>): nat {
    if ws == [] then 0 else Sends(ws[..|ws| - 1]) + if Sent(ws[|ws| - 1]) then 1 else 0
  }

  function InvalidCount(ws: seq<Wire>): nat {
    if ws == [] then 0 else InvalidCount(ws[..|ws| - 1]) + if Invalid(ws[|ws| - 1]) then 1 else 0
  }

  function KnownCost(w: Wire): real {
    if w.ending.Answered? && w.ending.cost.Some? then w.ending.cost.value else 0.0
  }

  function TotalCost(ws: seq<Wire>): real {
    if ws == [] then 0.0 else TotalCost(ws[..|ws| - 1]) + KnownCost(ws[|ws| - 1])
  }

  /** The call that closes an attempt's eval reserve. */
  function EvalCloses(w: Wire): seq<SpendGuard.Call> {
    match w.eval
    case Cancelled => [SpendGuard.Cancel(w.reservedUsd)]
    case Committed(cost) => [SpendGuard.Settle(w.reservedUsd, cost)]
    case _ => []
  }

  /** Every call an attempt makes on the eval budget that changes it. */
  function EvalCalls(w: Wire): seq<SpendGuard.Call> {
    (if w.eval == NoReserve then [] else [SpendGuard.Reserve(w.reservedUsd)]) + EvalCloses(w)
  }

  function LaneCalls(ws: seq<Wire>): seq<SpendGuard.Call> {
    if ws == [] then [] else LaneCalls(ws[..|ws| - 1]) + EvalCalls(ws[|ws| - 1])
  }

  ghost predicate AllClosed(ws: seq<Wire>, l: Lane, eval: bool) {
    forall i :: 0 <= i < |ws| ==> Closed(ws[i], l, eval) && FollowsHeard(ws[i], l, eval)
  }

  /** The k-th attempt sent carries ordinal k. */
  ghost predicate Numbered(ws: seq<Wire>) {
    forall i :: 0 <= i < |ws| && Sent(ws[i]) ==> ws[i].ordinal == Some(Sends(ws[..i + 1]))
  }

  /** No attempt follows one that overran its reservation. */
  ghost predicate OverrunIsLast(ws: seq<Wire>) {
    forall i :: 0 <= i < |ws| - 1 ==> !Overran(ws[i])
  }

  /**
   * An attempt of the pack that begins after `first`: a retry sent has consulted the shared
   * breaker; the opening attempt has exactly if it was `asked` already or a probe was held.
   */
  predicate Asks(first: seq<Wire>, w: Wire, i: nat, asked: bool, probed: bool) {
    && (w.opens <==> i == |first|)
    && (w.opens ==> w.probed == probed)
    && (Sent(w) ==> (w.consulted <==> !w.opens || asked || probed))
  }

  /** Of a lane's attempts sent, exactly those that open a later pack with no probe held were not
      preceded by a look at the shared breaker. */
  ghost predicate Consultations(ws: seq<Wire>) {
    forall i :: 0 <= i < |ws| && Sent(ws[i]) ==> (!ws[i].consulted <==> ws[i].opens && i > 0 && !ws[i].probed)
  }

  /** Attempts of a pack that is still going: all sent, and failed in a way worth retrying. */
  ghost predicate Retrying(first: seq<Wire>, ws: seq<Wire>, asked: bool, probed: bool) {
    && first <= ws
    && (forall i :: |first| <= i < |ws| ==> MayRetry(ws[i]))
    && (forall i :: |first| <= i < |ws| ==> Asks(first, ws[i], i, asked, probed))
    && InvalidCount(ws) <= InvalidCount(first) + 1
  }

  /**
   * The attempts a pack adds: all but the last were sent and worth retrying, at most one of those
   * was an invalid response, and the shared breaker was consulted as `Asks` says.
   */
  ghost predicate PackAccount(first: seq<Wire>, ws: seq<Wire>, asked: bool, probed: bool) {
    && first <= ws
    && (forall i :: |first| <= i < |ws| - 1 ==> MayRetry(ws[i]))
    && (forall i :: |first| <= i < |ws| ==> Asks(first, ws[i], i, asked, probed))
    && (|ws| > |first| ==> InvalidCount(ws[..|ws| - 1]) <= InvalidCount(first) + 1)
  }

  // ----- Results -----

  datatype AttemptResult =
    | OnWire(attempt: Attempt, price: real, authenticated: bool)
    | NoCredential
    | SpendDenied
    | EvalBudget
    | Abandoned
    | Deferred
    | CircuitDenied
    | Threw

  datatype Verdict = NeutralVerdict | SuccessVerdict | FailureVerdict

  datatype Outcome =
    | RequestCancelled
    | RetryAfterDeferred
    | CapacityDeferred
    | NoKey
    | BudgetOutcome
    | DemandLost
    | CircuitOpen
    | BadRequest
    | AttemptFailed(status: Status)
    | CostOverrun
    | IncompleteAnswers

  datatype PackResult =
    | PackOk(answers: Answers, overrun: bool)
    | PackFailed(outcome: Outcome, verdict: Verdict)
    | PackThrew

  /**
   * What a pack is told around one attempt: before a retry the clock, whether its sleep went through
   * and the shared breaker; after a failure whether the request is cancelled, whether reporting the
   * credential failed, and the retry policy's draw; after a refused reservation why it was refused.
   */
  datatype Turn = Turn(now: int, woke: bool, breaker: Said, token: Option<nat>, aborted: bool, raised: bool,
                       denial: Said, random: real)

  /** One turn of a pack: the delay it waits first, whether a probe is held, and the delay it decides on. */
  datatype Play = Play(turn: Turn, delayMs: int, probe: bool, next: int)

  /** What a lane is told before its first pack; reading the LLM's daily cap may fail. */
  datatype Entry = Entry(aborted: bool, available: bool, breaker: Said, token: Option<nat>, capRaised: bool)

  /** A pack that ran: how many attempts there are at its end, its turns, and its result. */
  datatype Ran = Ran(upTo: nat, plays: seq<Play>, result: PackResult)

  datatype LaneResult =
    | LaneOk(answers: Answers, costUsd: real)
    | LaneFailed(outcome: Outcome)
    | LaneThrew

  /** What the breaker is told about a pack that ended in `o`, given whether it sent anything. */
  function VerdictOf(o: Outcome, sent: bool): Verdict {
    match o
    case RetryAfterDeferred => FailureVerdict
    case CapacityDeferred => if sent then FailureVerdict else NeutralVerdict
    case CircuitOpen => if sent then FailureVerdict else NeutralVerdict
    case AttemptFailed(s) => if s == AuthError then NeutralVerdict else FailureVerdict
    case _ => NeutralVerdict
  }

  const SETTLE_TRIES := 3

  /** Jev reports answers of its own kind, the LLM plain JSON. */
  function FormatOf(e: Engine): Format {
    if e == Llm then LlmJson else Jev
  }

  /** Each answer says what this reply sent for its question. */
  ghost predicate Relayed(l: Lane, answers: Answers, qs: Questions, reply: Option<Json>) {
    && AnswersExactly(answers, qs)
    && (forall i :: 0 <= i < |qs| ==> Tells(l, answers, qs[i], reply))
  }

  ghost predicate Tells(l: Lane, answers: Answers, q: Normalize.Entry, reply: Option<Json>) {
    && q.key in answers && reply.Some? && reply.value.JObj? && q.key in reply.value.fields
    && Conveys(FormatOf(l.engine), reply.value.fields[q.key], q.question, l.entropy, answers[q.key])
  }

  /** Each answer says what some attempt's reply sent for its question. */
  ghost predicate Reported(l: Lane, answers: Answers, qs: Questions, ws: seq<Wire>) {
    && AnswersExactly(answers, qs)
    && (forall i :: 0 <= i < |qs| ==> Told(l, answers, qs[i], ws))
  }

  ghost predicate Told(l: Lane, answers: Answers, q: Normalize.Entry, ws: seq<Wire>) {
    exists j :: 0 <= j < |ws| && Tells(l, answers, q, ws[j].reply)
  }

  /** The answers cover exactly these questions, each soundly. */
  ghost predicate AnswersExactly(answers: Answers, qs: Questions) {
    && answers.Keys == KeySet(EntryKeys(qs))
    && (forall i :: 0 <= i < |qs| ==> qs[i].key in answers && Sound(qs[i].question, answers[qs[i].key]))
  }

  ghost predicate Askable(qs: Questions) {
    Distinct(EntryKeys(qs)) && forall e :: e in qs ==> WellPosed(e.question)
  }

  class LaneRun {
    const lane: Lane
    const budget: SpendGuard.InvocationBudget?
    const evalRouter := budget != null
    const deadlineMs: Option<int>
    const maxRetryWaitMs: int
    var withoutCredential: bool
    var held: seq<Slot>
    var cur: Wire
    var tries: seq<Wire>
    ghost var calls: seq<SpendGuard.Call>
    var ordinal: nat
    var probeToken: Option<nat>
    var consulted: bool
    var spentUsd: real
    var penalties: nat
    var condemned: nat
    var verdicts: seq<Verdict>

    constructor (l: Lane, b: SpendGuard.InvocationBudget?, deadline: Option<int>, maxWait: int)
      requires IsPaidLane(l)
      ensures lane == l && budget == b && Balanced() && tries == [] && verdicts == []
    {
      lane, budget, deadlineMs, maxRetryWaitMs := l, b, deadline, maxWait;
      withoutCredential, held, cur, tries, ordinal := false, [], Fresh(true, false), [], 0;
      calls := [];
      probeToken, consulted, spentUsd, penalties, condemned, verdicts := None, false, 0.0, 0, 0, [];
    }

    /** Between attempts: no permit is held and every attempt so far is fully accounted for. */
    ghost predicate Balanced()
      reads this`held, this`tries, this`ordinal, this`spentUsd, this`calls
    {
      && IsPaidLane(lane) && held == []
      && AllClosed(tries, lane, evalRouter) && Numbered(tries) && OverrunIsLast(tries)
      && ordinal == Sends(tries) && spentUsd == TotalCost(tries) && calls == LaneCalls(tries)
    }

    /** The shared eval budget is balanced, and the reserve `mine` is open on it. */
    ghost predicate Funded(mine: Option<real>)
      reads budget
    {
      budget != null ==>
        SpendGuard.Balanced(budget.Abs(), budget.limitUsd) && (mine.Some? ==> mine.value in budget.open)
    }

    /** Other requests may use the budget meanwhile, each closing reserves of its own only. */
    method Interference(ghost mine: Option<real>)
      requires Funded(mine)
      modifies budget
      ensures Funded(mine)
    {
    }

    // What the others answer: each is asked here only, and what it said goes on record.

    method LookAborted(h: Heard) returns (aborted: bool, told: Heard)
      ensures told == h.(aborted := h.aborted || aborted)
    {
      aborted := *;
      told := h.(aborted := h.aborted || aborted);
    }

    method AskLimiter(h: Heard) returns (g: Grant, told: Heard)
      ensures told == h.(rate := Some(g))
    {
      g := *;
      told := h.(rate := Some(g));
    }

    method AskSemaphore(s: Slot, h: Heard) returns (g: Grant, told: Heard)
      ensures told == h.(permits := h.permits + [g])
    {
      g := *;
      told := h.(permits := h.permits + [g]);
    }

    method AskRenewal(h: Heard) returns (said: Said, told: Heard)
      ensures told == h.(renewal := Some(said))
    {
      said := *;
      told := h.(renewal := Some(said));
    }

    method AskBreaker(h: Heard) returns (said: Said, token: Option<nat>, told: Heard)
      ensures told == h.(admission := Some(said), token := token)
    {
      said, token := *, *;
      told := h.(admission := Some(said), token := token);
    }

    method AskResolver(h: Heard) returns (invoked: bool, told: Heard)
      ensures told == h.(credential := Some(invoked))
    {
      invoked := *;
      told := h.(credential := Some(invoked));
    }

    method AskStore(h: Heard) returns (said: Said, told: Heard)
      ensures told == h.(store := Some(said))
    {
      said := *;
      told := h.(store := Some(said));
    }

    method PriceNow(h: Heard) returns (price: real, told: Heard)
      ensures told == h.(price := price)
    {
      price := *;
      told := h.(price := price);
    }

    method StoreAccepts(said: seq<bool>) returns (ok: bool, told: seq<bool>)
      ensures told == said + [ok]
    {
      ok := *;
      told := said + [ok];
    }

    method ReserveEval(a: real) returns (ok: bool)
      requires budget != null && a >= 0.0 && Funded(None)
      modifies this`calls, budget
      ensures Funded(if ok then Some(a) else None)
      ensures ok == SpendGuard.Admits(old(budget.Abs()), a, budget.limitUsd)
      ensures budget.Abs() == SpendGuard.After(old(budget.Abs()), SpendGuard.Reserve(a), budget.limitUsd)
      ensures calls == old(calls) + if ok then [SpendGuard.Reserve(a)] else []
    {
      SpendGuard.ReserveKeepsBalance(budget.Abs(), a, budget.limitUsd);
      ok := budget.TryReserve(a);
      calls := calls + if ok then [SpendGuard.Reserve(a)] else [];
    }

    method CancelEval(a: real)
      requires budget != null && Funded(Some(a))
      modifies this`calls, budget
      ensures Funded(None) && calls == old(calls) + [SpendGuard.Cancel(a)]
      ensures budget.Abs() == SpendGuard.After(old(budget.Abs()), SpendGuard.Cancel(a), budget.limitUsd)
    {
      SpendGuard.CloseKeepsBalance(budget.Abs(), SpendGuard.Cancel(a), budget.limitUsd);
      budget.Cancel(a);
      calls := calls + [SpendGuard.Cancel(a)];
    }

    method SettleEval(a: real, cost: Option<real>)
      requires budget != null && Funded(Some(a))
      modifies this`calls, budget
      ensures Funded(None) && calls == old(calls) + [SpendGuard.Settle(a, cost)]
      ensures budget.Abs() == SpendGuard.After(old(budget.Abs()), SpendGuard.Settle(a, cost), budget.limitUsd)
    {
      SpendGuard.CloseKeepsBalance(budget.Abs(), SpendGuard.Settle(a, cost), budget.limitUsd);
      budget.Settle(a, cost);
      calls := calls + [SpendGuard.Settle(a, cost)];
    }

    /** What the provider reports, and the reply it could be read from. */
    method Provider() returns (said: Attempt, raw: Json)
    {
      said, raw := *, *;
    }

    /**
     * An adapter's answer: an injected engine may say anything; a real one normalizes the reply, and
     * what it cannot accept is an invalid response, billed all the same.
     */
    method Ask(qs: Questions, h: Heard) returns (a: Attempt, reply: Option<Json>, told: Heard, ghost said: Attempt)
      requires Askable(qs)
      ensures told == h.(provider := Some(a))
      ensures a.Success? && !lane.injected ==> Relayed(lane, a.answers, qs, reply)
      ensures !said.Success? || lane.injected ==> a == said
      ensures said.Success? && !lane.injected ==>
        a == if reply.Some? && AcceptableResponse(FormatOf(lane.engine), reply.value, qs)
             then Success(if a.Success? then a.answers else map[], said.usage, said.costUsd)
             else Failure(InvalidResponse, true, None, said.usage, true)
    {
      var report, raw := Provider();
      a, reply, said := report, None, report;
      if report.Success? && !lane.injected {
        reply := Some(raw);
        var answers := NormalizeAnswers(FormatOf(lane.engine), raw, qs, lane.entropy);
        if answers.None? {
          a := Failure(InvalidResponse, true, None, report.usage, true);
        } else {
          AreRelayed(answers.value, qs, raw);
          a := Success(answers.value, report.usage, report.costUsd);
        }
      }
      told := h.(provider := Some(a));
    }

    lemma AreRelayed(answers: Answers, qs: Questions, raw: Json)
      requires AnswersExactly(answers, qs) && raw.JObj?
      requires forall i :: 0 <= i < |qs| ==>
        qs[i].key in raw.fields && qs[i].key in answers
        && Conveys(FormatOf(lane.engine), raw.fields[qs[i].key], qs[i].question, lane.entropy, answers[qs[i].key])
      ensures Relayed(lane, answers, qs, Some(raw))
    {
      hide AnswersExactly, Conveys;
    }

    /** Give back a reservation whose attempt is never sent; after three refusals it stays charged. */
    method ReleaseUnsent() returns (refusals: nat, told: seq<bool>)
      requires cur.spend == Admitted && cur.eval == (if evalRouter then Held else NoReserve)
      requires Funded(Some(cur.reservedUsd))
      modifies this`cur, this`calls, budget
      ensures Funded(None) && Tried(told, refusals < SETTLE_TRIES)
      ensures calls == old(calls) + EvalCloses(cur)
      ensures cur == if refusals < SETTLE_TRIES
                     then old(cur).(spend := Released, eval := if evalRouter then Cancelled else NoReserve)
                     else old(cur).(spend := LeftCharged,
                                    eval := if evalRouter then Committed(None) else NoReserve)
    {
      hide Funded, Tried;
      refusals, told := 0, [];
      while true
        invariant refusals < SETTLE_TRIES && cur == old(cur) && calls == old(calls)
        invariant Funded(Some(cur.reservedUsd))
        invariant |told| == refusals && forall i :: 0 <= i < refusals ==> !told[i]
        decreases SETTLE_TRIES - refusals
      {
        Interference(Some(cur.reservedUsd));
        var ok;
        ok, told := StoreAccepts(told);
        TriedSoFar(told, ok);
        if ok {
          cur := cur.(spend := Released);
          if budget != null {
            CancelEval(cur.reservedUsd);
            cur := cur.(eval := Cancelled);
          } else {
            Unbudgeted(cur.reservedUsd);
          }
          return;
        }
        refusals := refusals + 1;
        if refusals >= SETTLE_TRIES {
          cur := cur.(spend := LeftCharged);
          if budget != null {
            SettleEval(cur.reservedUsd, None);
            cur := cur.(eval := Committed(None));
          } else {
            Unbudgeted(cur.reservedUsd);
          }
          return;
        }
      }
    }

    lemma TriedSoFar(told: seq<bool>, ok: bool)
      requires 1 <= |told| <= 3 && told[|told| - 1] == ok && forall i :: 0 <= i < |told| - 1 ==> !told[i]
      ensures ok || |told| == 3 ==> Tried(told, ok)
    {
    }

    /** The eval budget's answer and, after it, the store's. */
    method TakeReserve(estimate: real, g: Heard) returns (refusal: Option<AttemptResult>, h: Heard)
      requires Funded(None) && cur.spend == NotAsked && cur.eval == NoReserve && estimate >= 0.0
      requires g.store.None? && g.reserve.None?
      modifies this`cur, this`calls, budget
      ensures h == g.(reserve := h.reserve, store := h.store)
      ensures h.reserve.Some? == evalRouter && (h.store.None? <==> h.reserve == Some(false))
      ensures StoreSays(h.store, refusal, cur.spend)
      ensures Funded(if refusal.None? then Some(estimate) else None)
      ensures calls == old(calls) + EvalCalls(cur)
      ensures cur == old(cur).(eval := cur.eval, spend := cur.spend, reservedUsd := estimate)
      ensures cur.eval == if !evalRouter || h.store.None? then NoReserve
                          else if refusal.None? then Held
                          else Cancelled
    {
      hide *;
      EvalFirst();
      var reserved;
      reserved, h := TakeEval(estimate, g);
      if !reserved {
        return Some(EvalBudget), h;
      }
      ghost var open := cur;
      refusal, h := TakeSpend(h);
      if refusal.None? {
        CallsSame(open, cur);
      } else {
        CallsJoin(old(calls), open, cur);
      }
    }

    /** The eval budget, when there is one; other requests may use it before the store is asked. */
    method TakeEval(estimate: real, g: Heard) returns (reserved: bool, h: Heard)
      requires Funded(None) && cur.eval == NoReserve && estimate >= 0.0 && g.reserve.None?
      modifies this`cur, this`calls, budget
      ensures h == g.(reserve := if evalRouter then Some(reserved) else None) && (!reserved ==> evalRouter)
      ensures Funded(if reserved then Some(estimate) else None) && calls == old(calls) + EvalCalls(cur)
      ensures cur == old(cur).(reservedUsd := estimate, eval := if reserved && evalRouter then Held else NoReserve)
    {
      hide Funded, EvalCalls, EvalCloses;
      cur := cur.(reservedUsd := estimate);
      reserved, h := true, g;
      if budget != null {
        reserved := ReserveEval(estimate);
        h := h.(reserve := Some(reserved));
        if reserved {
          cur := cur.(eval := Held);
        }
      } else {
        Unbudgeted(estimate);
      }
      CallsAre(cur);
      if reserved {
        Interference(Some(estimate));
      }
    }

    lemma EvalFirst()
      ensures StoreSays(None, Some(EvalBudget), NotAsked)
    {
    }

    /** What the store says about the reservation, and what becomes of it. */
    ghost predicate StoreSays(said: Option<Said>, refusal: Option<AttemptResult>, spend: Spend) {
      match said
      case None => refusal == Some(EvalBudget) && spend == NotAsked
      case Some(Yes) => refusal == None && spend == Admitted
      case Some(No) => refusal == Some(SpendDenied) && spend == Refused
      case Some(Fails) => refusal == Some(Threw) && spend == Raised
    }

    /** A refusal of the store gives the eval reserve back. */
    method TakeSpend(g: Heard) returns (refusal: Option<AttemptResult>, h: Heard)
      requires Funded(Some(cur.reservedUsd)) && cur.eval == (if evalRouter then Held else NoReserve)
      modifies this`cur, this`calls, budget
      ensures h == g.(store := h.store) && h.store.Some? && StoreSays(h.store, refusal, cur.spend)
      ensures Funded(if refusal.None? then Some(cur.reservedUsd) else None)
      ensures refusal.None? ==> calls == old(calls) && cur == old(cur).(spend := Admitted)
      ensures refusal.Some? ==>
        && calls == old(calls) + EvalCloses(cur)
        && cur == old(cur).(spend := cur.spend, eval := if evalRouter then Cancelled else NoReserve)
    {
      hide Funded;
      var said;
      said, h := AskStore(g);
      if said == Yes {
        cur := cur.(spend := Admitted);
        return None, h;
      }
      cur := cur.(spend := if said == Fails then Raised else Refused);
      refusal := Some(if said == Fails then Threw else SpendDenied);
      if budget != null {
        CancelEval(cur.reservedUsd);
        cur := cur.(eval := Cancelled);
      } else {
        Unbudgeted(cur.reservedUsd);
      }
    }

    lemma Unbudgeted(estimate: real)
      requires budget == null
      ensures Funded(None) && Funded(Some(estimate))
    {
    }

    /**
     * The eval reserve, then the spend reservation, then the send. Sent means the next ordinal, on
     * an admitted reservation of the estimate; anything else leaves nothing reserved. Which it is
     * follows from what the attempt was told.
     */
    method ReserveAndSend(qs: Questions, authenticated: bool, g: Heard) returns (r: AttemptResult, h: Heard)
      requires IsPaidLane(lane) && Askable(qs) && Funded(None)
      requires cur.spend == NotAsked && cur.eval == NoReserve && !Sent(cur)
      requires Unrefused(g) && Unasked(g)
      modifies this`cur, this`ordinal, this`calls, budget
      ensures Funded(if r.OnWire? then Some(cur.reservedUsd) else None)
      ensures calls == old(calls) + EvalCalls(cur)
      ensures ordinal == old(ordinal) + (if r.OnWire? then 1 else 0)
      ensures EndsUp(old(cur), cur, g, h, qs, r, ordinal, held, consulted)
      ensures h.credential == g.credential && (r.OnWire? ==> r.authenticated == authenticated)
    {
      hide *;
      var price;
      price, h := PriceNow(g);
      var estimate := lane.estimateUsd(qs, price);
      NeverNegative(qs, price);
      NoCalls(cur);
      NotYet(g);
      var aborted;
      aborted, h := LookAborted(h);
      if aborted {
        AbortedBefore(cur, g, h, qs, ordinal, held, consulted);
        return Abandoned, h;
      }
      Interference(None);
      var refusal;
      refusal, h := TakeReserve(estimate, h);
      if refusal.Some? {
        RefusedBy(old(cur), cur, g, h, qs, refusal.value, ordinal, held, consulted);
        return refusal.value, h;
      }
      StoreAgrees(cur, h);
      r, h := SendAdmitted(qs, price, authenticated, h, old(cur), g, old(calls));
    }

    /** The store agreed: what is sent, or given back, in terms of what came before the reservation. */
    method SendAdmitted(qs: Questions, price: real, authenticated: bool, asked: Heard,
                        ghost w: Wire, ghost g: Heard, ghost before: seq<SpendGuard.Call>)
      returns (r: AttemptResult, h: Heard)
      requires Askable(qs) && Unrefused(g) && Unasked(g) && !Sent(w)
      requires asked == g.(reserve := asked.reserve, store := asked.store, price := price)
      requires StoreSays(asked.store, None, cur.spend) && asked.reserve.Some? == evalRouter
      requires asked.store.None? <==> asked.reserve == Some(false)
      requires lane.estimateUsd(qs, price) >= 0.0 && Funded(Some(cur.reservedUsd))
      requires cur == w.(eval := if evalRouter then Held else NoReserve, spend := Admitted,
                         reservedUsd := lane.estimateUsd(qs, price))
      requires calls == before + EvalCalls(cur)
      modifies this`cur, this`ordinal, this`calls, budget
      ensures Funded(if r.OnWire? then Some(cur.reservedUsd) else None) && calls == before + EvalCalls(cur)
      ensures ordinal == old(ordinal) + (if r.OnWire? then 1 else 0)
      ensures EndsUp(w, cur, g, h, qs, r, ordinal, held, consulted)
      ensures h.credential == g.credential && (r.OnWire? ==> r.authenticated == authenticated)
    {
      hide *;
      SentMeans(w);
      SentMeans(cur);
      NotYet(g);
      ghost var admitted := cur;
      StoreAgrees(cur, asked);
      r, h := SendReserved(qs, price, authenticated, asked);
      SendMeans(w, admitted, cur, qs, price, r, ordinal, held, consulted);
      SentBy(cur, g, asked, h, r, price);
      IsEndedUp(w, cur, g, h, qs, r, ordinal, held, consulted);
      if r == Abandoned {
        CallsJoin(before, admitted, cur);
      } else {
        CallsSame(admitted, cur);
      }
    }

    /** The store and the provider have not been asked. */
    ghost predicate Unasked(h: Heard) {
      h.store.None? && h.reserve.None? && h.provider.None? && h.releases == [] && h.settles == []
    }

    /** What was told before the credential is as it was. */
    ghost predicate SameSoFar(g: Heard, h: Heard) {
      && h.without == g.without && h.probed == g.probed && h.rate == g.rate && h.permits == g.permits
      && h.renewal == g.renewal && h.admission == g.admission && h.token == g.token && h.settles == g.settles
    }

    /** What an attempt on the wire was told from the eval budget on. */
    ghost predicate GotThrough(h: Heard, r: AttemptResult, eval: bool) {
      && r.OnWire? && Unrefused(h) && h.store == Some(Yes) && h.reserve == (if eval then Some(true) else None)
      && h.provider == Some(r.attempt) && r.price == h.price
    }

    lemma StoreAgrees(w: Wire, h: Heard)
      requires StoreSays(h.store, None, w.spend)
      ensures w.spend == Admitted && h.store == Some(Yes)
    {
    }

    lemma StoreRefuses(before: Wire, after: Wire, said: Option<Said>, r: AttemptResult)
      requires before.eval == NoReserve && before.spend == NotAsked && StoreSays(said, Some(r), after.spend)
      requires after == before.(eval := after.eval, spend := after.spend, reservedUsd := after.reservedUsd)
      requires after.reservedUsd >= 0.0 && (said.None? ==> evalRouter)
      requires after.eval == if !evalRouter || said.None? then NoReserve else Cancelled
      ensures Kept(before, after, r)
    {
      RefusalMeans(before, after, r);
    }

    lemma NeverNegative(qs: Questions, price: real)
      requires IsPaidLane(lane)
      ensures lane.estimateUsd(qs, price) >= 0.0
    {
    }

    lemma NotYet(g: Heard)
      requires Unrefused(g) && Unasked(g)
      ensures !g.aborted && g.store.None? && g.reserve.None? && g.releases == []
    {
    }

    /**
     * Where one attempt ends up from the credential on: on the wire, with everyone in agreement, or
     * refused by the first that was not; either way as what it was told says.
     */
    ghost predicate EndsUp(before: Wire, after: Wire, g: Heard, h: Heard, qs: Questions, r: AttemptResult, n: nat,
                           slots: seq<Slot>, asked: bool) {
      && SameSoFar(g, h) && SpendSays(after, h) && RefusalOf(h) == (if r.OnWire? then None else Some(r))
      && (r.OnWire? ==> GoesOut(before, after, qs, r, n, slots, asked) && GotThrough(h, r, evalRouter))
      && (!r.OnWire? ==> Kept(before, after, r))
    }

    lemma IsEndedUp(before: Wire, after: Wire, g: Heard, h: Heard, qs: Questions, r: AttemptResult, n: nat,
                    slots: seq<Slot>, asked: bool)
      requires SameSoFar(g, h) && SpendSays(after, h) && RefusalOf(h) == (if r.OnWire? then None else Some(r))
      requires r.OnWire? ==> GoesOut(before, after, qs, r, n, slots, asked) && GotThrough(h, r, evalRouter)
      requires !r.OnWire? ==> Kept(before, after, r)
      ensures EndsUp(before, after, g, h, qs, r, n, slots, asked)
    {
      hide SameSoFar, SpendSays, RefusalOf, GoesOut, GotThrough, Kept;
    }

    lemma AbortedBefore(w: Wire, g: Heard, h: Heard, qs: Questions, n: nat, slots: seq<Slot>, asked: bool)
      requires Unasked(g) && w.spend == NotAsked && w.eval == NoReserve && h == g.(aborted := true, price := h.price)
      ensures EndsUp(w, w, g, h, qs, Abandoned, n, slots, asked)
    {
      RefusalMeans(w, w, Abandoned);
      hide Kept, GoesOut, GotThrough;
    }

    lemma RefusedBy(before: Wire, w: Wire, g: Heard, h: Heard, qs: Questions, r: AttemptResult, n: nat,
                    slots: seq<Slot>, asked: bool)
      requires Unrefused(g) && Unasked(g) && h == g.(reserve := h.reserve, store := h.store, price := h.price)
      requires (h.store.None? <==> h.reserve == Some(false)) && StoreSays(h.store, Some(r), w.spend)
      requires before.eval == NoReserve && before.spend == NotAsked && h.reserve.Some? == evalRouter
      requires w == before.(eval := w.eval, spend := w.spend, reservedUsd := w.reservedUsd) && w.reservedUsd >= 0.0
      requires w.eval == if !evalRouter || h.store.None? then NoReserve else Cancelled
      ensures EndsUp(before, w, g, h, qs, r, n, slots, asked) && !r.OnWire?
    {
      StoreRefuses(before, w, h.store, r);
      hide Kept, GoesOut, GotThrough;
    }

    lemma TrueOrFalse(said: Option<bool>)
      ensures said.Some? ==> said == Some(true) || said == Some(false)
    {
      if said.Some? && said.value {
        assert said == Some(true);
      }
    }

    lemma SentBy(w: Wire, g: Heard, asked: Heard, h: Heard, r: AttemptResult, price: real)
      requires Unrefused(g) && Unasked(g)
      requires asked == g.(reserve := asked.reserve, store := asked.store, price := price)
      requires StoreSays(asked.store, None, Admitted) && asked.reserve.Some? == evalRouter
      requires asked.store.None? <==> asked.reserve == Some(false)
      requires h == asked.(aborted := h.aborted, provider := h.provider, releases := h.releases)
      requires r == Abandoned || r.OnWire?
      requires r.OnWire? ==>
        && !h.aborted && h.provider == Some(r.attempt) && r.price == price && h.releases == []
        && Sent(w) && w.spend == Admitted
      requires r == Abandoned ==>
        && h.aborted && !Sent(w) && (w.spend == Released || w.spend == LeftCharged)
        && Tried(h.releases, w.spend == Released)
      ensures SpendSays(w, h) && RefusalOf(h) == (if r.OnWire? then None else Some(r)) && SameSoFar(g, h)
      ensures h.credential == g.credential
      ensures r.OnWire? ==> GotThrough(h, r, evalRouter)
    {
      hide Tried;
      TrueOrFalse(asked.reserve);
    }

    /** The reservation is admitted: cancelled meanwhile it is released, otherwise the attempt goes out. */
    method SendReserved(qs: Questions, price: real, authenticated: bool, g: Heard)
      returns (r: AttemptResult, h: Heard)
      requires Askable(qs) && Funded(Some(cur.reservedUsd)) && !Sent(cur)
      requires cur.spend == Admitted && cur.eval == (if evalRouter then Held else NoReserve)
      requires !g.aborted && g.releases == []
      modifies this`cur, this`ordinal, this`calls, budget
      ensures h == g.(aborted := h.aborted, releases := h.releases, provider := h.provider)
      ensures r == Abandoned || r.OnWire?
      ensures r.OnWire? ==>
        && ordinal == old(ordinal) + 1 && r.authenticated == authenticated && r.price == price
        && calls == old(calls) && Funded(Some(cur.reservedUsd)) && Sent(cur)
        && cur == old(cur).(ordinal := Some(ordinal), slots := held, consulted := consulted, reply := cur.reply)
        && (r.attempt.Success? && !lane.injected ==> Relayed(lane, r.attempt.answers, qs, cur.reply))
        && !h.aborted && h.releases == [] && h.provider == Some(r.attempt)
      ensures !r.OnWire? ==>
        && ordinal == old(ordinal) && calls == old(calls) + EvalCloses(cur) && Funded(None)
        && cur in Unsent(old(cur)) && !Sent(cur) && (cur.spend == Released || cur.spend == LeftCharged)
        && h.aborted && Tried(h.releases, cur.spend == Released)
    {
      hide *;
      var aborted;
      aborted, h := LookAborted(g);
      if aborted {
        ghost var admitted := cur;
        var refusals, told := ReleaseUnsent();
        h := h.(releases := told);
        IsUnsent(admitted, cur);
        return Abandoned, h;
      }
      ordinal := ordinal + 1;
      cur := cur.(ordinal := Some(ordinal), slots := held, consulted := consulted);
      var attempt, reply, told, _ := Ask(qs, h);
      h := told;
      cur := cur.(reply := reply);
      SentMeans(cur);
      Interference(Some(cur.reservedUsd));
      r := OnWire(attempt, price, authenticated);
    }

    lemma SentMeans(w: Wire)
      ensures Sent(w) <==> w.ordinal.Some?
    {
    }

    lemma IsUnsent(admitted: Wire, after: Wire)
      requires
        || after == admitted.(spend := Released, eval := if evalRouter then Cancelled else NoReserve)
        || after == admitted.(spend := LeftCharged, eval := if evalRouter then Committed(None) else NoReserve)
      ensures after in Unsent(admitted) && (Sent(after) <==> Sent(admitted))
    {
    }

    /** A refusal before anything was admitted. */
    lemma RefusalMeans(before: Wire, after: Wire, r: AttemptResult)
      requires before.eval == NoReserve && before.spend == NotAsked
      requires after == before.(eval := after.eval, spend := after.spend, reservedUsd := after.reservedUsd)
      requires before.reservedUsd >= 0.0 ==> after.reservedUsd >= 0.0
      requires match r
        case Abandoned => after.spend == NotAsked && after.eval == NoReserve
        case EvalBudget => after.spend == NotAsked && after.eval == NoReserve && evalRouter
        case SpendDenied => after.spend == Refused && after.eval == (if evalRouter then Cancelled else NoReserve)
        case Threw => after.spend == Raised && after.eval == (if evalRouter then Cancelled else NoReserve)
        case NoCredential => after.spend == NotAsked && after.eval == NoReserve && !lane.injected
        case _ => false
      ensures Kept(before, after, r)
    {
    }

    /** The reservation and what became of it, put together. */
    lemma SendMeans(before: Wire, admitted: Wire, after: Wire, qs: Questions, price: real, r: AttemptResult, n: nat,
                    slots: seq<Slot>, asked: bool)
      requires lane.estimateUsd(qs, price) >= 0.0
      requires admitted == before.(eval := if evalRouter then Held else NoReserve, spend := Admitted,
                                   reservedUsd := lane.estimateUsd(qs, price))
      requires r.OnWire? ==>
        && r.price == price
        && after == admitted.(ordinal := Some(n), slots := slots, consulted := asked, reply := after.reply)
        && (r.attempt.Success? && !lane.injected ==> Relayed(lane, r.attempt.answers, qs, after.reply))
      requires !r.OnWire? ==> r == Abandoned && after in Unsent(admitted)
      ensures r.OnWire? ==> GoesOut(before, after, qs, r, n, slots, asked) && after.eval == admitted.eval
      ensures !r.OnWire? ==> Kept(before, after, r) && (evalRouter <==> after.eval != NoReserve)
      ensures admitted.eval == (if evalRouter then Held else NoReserve) && after.reservedUsd == admitted.reservedUsd
    {
      hide Relayed;
    }

    /** A reservation given back: released, or charged when nobody could release it. */
    ghost function Unsent(admitted: Wire): set<Wire> {
      {admitted.(spend := Released, eval := if evalRouter then Cancelled else NoReserve),
       admitted.(spend := LeftCharged, eval := if evalRouter then Committed(None) else NoReserve)}
    }

    /**
     * A sent attempt: the `n`-th, on an admitted reservation of its estimate, under these permits;
     * a real engine's success answers exactly its questions.
     */
    ghost predicate GoesOut(before: Wire, after: Wire, qs: Questions, r: AttemptResult, n: nat,
                            slots: seq<Slot>, asked: bool) {
      && r.OnWire?
      && after == before.(eval := if evalRouter then Held else NoReserve, spend := Admitted,
                          reservedUsd := lane.estimateUsd(qs, r.price), ordinal := Some(n),
                          slots := slots, consulted := asked, reply := after.reply)
      && after.reservedUsd >= 0.0
      && (r.attempt.Success? && !lane.injected ==> Relayed(lane, r.attempt.answers, qs, after.reply))
    }

    /** What a refused attempt may have left behind, by the reason it was refused. */
    ghost predicate Kept(before: Wire, after: Wire, r: AttemptResult) {
      && after.ticket == before.ticket && after.ordinal == before.ordinal
      && after.slots == before.slots && after.ending == before.ending
      && after.opens == before.opens && after.probed == before.probed && after.reply == before.reply
      && (before.reservedUsd >= 0.0 ==> after.reservedUsd >= 0.0)
      && (match r
          case SpendDenied => after.spend == Refused
          case Threw => after.spend == Raised
          case Abandoned => after.spend in {NotAsked, Released, LeftCharged}
          case EvalBudget => after.spend == NotAsked && evalRouter
          case NoCredential => after.spend == NotAsked && !lane.injected
          case _ => false)
      && after.eval == (if !evalRouter || after.spend == NotAsked then NoReserve
                        else if after.spend == LeftCharged then Committed(None)
                        else Cancelled)
    }

    /** The credential resolver calls back at most once and passes the callback's result on. */
    method WithCredential(qs: Questions, g: Heard) returns (r: AttemptResult, h: Heard)
      requires IsPaidLane(lane) && Askable(qs) && Funded(None)
      requires cur.spend == NotAsked && cur.eval == NoReserve && !Sent(cur)
      requires Unrefused(g) && Unasked(g) && g.credential.None?
      modifies this`cur, this`ordinal, this`calls, budget
      ensures Funded(if r.OnWire? then Some(cur.reservedUsd) else None)
      ensures calls == old(calls) + EvalCalls(cur)
      ensures h.credential.None? == withoutCredential
      ensures ordinal == old(ordinal) + (if r.OnWire? then 1 else 0)
      ensures EndsUp(old(cur), cur, g, h, qs, r, ordinal, held, consulted)
      ensures r.OnWire? ==>
        (r.authenticated <==> h.credential == Some(true)) && (!r.authenticated ==> withoutCredential || lane.injected)
    {
      hide *;
      NoCalls(cur);
      if withoutCredential {
        r, h := ReserveAndSend(qs, false, g);
        return;
      }
      var invoked;
      invoked, h := AskResolver(g);
      StillUnasked(g, invoked);
      ghost var asked := h;
      if invoked {
        r, h := ReserveAndSend(qs, true, h);
      } else {
        var aborted;
        aborted, h := LookAborted(h);
        if aborted {
          AbortedBefore(cur, asked, h, qs, ordinal, held, consulted);
          r := Abandoned;
        } else if lane.injected {
          r, h := ReserveAndSend(qs, false, h);
        } else {
          NoneAvailable(cur, g, h, qs, ordinal, held, consulted);
          r := NoCredential;
        }
      }
      SoFarThrough(old(cur), cur, g, invoked, h, qs, r, ordinal, held, consulted);
    }

    lemma StillUnasked(h: Heard, invoked: bool)
      requires Unrefused(h) && Unasked(h)
      ensures Unrefused(h.(credential := Some(invoked))) && Unasked(h.(credential := Some(invoked)))
      ensures !h.aborted
    {
    }

    lemma SoFarThrough(before: Wire, after: Wire, g: Heard, invoked: bool, h: Heard, qs: Questions, r: AttemptResult,
                       n: nat, slots: seq<Slot>, asked: bool)
      requires EndsUp(before, after, g.(credential := Some(invoked)), h, qs, r, n, slots, asked)
      ensures EndsUp(before, after, g, h, qs, r, n, slots, asked)
    {
      hide SpendSays, RefusalOf, GoesOut, GotThrough, Kept;
    }

    lemma NoneAvailable(w: Wire, g: Heard, h: Heard, qs: Questions, n: nat, slots: seq<Slot>, asked: bool)
      requires Unrefused(g) && Unasked(g) && w.spend == NotAsked && w.eval == NoReserve && !lane.injected
      requires h == g.(credential := Some(false))
      ensures EndsUp(w, w, h, h, qs, NoCredential, n, slots, asked)
    {
      RefusalMeans(w, w, NoCredential);
      hide Kept, GoesOut, GotThrough;
    }

    /** The lane's permits, in order, up to the first that is refused. */
    method AcquireSlots(g: Heard) returns (refusal: Option<AttemptResult>, releases: seq<Slot>, h: Heard)
      requires held == [] && Unrefused(g) && Unasked(g) && g.permits == []
      modifies this`held
      ensures held == releases && (refusal.None? ==> held == lane.semaphores)
      ensures h == g.(permits := h.permits)
      ensures refusal.None? ==> Unrefused(h) && |h.permits| == |lane.semaphores|
      ensures refusal.Some? ==> RefusalOf(h) == refusal && (refusal == Some(Abandoned) || refusal == Some(Deferred))
    {
      releases, refusal, h := [], None, g;
      var i := 0;
      while i < |lane.semaphores| && refusal.None?
        invariant |releases| == i <= |lane.semaphores|
        invariant held == releases == lane.semaphores[..i]
        invariant h == g.(permits := h.permits)
        invariant refusal.None? ==> |h.permits| == i && Unrefused(h)
        invariant refusal.Some? ==>
          RefusalOf(h) == refusal && (refusal == Some(Abandoned) || refusal == Some(Deferred))
        decreases |lane.semaphores| - i, if refusal.None? then 1 else 0
      {
        var said;
        said, h := AskSemaphore(lane.semaphores[i], h);
        if said == Given {
          held := held + [lane.semaphores[i]];
          releases := releases + [lane.semaphores[i]];
          i := i + 1;
        } else {
          refusal := Some(if said == WaitCancelled then Abandoned else Deferred);
        }
      }
    }

    /** A lost probe lease is decided again on the shared state: never a second concurrent probe. */
    method RenewProbe(g: Heard) returns (refusal: Option<AttemptResult>, h: Heard)
      requires Unrefused(g) && Unasked(g) && g.renewal.None? && g.admission.None?
      modifies this`probeToken, this`consulted
      ensures refusal.Some? ==> old(probeToken).Some? && (refusal.value == CircuitDenied || refusal.value == Threw)
      ensures refusal.None? ==> consulted == (old(consulted) || old(probeToken).Some?)
      ensures h == g.(renewal := h.renewal, admission := h.admission, token := h.token)
      ensures probeToken == TokenAfter(h, old(probeToken))
      ensures refusal.Some? ==> RefusalOf(h) == refusal
      ensures refusal.None? ==>
        && Unrefused(h) && h.renewal.Some? == old(probeToken).Some?
        && (h.renewal == Some(No) ==> h.admission == Some(Yes))
    {
      refusal, h := None, g;
      if probeToken.Some? {
        var renewed;
        renewed, h := AskRenewal(h);
        if renewed == Fails {
          return Some(Threw), h;
        }
        if renewed == No {
          probeToken := None;
          var said, token;
          said, token, h := AskBreaker(h);
          if said == Fails {
            return Some(Threw), h;
          }
          if said == No {
            return Some(CircuitDenied), h;
          }
          probeToken := token;
        }
        consulted := true;
      }
    }

    /** Under the lane's permits, all returned whatever happens. */
    method AdmitAndSend(qs: Questions, g: Heard) returns (r: AttemptResult, h: Heard)
      requires IsPaidLane(lane) && Askable(qs) && held == [] && Funded(None)
      requires cur.spend == NotAsked && cur.eval == NoReserve && !Sent(cur)
      requires Unrefused(g) && Unasked(g) && g.permits == [] && g.renewal.None?
      requires g.admission.None? && g.credential.None?
      requires g.without == withoutCredential && g.probed == probeToken.Some?
      modifies this`cur, this`ordinal, this`held, this`probeToken, this`consulted, this`calls, budget
      ensures held == [] && Funded(if r.OnWire? then Some(cur.reservedUsd) else None)
      ensures calls == old(calls) + EvalCalls(cur)
      ensures h.rate == g.rate && h.settles == [] && h.probed == g.probed
      ensures probeToken == TokenAfter(h, old(probeToken))
      ensures SpendSays(cur, h) && RefusalOf(h) == (if r.OnWire? then None else Some(r))
      ensures r.OnWire? ==>
        && ordinal == old(ordinal) + 1
        && (!r.authenticated ==> withoutCredential || lane.injected)
        && GoesOut(old(cur), cur, qs, r, ordinal, lane.semaphores, old(consulted) || old(probeToken).Some?)
        && HeardAll(h, g.rate, r)
      ensures !r.OnWire? ==>
        ordinal == old(ordinal)
        && (Kept(old(cur), cur, r) || (cur == old(cur) && r in {Abandoned, Deferred, CircuitDenied, Threw}))
    {
      hide *;
      NoCalls(cur);
      var refusal, releases, h1 := AcquireSlots(g);
      h := h1;
      if refusal.None? {
        SlotsAsked(g, h);
        refusal, h := RenewProbe(h);
      }
      ghost var h2 := h;
      if refusal.Some? {
        r := refusal.value;
        StillNotAsked(cur, g, h1, h, old(probeToken));
      } else {
        ProbeAsked(h1, h);
        r, h := WithCredential(qs, h);
        EndsUpMeans(old(cur), cur, h2, h, qs, r, ordinal, lane.semaphores, consulted);
        if r.OnWire? {
          AllHeard(g, h1, h2, h, r);
        }
        SameRate(g, h2, h, old(probeToken));
      }
      while releases != []
        modifies this`held
        invariant held == releases
      {
        held := held[..|held| - 1];
        releases := releases[..|releases| - 1];
      }
    }

    /** Everything an attempt on the wire was told, given what the limiter said. */
    ghost predicate HeardAll(h: Heard, rate: Option<Grant>, r: AttemptResult) {
      && r.OnWire? && h.rate == rate
      && (rate == (if lane.limited then Some(Given) else None) ==> AllYes(h, lane, evalRouter))
      && h.provider == Some(r.attempt) && r.price == h.price && (r.authenticated <==> h.credential == Some(true))
      && h.settles == []
    }

    lemma EndsUpMeans(before: Wire, after: Wire, g: Heard, h: Heard, qs: Questions, r: AttemptResult, n: nat,
                      slots: seq<Slot>, asked: bool)
      requires EndsUp(before, after, g, h, qs, r, n, slots, asked)
      ensures SameSoFar(g, h) && SpendSays(after, h) && RefusalOf(h) == (if r.OnWire? then None else Some(r))
      ensures r.OnWire? ==> GoesOut(before, after, qs, r, n, slots, asked) && GotThrough(h, r, evalRouter)
      ensures !r.OnWire? ==> Kept(before, after, r)
    {
      hide SameSoFar, SpendSays, RefusalOf, GoesOut, GotThrough, Kept;
    }

    lemma SlotsAsked(g: Heard, h: Heard)
      requires Unasked(g) && h == g.(permits := h.permits)
      ensures Unasked(h) && h.renewal == g.renewal && h.admission == g.admission && h.rate == g.rate
    {
    }

    lemma ProbeAsked(g: Heard, h: Heard)
      requires Unasked(g) && h == g.(renewal := h.renewal, admission := h.admission, token := h.token)
      ensures Unasked(h) && h.credential == g.credential
    {
    }

    lemma StillNotAsked(w: Wire, g: Heard, h1: Heard, h: Heard, held: Option<nat>)
      requires Unasked(g) && w.spend == NotAsked
      requires h == g.(permits := h.permits, renewal := h.renewal, admission := h.admission, token := h.token)
      ensures SpendSays(w, h) && h.rate == g.rate && h.settles == [] && h.probed == g.probed
      ensures g.renewal.None? && h1 == g.(permits := h1.permits) ==> TokenAfter(h1, held) == held
    {
    }

    lemma SameRate(g: Heard, h2: Heard, h: Heard, held: Option<nat>)
      requires Unasked(g) && SameSoFar(h2, h)
      requires h2 == g.(permits := h2.permits, renewal := h2.renewal, admission := h2.admission, token := h2.token)
      ensures h.rate == g.rate && h.settles == [] && h.probed == g.probed
      ensures TokenAfter(h, held) == TokenAfter(h2, held)
    {
    }

    lemma AllHeard(h0: Heard, h1: Heard, h2: Heard, h: Heard, r: AttemptResult)
      requires Unrefused(h0) && Unasked(h0) && h0.admission.None?
      requires h1 == h0.(permits := h1.permits) && |h1.permits| == |lane.semaphores|
      requires h2 == h1.(renewal := h2.renewal, admission := h2.admission, token := h2.token)
      requires h2.renewal.Some? == h0.probed && (h2.renewal == Some(No) ==> h2.admission == Some(Yes))
      requires SameSoFar(h2, h) && GotThrough(h, r, evalRouter) && h.credential.None? == h0.without
      requires (r.authenticated <==> h.credential == Some(true)) && (!r.authenticated ==> h0.without || lane.injected)
      ensures HeardAll(h, h0.rate, r)
    {
      if h.credential.Some? && !h.credential.value {
        assert h.credential == Some(false);
      }
    }

    /**
     * One attempt. Every permit is back on return. Either it was sent, keeping its rate ticket and
     * reservation under the next ordinal, or it keeps nothing; it was sent exactly if everyone it
     * asked agreed, and otherwise the first refusal says why not.
     */
    method AttemptOnce(qs: Questions, opens: bool) returns (r: AttemptResult, h: Heard)
      requires IsPaidLane(lane) && Askable(qs) && held == [] && Funded(None)
      modifies this`cur, this`ordinal, this`held, this`probeToken, this`consulted, this`calls, budget
      ensures held == [] && Funded(if r.OnWire? then Some(cur.reservedUsd) else None)
      ensures calls == old(calls) + EvalCalls(cur)
      ensures cur.opens == opens && cur.probed == old(probeToken).Some?
      ensures SpendSays(cur, h) && h.settles == [] && h.probed == cur.probed
      ensures probeToken == TokenAfter(h, old(probeToken))
      ensures RefusalOf(h) == (if r.OnWire? then None else Some(r))
      ensures ordinal == old(ordinal) + (if r.OnWire? then 1 else 0)
      ensures r.OnWire? ==>
        && OnItsWay(cur, h, r, qs, ordinal, old(consulted) || old(probeToken).Some?)
        && (!r.authenticated ==> withoutCredential || lane.injected)
      ensures !r.OnWire? ==> ClosedUnsent(cur, evalRouter)
      ensures r == SpendDenied ==> cur.spend == Refused
      ensures r == EvalBudget || r == NoCredential || r == Deferred || r == CircuitDenied ==> cur.spend == NotAsked
    {
      hide *;
      cur := Fresh(opens, probeToken.Some?);
      var refusal;
      refusal, h := TakeTicket(opens);
      if refusal.Some? {
        NotLetIn(cur, h, opens, withoutCredential, probeToken.Some?, refusal.value);
        return refusal.value, h;
      }
      r, h := SendOrRefund(qs, opens, h);
    }

    /** The rest of an attempt that has its rate ticket; unless it is sent the ticket is given back. */
    method SendOrRefund(qs: Questions, ghost opens: bool, g: Heard) returns (r: AttemptResult, h: Heard)
      requires IsPaidLane(lane) && Askable(qs) && held == [] && Funded(None)
      requires cur == Fresh(opens, probeToken.Some?).(ticket := if lane.limited then Debited else NoTicket)
      requires g == Nothing(withoutCredential, probeToken.Some?).(rate := if lane.limited then Some(Given) else None)
      modifies this`cur, this`ordinal, this`held, this`probeToken, this`consulted, this`calls, budget
      ensures held == [] && Funded(if r.OnWire? then Some(cur.reservedUsd) else None)
      ensures calls == old(calls) + EvalCalls(cur)
      ensures cur.opens == opens && cur.probed == old(probeToken).Some?
      ensures SpendSays(cur, h) && h.settles == [] && h.probed == cur.probed
      ensures probeToken == TokenAfter(h, old(probeToken))
      ensures RefusalOf(h) == (if r.OnWire? then None else Some(r))
      ensures ordinal == old(ordinal) + (if r.OnWire? then 1 else 0)
      ensures r.OnWire? ==>
        && OnItsWay(cur, h, r, qs, ordinal, old(consulted) || old(probeToken).Some?)
        && (!r.authenticated ==> withoutCredential || lane.injected)
      ensures !r.OnWire? ==> ClosedUnsent(cur, evalRouter)
      ensures r == SpendDenied ==> cur.spend == Refused
      ensures r == EvalBudget || r == NoCredential || r == Deferred || r == CircuitDenied ==> cur.spend == NotAsked
    {
      hide *;
      ghost var w := cur;
      LetIn(w, g, opens, withoutCredential, probeToken.Some?);
      r, h := AdmitAndSend(qs, g);
      if r.OnWire? {
        GoneOut(w, cur, qs, r, ordinal, old(consulted) || old(probeToken).Some?, g.rate, h);
      } else {
        NotGoneOut(w, cur, r, h);
        cur := if lane.limited then cur.(ticket := Refunded) else cur;
      }
    }

    /**
     * The `n`-th attempt is out: everyone agreed, the provider reported `r`, and the reservation and the
     * permits are the attempt's own. A real engine's success answers exactly the questions.
     */
    ghost predicate OnItsWay(w: Wire, h: Heard, r: AttemptResult, qs: Questions, n: nat, asked: bool) {
      && r.OnWire? && AllYes(h, lane, evalRouter) && h.provider == Some(r.attempt) && r.price == h.price
      && (r.authenticated <==> h.credential == Some(true))
      && w.ordinal == Some(n) && w.consulted == asked && InFlight(w, lane, evalRouter)
      && w.reservedUsd == lane.estimateUsd(qs, r.price)
      && (r.attempt.Success? && !lane.injected ==> Relayed(lane, r.attempt.answers, qs, w.reply))
    }

    /** The request may be cancelled already; a limited lane waits for a rate ticket. */
    method TakeTicket(ghost opens: bool) returns (refusal: Option<AttemptResult>, h: Heard)
      requires cur == Fresh(opens, probeToken.Some?)
      modifies this`cur
      ensures var blank := Nothing(withoutCredential, probeToken.Some?);
        match refusal
        case None =>
          && h == blank.(rate := if lane.limited then Some(Given) else None)
          && cur == old(cur).(ticket := if lane.limited then Debited else NoTicket)
        case Some(Abandoned) =>
          cur == old(cur) && (h == blank.(aborted := true) || h == blank.(rate := Some(WaitCancelled)))
        case Some(Deferred) => cur == old(cur) && h == blank.(rate := Some(WaitExpired))
        case _ => false
    {
      hide *;
      StartsBlank(opens, withoutCredential, probeToken.Some?);
      refusal, h := None, Nothing(withoutCredential, probeToken.Some?);
      var aborted;
      aborted, h := LookAborted(h);
      if aborted {
        return Some(Abandoned), h;
      }
      if lane.limited {
        var g;
        g, h := AskLimiter(h);
        if g != Given {
          return Some(if g == WaitCancelled then Abandoned else Deferred), h;
        }
        cur := cur.(ticket := Debited);
      }
    }

    lemma StartsBlank(opens: bool, without: bool, probed: bool)
      ensures Fresh(opens, probed) == Fresh(opens, probed).(ticket := NoTicket)
      ensures var h := Nothing(without, probed); !h.aborted && h == h.(aborted := false) && h == h.(rate := None)
    {
    }

    lemma NotLetIn(w: Wire, h: Heard, opens: bool, without: bool, probed: bool, r: AttemptResult)
      requires w == Fresh(opens, probed)
      requires match r
        case Abandoned =>
          || h == Nothing(without, probed).(aborted := true)
          || h == Nothing(without, probed).(rate := Some(WaitCancelled))
        case Deferred => h == Nothing(without, probed).(rate := Some(WaitExpired))
        case _ => false
      ensures w.opens == opens && w.probed == probed && w.spend == NotAsked && EvalCalls(w) == []
      ensures SpendSays(w, h) && h.settles == [] && h.probed == probed && RefusalOf(h) == Some(r)
      ensures ClosedUnsent(w, evalRouter) && forall held :: TokenAfter(h, held) == held
    {
    }

    lemma LetIn(w: Wire, h: Heard, opens: bool, without: bool, probed: bool)
      requires w == Fresh(opens, probed).(ticket := if lane.limited then Debited else NoTicket)
      requires h == Nothing(without, probed).(rate := if lane.limited then Some(Given) else None)
      ensures w.spend == NotAsked && w.eval == NoReserve && !Sent(w) && w.opens == opens && w.probed == probed
      ensures w.ordinal == None && w.slots == [] && w.ending == Unsettled && w.reservedUsd == 0.0
      ensures Unrefused(h) && Unasked(h) && h.permits == [] && h.renewal.None? && h.admission.None?
      ensures h.credential.None? && h.without == without && h.probed == probed && h.settles == []
    {
    }

    lemma GoneOut(w: Wire, out: Wire, qs: Questions, r: AttemptResult, n: nat, asked: bool, rate: Option<Grant>,
                  h: Heard)
      requires GoesOut(w, out, qs, r, n, lane.semaphores, asked) && HeardAll(h, rate, r)
      requires rate == (if lane.limited then Some(Given) else None)
      requires w.ticket == (if lane.limited then Debited else NoTicket) && w.ending == Unsettled
      ensures OnItsWay(out, h, r, qs, n, asked) && out.opens == w.opens && out.probed == w.probed
    {
      hide AllYes, Relayed;
    }

    /** A refused attempt keeps nothing once its rate ticket is refunded. */
    lemma NotGoneOut(w: Wire, out: Wire, r: AttemptResult, h: Heard)
      requires w.ordinal == None && w.slots == [] && w.ending == Unsettled && w.reservedUsd >= 0.0
      requires w.spend == NotAsked && w.eval == NoReserve && w.ticket == (if lane.limited then Debited else NoTicket)
      requires Kept(w, out, r) || (out == w && r in {Abandoned, Deferred, CircuitDenied, Threw})
      requires SpendSays(out, h)
      ensures var end := if lane.limited then out.(ticket := Refunded) else out;
        && ClosedUnsent(end, evalRouter) && SpendSays(end, h) && EvalCalls(end) == EvalCalls(out)
        && end.opens == w.opens && end.probed == w.probed
      ensures r == SpendDenied ==> out.spend == Refused
      ensures r == EvalBudget || r == NoCredential || r == Deferred || r == CircuitDenied ==> out.spend == NotAsked
    {
      hide Tried;
    }

    /** Write the call row and settle the reservation; after three refusals it stays charged. */
    method SettleWithRetry() returns (refusals: nat, told: seq<bool>)
      requires cur.spend == Admitted
      modifies this`cur
      ensures Tried(told, refusals < SETTLE_TRIES)
      ensures cur == old(cur).(spend := if refusals < SETTLE_TRIES then Settled else LeftCharged)
    {
      hide Tried;
      refusals, told := 0, [];
      while true
        invariant refusals < SETTLE_TRIES && cur == old(cur)
        invariant |told| == refusals && forall i :: 0 <= i < refusals ==> !told[i]
        decreases SETTLE_TRIES - refusals
      {
        var ok;
        ok, told := StoreAccepts(told);
        TriedSoFar(told, ok);
        if ok {
          cur := cur.(spend := Settled);
          return;
        }
        refusals := refusals + 1;
        if refusals >= SETTLE_TRIES {
          cur := cur.(spend := LeftCharged);
          return;
        }
      }
    }

    /** What a settled attempt is charged, when its billing is known. */
    method ChargeFor(a: Attempt, price: real) returns (charge: Option<real>)
      ensures charge == CostOf(lane, a, price)
    {
      var known := a.Success? || a.known;
      if !known {
        return None;
      }
      var cost := 0.0;
      if a.Success? {
        cost := if lane.repriceable && a.usage.Some? then lane.costUsd(a.usage.value, price) else a.costUsd;
      } else if a.usage.Some? {
        cost := lane.costUsd(a.usage.value, price);
      }
      charge := Some(cost);
    }

    /** Settle the attempt on the wire: its cost when known, its reserve when not. */
    method Settle(a: Attempt, price: real) returns (overrun: bool, told: seq<bool>)
      requires InFlight(cur, lane, evalRouter) && Funded(Some(cur.reservedUsd))
      modifies this`cur, this`spentUsd, this`calls, budget
      ensures ClosedSent(cur, lane, evalRouter) && Funded(None)
      ensures calls == old(calls) + EvalCloses(cur)
      ensures cur.ordinal == old(cur).ordinal && cur.reservedUsd == old(cur).reservedUsd
      ensures cur.opens == old(cur).opens && cur.probed == old(cur).probed && cur.consulted == old(cur).consulted
      ensures cur.reply == old(cur).reply && Tried(told, cur.spend == Settled)
      ensures cur.ending == Answered(if a.Success? then None else Some(a.status), CostOf(lane, a, price))
      ensures spentUsd == old(spentUsd) + KnownCost(cur)
      ensures overrun == Overran(cur)
    {
      hide Funded, CostOf, Tried;
      var charge := ChargeFor(a, price);
      var _, answers := SettleWithRetry();
      told := answers;
      Interference(Some(cur.reservedUsd));
      if budget != null {
        SettleEval(cur.reservedUsd, charge);
        cur := cur.(eval := Committed(charge));
      } else {
        Unbudgeted(cur.reservedUsd);
      }
      spentUsd := spentUsd + if charge.Some? then charge.value else 0.0;
      cur := cur.(ending := Answered(if a.Success? then None else Some(a.status), charge));
      overrun := charge.Some? && charge.value > cur.reservedUsd + SpendGuard.USD_EPSILON;
    }

    /** Settling closes the attempt, and its calls on the eval budget are then complete. */
    method SettleSent(a: Attempt, price: real, ghost before: seq<SpendGuard.Call>)
      returns (overrun: bool, told: seq<bool>)
      requires InFlight(cur, lane, evalRouter) && Funded(Some(cur.reservedUsd))
      requires calls == before + EvalCalls(cur)
      modifies this`cur, this`spentUsd, this`calls, budget
      ensures Closed(cur, lane, evalRouter) && Sent(cur) && Funded(None)
      ensures calls == before + EvalCalls(cur)
      ensures cur.ordinal == old(cur).ordinal
      ensures cur.opens == old(cur).opens && cur.probed == old(cur).probed && cur.consulted == old(cur).consulted
      ensures cur.reply == old(cur).reply && Tried(told, cur.spend == Settled)
      ensures cur.spend == Settled || cur.spend == LeftCharged
      ensures cur.reservedUsd == old(cur).reservedUsd
      ensures cur.ending == Answered(if a.Success? then None else Some(a.status), CostOf(lane, a, price))
      ensures spentUsd == old(spentUsd) + KnownCost(cur) && overrun == Overran(cur)
    {
      hide *;
      ghost var sent := cur;
      overrun, told := Settle(a, price);
      SettledMeans(sent, cur, lane, evalRouter, before);
    }

    /** Close the books of the current attempt. */
    method Log()
      requires held == [] && IsPaidLane(lane) && Closed(cur, lane, evalRouter) && FollowsHeard(cur, lane, evalRouter)
      requires AllClosed(tries, lane, evalRouter) && Numbered(tries)
      requires forall w :: w in tries ==> !Overran(w)
      requires Sent(cur) ==> cur.ordinal == Some(Sends(tries) + 1)
      requires ordinal == Sends(tries) + (if Sent(cur) then 1 else 0)
      requires spentUsd == TotalCost(tries) + KnownCost(cur) && calls == LaneCalls(tries) + EvalCalls(cur)
      modifies this`tries, this`consulted
      ensures Balanced() && tries == old(tries) + [cur] && !consulted
      ensures !Overran(cur) ==> forall w :: w in tries ==> !Overran(w)
      ensures InvalidCount(tries) == InvalidCount(old(tries)) + (if Invalid(cur) then 1 else 0)
    {
      hide *;
      ghost var before := tries;
      consulted := false;
      tries := tries + [cur];
      Appended(before, cur);
      NumberedNext(before, cur);
      ClosedAppend(before, cur, lane, evalRouter);
      IsBalanced();
    }

    lemma BalancedMeans()
      requires Balanced()
      ensures IsPaidLane(lane) && held == []
      ensures AllClosed(tries, lane, evalRouter) && Numbered(tries) && OverrunIsLast(tries)
      ensures ordinal == Sends(tries) && spentUsd == TotalCost(tries) && calls == LaneCalls(tries)
    {
    }

    lemma IsBalanced()
      requires IsPaidLane(lane) && held == []
      requires AllClosed(tries, lane, evalRouter) && Numbered(tries) && OverrunIsLast(tries)
      requires ordinal == Sends(tries) && spentUsd == TotalCost(tries) && calls == LaneCalls(tries)
      ensures Balanced()
    {
    }

    /** One attempt, settled if it was sent. */
    method AttemptSettled(qs: Questions, opens: bool) returns (result: AttemptResult, overrun: bool)
      requires IsPaidLane(lane) && Askable(qs) && held == [] && Funded(None)
      modifies this`cur, this`ordinal, this`held, this`probeToken, this`consulted, this`spentUsd, this`calls, budget
      ensures held == [] && Funded(None) && Closed(cur, lane, evalRouter)
      ensures calls == old(calls) + EvalCalls(cur) && spentUsd == old(spentUsd) + KnownCost(cur)
      ensures cur.opens == opens && cur.probed == old(probeToken).Some?
      ensures ordinal == old(ordinal) + (if result.OnWire? then 1 else 0)
      ensures Sent(cur) <==> result.OnWire?
      ensures overrun == Overran(cur)
      ensures !result.OnWire? ==> !Invalid(cur)
      ensures FollowsHeard(cur, lane, evalRouter) && IsResult(result, cur, lane, qs)
      ensures result.OnWire? ==>
        && cur.ordinal == Some(ordinal)
        && cur.consulted == (old(consulted) || old(probeToken).Some?)
    {
      hide *;
      overrun := false;
      var h;
      result, h := AttemptOnce(qs, opens);
      if result.OnWire? {
        IsFlying(cur, h, result, qs, ordinal, old(consulted) || old(probeToken).Some?);
        ghost var sent := cur;
        var told;
        overrun, told := SettleSent(result.attempt, result.price, old(calls));
        SettledFollows(sent, cur, h, told, result, qs, ordinal, old(consulted) || old(probeToken).Some?);
        SameBooks(cur, h.(settles := told));
        cur := cur.(heard := h.(settles := told));
      } else {
        UnsentMeans(cur, lane, evalRouter);
        UnsentFollows(cur, h, result, qs);
        SameBooks(cur, h);
        cur := cur.(heard := h);
      }
    }

    lemma IsFlying(w: Wire, h: Heard, r: AttemptResult, qs: Questions, n: nat, asked: bool)
      requires OnItsWay(w, h, r, qs, n, asked)
      ensures InFlight(w, lane, evalRouter) && w.ordinal == Some(n) && w.consulted == asked
    {
      hide AllYes, Relayed, InFlight;
    }

    lemma SettledFollows(sent: Wire, w: Wire, h: Heard, told: seq<bool>, r: AttemptResult, qs: Questions, n: nat,
                         asked: bool)
      requires SpendSays(sent, h) && OnItsWay(sent, h, r, qs, n, asked) && RefusalOf(h) == None && h.probed == w.probed
      requires w.ordinal.Some? && Tried(told, w.spend == Settled) && (w.spend == Settled || w.spend == LeftCharged)
      requires w.reply == sent.reply && w.reservedUsd == sent.reservedUsd
      requires w.ending == Answered(if r.attempt.Success? then None else Some(r.attempt.status),
                                    CostOf(lane, r.attempt, r.price))
      ensures var end := w.(heard := h.(settles := told));
        FollowsHeard(end, lane, evalRouter) && IsResult(r, end, lane, qs)
    {
      hide Tried, Relayed, CostOf;
    }

    lemma UnsentFollows(w: Wire, h: Heard, r: AttemptResult, qs: Questions)
      requires !r.OnWire? && SpendSays(w, h) && !Sent(w) && RefusalOf(h) == Some(r) && h.probed == w.probed
      ensures FollowsHeard(w.(heard := h), lane, evalRouter) && IsResult(r, w.(heard := h), lane, qs)
    {
      hide Tried, AllYes;
    }

    /** What an attempt was told is no part of its books. */
    lemma SameBooks(w: Wire, h: Heard)
      ensures var v := w.(heard := h);
        && (Closed(w, lane, evalRouter) ==> Closed(v, lane, evalRouter)) && EvalCalls(v) == EvalCalls(w)
        && KnownCost(v) == KnownCost(w) && (Overran(v) <==> Overran(w)) && (Invalid(v) <==> Invalid(w))
        && (Sent(v) <==> Sent(w))
    {
    }

    /** One attempt with its books closed. */
    method TryOnce(qs: Questions, opens: bool) returns (result: AttemptResult, overrun: bool)
      requires Balanced() && Funded(None) && Askable(qs) && forall w :: w in tries ==> !Overran(w)
      modifies this`cur, this`ordinal, this`held, this`probeToken, this`consulted, this`tries, this`spentUsd,
        this`calls, budget
      ensures Funded(None)
      ensures Balanced() && tries == old(tries) + [cur] && !consulted
      ensures cur.opens == opens && cur.probed == old(probeToken).Some?
      ensures ordinal == old(ordinal) + (if result.OnWire? then 1 else 0)
      ensures InvalidCount(tries) == InvalidCount(old(tries)) + (if Invalid(cur) then 1 else 0)
      ensures !overrun ==> forall w :: w in tries ==> !Overran(w)
      ensures !result.OnWire? ==> !Invalid(cur)
      ensures (Sent(cur) <==> result.OnWire?) && overrun == Overran(cur)
      ensures FollowsHeard(cur, lane, evalRouter) && IsResult(result, cur, lane, qs)
      ensures result.OnWire? ==> cur.consulted == (old(consulted) || old(probeToken).Some?)
    {
      hide *;
      BalancedMeans();
      result, overrun := AttemptSettled(qs, opens);
      Log();
    }

    /**
     * How the wait before a retry ends: nothing when the retry may go ahead. It may if it ends by the
     * deadline and is short enough, the sleep went through, and a probe is held or the breaker agrees.
     */
    ghost predicate Pauses(p: Play, r: Option<PackResult>) {
      var late := (deadlineMs.Some? && p.turn.now + p.delayMs > deadlineMs.value) || p.delayMs > maxRetryWaitMs;
      match r
      case None => !late && p.turn.woke && (p.probe || p.turn.breaker == Yes)
      case Some(PackThrew) => !late && p.turn.woke && !p.probe && p.turn.breaker == Fails
      case Some(PackFailed(outcome, verdict)) =>
        if late then outcome == RetryAfterDeferred && verdict == FailureVerdict
        else if !p.turn.woke then outcome == RequestCancelled && verdict == NeutralVerdict
        else outcome == CircuitOpen && verdict == FailureVerdict && !p.probe && p.turn.breaker == No
      case _ => false
    }

    /** The wait before a retry, and the shared breaker again; a result ends the pack. */
    method BeforeRetry(delayMs: int, t: Turn) returns (r: Option<PackResult>)
      modifies this`probeToken, this`consulted
      ensures Pauses(Play(t, delayMs, old(probeToken).Some?, 0), r)
      ensures r.None? ==> probeToken.Some? || consulted
      ensures r.Some? ==> !r.value.PackOk?
      ensures r.Some? && r.value.PackFailed? ==>
        && r.value.verdict == VerdictOf(r.value.outcome, true)
        && r.value.outcome in {RetryAfterDeferred, RequestCancelled, CircuitOpen}
    {
      r := None;
      if (deadlineMs.Some? && t.now + delayMs > deadlineMs.value) || delayMs > maxRetryWaitMs {
        return Some(PackFailed(RetryAfterDeferred, FailureVerdict));
      }
      if !t.woke {
        return Some(PackFailed(RequestCancelled, NeutralVerdict));
      }
      if probeToken.None? {
        if t.breaker == Fails {
          return Some(PackThrew);
        }
        if t.breaker == No {
          return Some(PackFailed(CircuitOpen, FailureVerdict));
        }
        probeToken, consulted := t.token, true;
      }
    }

    /**
     * How a pack goes on after the n-th attempt failed: nothing means a retry. That is exactly when the
     * attempt stayed within its reservation, its failure is transient and may be retried, the engine has
     * an attempt left, and it is not a second invalid response.
     */
    ghost predicate FailsAs(a: Attempt, authenticated: bool, overrun: bool, n: nat, invalid: int, t: Turn,
                            r: Option<PackResult>) {
      && a.Failure?
      && if t.aborted then r == Some(PackFailed(RequestCancelled, NeutralVerdict))
         else if a.status == AuthError then
           r == Some(if authenticated && t.raised then PackThrew
                     else PackFailed(AttemptFailed(AuthError), NeutralVerdict))
         else if a.status == InvalidRequest then r == Some(PackFailed(BadRequest, NeutralVerdict))
         else if !overrun && a.retryable && !(a.status == InvalidResponse && invalid >= 1)
                 && n < (match lane.engine case Typesafe => 4 case Llm => 2 case Laya => 1) then
           r == None
         else r == Some(PackFailed(AttemptFailed(a.status), FailureVerdict))
    }

    /** The delay before the next attempt: the longer of the backoff and the server's own, of which at
        most a day counts. */
    ghost predicate Waits(retryAfterMs: Option<int>, n: nat, t: Turn, delayMs: int)
      requires n >= 1
    {
      var backoff := BackoffDelayMs(n + 1, t.random);
      var server := if retryAfterMs.None? || retryAfterMs.value < 0 then 0
                    else if retryAfterMs.value > 86400000 then 86400000
                    else retryAfterMs.value;
      delayMs == if backoff >= server then backoff else server
    }

    /** What follows a sent attempt that failed: the end of the pack, or a retry after a delay. */
    method AfterFailure(a: Attempt, authenticated: bool, overrun: bool, n: nat, invalidRetries: nat, t: Turn)
      returns (r: Option<PackResult>, delayMs: int)
      requires a.Failure? && 1 <= n
      modifies this`penalties, this`condemned
      ensures FailsAs(a, authenticated, overrun, n, invalidRetries, t, r)
      ensures r.None? ==> Waits(a.retryAfterMs, n, t, delayMs)
      ensures penalties == old(penalties) + (if !t.aborted && a.status == RateLimited && lane.limited then 1 else 0)
      ensures condemned == old(condemned) + (if !t.aborted && a.status == AuthError && authenticated then 1 else 0)
      ensures r.None? ==>
        && !overrun && Transient(a.status) && n < MaxAttempts(lane.engine)
        && (a.status == InvalidResponse ==> invalidRetries == 0)
      ensures r.Some? ==> !r.value.PackOk?
      ensures r.Some? && r.value.PackFailed? ==>
        && r.value.verdict == VerdictOf(r.value.outcome, true)
        && r.value.outcome in {RequestCancelled, BadRequest, AttemptFailed(a.status)}
    {
      delayMs := 0;
      if t.aborted {
        return Some(PackFailed(RequestCancelled, NeutralVerdict)), 0;
      }
      if a.status == AuthError {
        var raised := false;
        if authenticated {
          condemned := condemned + 1;
          raised := t.raised;
        }
        return Some(if raised then PackThrew else PackFailed(AttemptFailed(AuthError), NeutralVerdict)), 0;
      }
      if a.status == InvalidRequest {
        return Some(PackFailed(BadRequest, NeutralVerdict)), 0;
      }
      if a.status == RateLimited && lane.limited {
        penalties := penalties + 1;
      }
      var decision := if overrun then NotRetryable
                      else DecideRetry(lane.engine, n, a.status, a.retryable, a.retryAfterMs,
                                       invalidRetries, t.random);
      RetriedExactly(lane.engine, n, a.status, a.retryable, a.retryAfterMs, invalidRetries, t.random);
      hide DecideRetry, BackoffDelayMs;
      if !decision.RetryAfter? {
        return Some(PackFailed(AttemptFailed(a.status), FailureVerdict)), 0;
      }
      r, delayMs := None, decision.delayMs;
    }

    /**
     * A pack with its retries: at most four attempts on Jev and two on the LLM, each retry after a
     * transient failure that stayed within its reservation, at most one of them after an invalid
     * response. The breaker hears of a failure only if something was sent.
     */
    method RunPack(qs: Questions) returns (r: PackResult, ghost plays: seq<Play>)
      requires Balanced() && Funded(None) && Askable(qs) && forall w :: w in tries ==> !Overran(w)
      modifies this`cur, this`ordinal, this`held, this`probeToken, this`consulted, this`tries, this`spentUsd,
        this`penalties, this`condemned, this`calls, budget
      ensures Funded(None)
      ensures Balanced() && PackAccount(old(tries), tries, old(consulted), old(probeToken).Some?)
      ensures PackRuns(old(tries), tries, qs, plays, r)
      ensures 0 <= ordinal - old(ordinal) <= MaxAttempts(lane.engine)
      ensures r.PackFailed? ==> r.verdict == VerdictOf(r.outcome, ordinal > old(ordinal))
      ensures r.PackFailed? && r.verdict == FailureVerdict ==> ordinal > old(ordinal)
      ensures r.PackFailed? ==> r.outcome != CostOverrun && r.outcome != IncompleteAnswers
      ensures r.PackOk? ==>
        && ordinal > old(ordinal) && |tries| > |old(tries)| && !consulted
        && tries[|tries| - 1].ending.Answered? && tries[|tries| - 1].ending.status == None
        && r.overrun == Overran(tries[|tries| - 1])
        && (!r.overrun ==> forall w :: w in tries ==> !Overran(w))
        && (!lane.injected ==> Reported(lane, r.answers, qs, tries))
    {
      hide *;
      var n, delayMs, invalidResponseRetries := 1, 0, 0;
      ghost var first, asked, probed := tries, consulted, probeToken.Some?;
      plays := [];
      SomeAttempt(lane.engine);
      NotGoing(first, qs);
      NothingTried(first, asked, probed);
      while true
        invariant Balanced() && Funded(None) && forall w :: w in tries ==> !Overran(w)
        invariant 1 <= n <= MaxAttempts(lane.engine)
        invariant |tries| == |first| + n - 1 && ordinal == old(ordinal) + n - 1
        invariant Retrying(first, tries, asked, probed)
        invariant n == 1 ==> tries == first && consulted == asked && probeToken.Some? == probed
        invariant InvalidCount(tries) == InvalidCount(first) + invalidResponseRetries
        invariant 0 <= invalidResponseRetries <= 1
        invariant |plays| == n - 1 && Going(first, tries, qs, plays)
        invariant plays != [] ==> delayMs == plays[|plays| - 1].next
        decreases MaxAttempts(lane.engine) - n
      {
        var t: Turn := *;
        ghost var before, probe := tries, probeToken.Some?;
        var stop, delay, invalid := PackTry(qs, n, delayMs, invalidResponseRetries, t, first, asked, probed);
        ghost var play := Play(t, delayMs, probe, delay);
        if stop.Some? {
          EndsMeans(stop.value, ordinal > old(ordinal), qs);
          EndsRun(first, before, tries, qs, plays, play, invalidResponseRetries, stop.value);
          return stop.value, plays + [play];
        }
        GoesOn(first, before, tries, qs, plays, play, invalidResponseRetries);
        plays := plays + [play];
        delayMs, invalidResponseRetries := delay, invalid;
        n := n + 1;
      }
    }

    /** How a pack may end, given whether it sent anything. */
    ghost predicate EndsPack(r: PackResult, sent: bool, qs: Questions)
      reads this`tries, this`consulted
    {
      match r
      case PackFailed(outcome, verdict) =>
        && verdict == VerdictOf(outcome, sent) && (verdict == FailureVerdict ==> sent)
        && outcome != CostOverrun && outcome != IncompleteAnswers
      case PackOk(answers, overrun) =>
        && sent && tries != [] && !consulted
        && tries[|tries| - 1].ending.Answered? && tries[|tries| - 1].ending.status == None
        && overrun == Overran(tries[|tries| - 1])
        && (!overrun ==> forall w :: w in tries ==> !Overran(w))
        && (!lane.injected ==> Reported(lane, answers, qs, tries))
      case PackThrew => true
    }

    lemma EndsMeans(r: PackResult, sent: bool, qs: Questions)
      requires EndsPack(r, sent, qs)
      ensures r.PackFailed? ==>
        && r.verdict == VerdictOf(r.outcome, sent) && (r.verdict == FailureVerdict ==> sent)
        && r.outcome != CostOverrun && r.outcome != IncompleteAnswers
      ensures r.PackOk? ==>
        && sent && tries != [] && !consulted
        && tries[|tries| - 1].ending.Answered? && tries[|tries| - 1].ending.status == None
        && r.overrun == Overran(tries[|tries| - 1])
        && (!r.overrun ==> forall w :: w in tries ==> !Overran(w))
        && (!lane.injected ==> Reported(lane, r.answers, qs, tries))
    {
    }

    /** A result from before or after an attempt that failed. */
    lemma StopEnds(r: PackResult, sent: bool, qs: Questions)
      requires !r.PackOk?
      requires r.PackFailed? ==>
        && r.verdict == VerdictOf(r.outcome, sent) && (r.verdict == FailureVerdict ==> sent)
        && r.outcome != CostOverrun && r.outcome != IncompleteAnswers
      ensures EndsPack(r, sent, qs)
    {
    }

    lemma AnswerEnds(a: Answers, overrun: bool, qs: Questions)
      requires tries != [] && !consulted && overrun == Overran(tries[|tries| - 1])
      requires tries[|tries| - 1].ending.Answered? && tries[|tries| - 1].ending.status == None
      requires !overrun ==> forall w :: w in tries ==> !Overran(w)
      requires !lane.injected ==> Reported(lane, a, qs, tries)
      ensures EndsPack(PackOk(a, overrun), true, qs)
    {
    }

    /** What follows the n-th attempt, by what it was told: the end of the pack, or nothing for a retry. */
    ghost predicate Decides(w: Wire, n: nat, invalid: int, t: Turn, stop: Option<PackResult>) {
      match RefusalOf(w.heard)
      case Some(refusal) => stop.Some? && RefusedAs(refusal, n > 1, t, stop.value)
      case None =>
        && w.heard.provider.Some?
        && match w.heard.provider.value
           case Success(answers, _, _) => stop == Some(PackOk(answers, Overran(w)))
           case said => FailsAs(said, w.heard.credential == Some(true), Overran(w), n, invalid, t, stop)
    }

    /** A sent attempt reserves the estimate of its questions, and a real engine's success answers them. */
    ghost predicate AsksFor(w: Wire, qs: Questions) {
      Sent(w) ==>
        && w.heard.provider.Some? && w.reservedUsd == lane.estimateUsd(qs, w.heard.price)
        && (w.heard.provider.value.Success? && !lane.injected ==>
              Relayed(lane, w.heard.provider.value.answers, qs, w.reply))
    }

    /**
     * The n-th turn of a pack takes its attempts from `before` to `ws`: either the wait ends the pack, or
     * one more attempt is made and decides whether the pack ends or waits for another.
     */
    ghost predicate Turned(before: seq<Wire>, ws: seq<Wire>, qs: Questions, n: nat, invalid: int, p: Play,
                           stop: Option<PackResult>)
      requires n >= 1
    {
      if n > 1 && !Pauses(p, None) then ws == before && stop.Some? && Pauses(p, stop)
      else
        && |ws| == |before| + 1 && before <= ws
        && AsksFor(ws[|before|], qs) && Decides(ws[|before|], n, invalid, p.turn, stop)
        && (stop.None? ==>
              && ws[|before|].heard.provider.Some? && ws[|before|].heard.provider.value.Failure?
              && Waits(ws[|before|].heard.provider.value.retryAfterMs, n, p.turn, p.next))
    }

    /** The turns of a pack that is still going, each waiting as long as the one before it decided. */
    ghost predicate Going(first: seq<Wire>, ws: seq<Wire>, qs: Questions, plays: seq<Play>) {
      && |ws| == |first| + |plays|
      && if plays == [] then ws == first
         else
           var k := |plays| - 1;
           && Going(first, ws[..|first| + k], qs, plays[..k])
           && (k > 0 ==> plays[k].delayMs == plays[k - 1].next)
           && TurnAt(first, ws, qs, k, plays[k], None)
    }

    /** The i-th retry, given the attempts up to its end. */
    ghost predicate TurnAt(first: seq<Wire>, ws: seq<Wire>, qs: Questions, i: nat, p: Play, stop: Option<PackResult>)
    {
      && |first| + i <= |ws|
      && Turned(ws[..|first| + i], ws, qs, i + 1, InvalidCount(ws[..|first| + i]) - InvalidCount(first), p, stop)
    }

    /** A whole pack: turns that each end in a retry, and one that ends the pack. */
    ghost predicate PackRuns(first: seq<Wire>, ws: seq<Wire>, qs: Questions, plays: seq<Play>, r: PackResult) {
      && plays != [] && first <= ws
      && var k := |plays| - 1;
      && |first| + k <= |ws|
      && Going(first, ws[..|first| + k], qs, plays[..k])
      && (k > 0 ==> plays[k].delayMs == plays[k - 1].next)
      && TurnAt(first, ws, qs, k, plays[k], Some(r))
    }

    lemma NotGoing(first: seq<Wire>, qs: Questions)
      ensures Going(first, first, qs, [])
    {
    }

    lemma GoesOn(first: seq<Wire>, before: seq<Wire>, ws: seq<Wire>, qs: Questions, plays: seq<Play>, p: Play,
                 invalid: int)
      requires Going(first, before, qs, plays) && (plays != [] ==> p.delayMs == plays[|plays| - 1].next)
      requires InvalidCount(before) == InvalidCount(first) + invalid
      requires Turned(before, ws, qs, |plays| + 1, invalid, p, None)
      ensures Going(first, ws, qs, plays + [p])
    {
      hide *;
      TurnExtends(before, ws, qs, |plays| + 1, invalid, p, None);
      GoingGrows(first, before, qs, plays);
      IsTurnAt(first, before, ws, qs, |plays|, p, None);
      IsGoingOn(first, before, ws, qs, plays, p);
    }

    lemma IsGoingOn(first: seq<Wire>, before: seq<Wire>, ws: seq<Wire>, qs: Questions, plays: seq<Play>, p: Play)
      requires Going(first, before, qs, plays) && before <= ws && |ws| == |before| + 1
      requires plays != [] ==> p.delayMs == plays[|plays| - 1].next
      requires TurnAt(first, ws, qs, |plays|, p, None)
      ensures Going(first, ws, qs, plays + [p])
    {
      hide TurnAt;
      assert (plays + [p])[..|plays|] == plays && ws[..|before|] == before;
    }

    lemma TurnExtends(before: seq<Wire>, ws: seq<Wire>, qs: Questions, n: nat, invalid: int, p: Play,
                      stop: Option<PackResult>)
      requires n >= 1 && Turned(before, ws, qs, n, invalid, p, stop)
      ensures before <= ws && (stop.None? ==> |ws| == |before| + 1)
    {
      hide Pauses, Decides, AsksFor, Waits;
    }

    lemma IsTurnAt(first: seq<Wire>, before: seq<Wire>, ws: seq<Wire>, qs: Questions, i: nat, p: Play,
                   stop: Option<PackResult>)
      requires |before| == |first| + i && before <= ws && InvalidCount(before) >= 0
      requires Turned(before, ws, qs, i + 1, InvalidCount(before) - InvalidCount(first), p, stop)
      ensures TurnAt(first, ws, qs, i, p, stop)
    {
      hide Turned, InvalidCount;
      assert ws[..|before|] == before;
    }

    lemma EndsRun(first: seq<Wire>, before: seq<Wire>, ws: seq<Wire>, qs: Questions, plays: seq<Play>, p: Play,
                  invalid: int, r: PackResult)
      requires Going(first, before, qs, plays) && (plays != [] ==> p.delayMs == plays[|plays| - 1].next)
      requires InvalidCount(before) == InvalidCount(first) + invalid
      requires Turned(before, ws, qs, |plays| + 1, invalid, p, Some(r))
      ensures PackRuns(first, ws, qs, plays + [p], r)
    {
      hide *;
      GoingGrows(first, before, qs, plays);
      TurnExtends(before, ws, qs, |plays| + 1, invalid, p, Some(r));
      IsTurnAt(first, before, ws, qs, |plays|, p, Some(r));
      IsPackRun(first, before, ws, qs, plays, p, r);
    }

    lemma {:induction false} GoingGrows(first: seq<Wire>, ws: seq<Wire>, qs: Questions, plays: seq<Play>)
      requires Going(first, ws, qs, plays)
      ensures first <= ws && |ws| == |first| + |plays|
    {
      hide TurnAt;
      if plays != [] {
        GoingGrows(first, ws[..|ws| - 1], qs, plays[..|plays| - 1]);
      }
    }

    lemma IsPackRun(first: seq<Wire>, before: seq<Wire>, ws: seq<Wire>, qs: Questions, plays: seq<Play>, p: Play,
                    r: PackResult)
      requires first <= before <= ws && |before| == |first| + |plays| && Going(first, before, qs, plays)
      requires plays != [] ==> p.delayMs == plays[|plays| - 1].next
      requires TurnAt(first, ws, qs, |plays|, p, Some(r))
      ensures PackRuns(first, ws, qs, plays + [p], r)
    {
      hide Going, TurnAt;
      assert (plays + [p])[..|plays|] == plays && ws[..|first| + |plays|] == before;
    }

    /** The n-th attempt of a pack, with the wait before it and the decision after it. */
    method PackTry(qs: Questions, n: nat, delayMs: int, invalidRetries: nat, t: Turn,
                   ghost first: seq<Wire>, ghost asked: bool, ghost probed: bool)
      returns (stop: Option<PackResult>, delay: int, invalid: nat)
      requires Balanced() && Funded(None) && Askable(qs) && forall w :: w in tries ==> !Overran(w)
      requires 1 <= n && |tries| == |first| + n - 1 && Retrying(first, tries, asked, probed)
      requires n == 1 ==> tries == first && consulted == asked && probeToken.Some? == probed
      requires InvalidCount(tries) == InvalidCount(first) + invalidRetries && invalidRetries <= 1
      modifies this`cur, this`ordinal, this`held, this`probeToken, this`consulted, this`tries, this`spentUsd,
        this`penalties, this`condemned, this`calls, budget
      ensures Balanced() && Funded(None) && PackAccount(first, tries, asked, probed)
      ensures old(ordinal) <= ordinal <= old(ordinal) + 1
      ensures stop.None? ==>
        && ordinal == old(ordinal) + 1 && |tries| == |first| + n && n < MaxAttempts(lane.engine)
        && (forall w :: w in tries ==> !Overran(w)) && Retrying(first, tries, asked, probed)
        && InvalidCount(tries) == InvalidCount(first) + invalid && invalid <= 1
      ensures Turned(old(tries), tries, qs, n, invalidRetries, Play(t, delayMs, old(probeToken).Some?, delay), stop)
      ensures stop.Some? ==> EndsPack(stop.value, n > 1 || ordinal > old(ordinal), qs)
      ensures stop.Some? && stop.value.PackOk? ==> |tries| > |first| && ordinal > old(ordinal)
    {
      hide *;
      delay, invalid := 0, invalidRetries;
      RetryingIsAccount(first, tries, asked, probed);
      ghost var before, probe := tries, probeToken.Some?;
      if n > 1 {
        var early := BeforeRetry(delayMs, t);
        if early.Some? {
          StopEnds(early.value, true, qs);
          PauseEnds(before, qs, n, invalidRetries, Play(t, delayMs, probe, 0), early);
          return early, 0, invalid;
        }
      }
      var result, overrun := TryOnce(qs, n == 1);
      AttemptEnds(first, before, cur, asked, probed);
      stop, delay := AfterAttempt(qs, n, invalidRetries, t, result, overrun, before);
      AttemptTurn(before, cur, qs, n, invalidRetries, Play(t, delayMs, probe, delay), result, stop);
      if stop.None? {
        ResultMeans(result, cur, qs);
        AttemptRetried(first, before, cur, asked, probed, result.attempt.status);
        if result.attempt.status == InvalidResponse {
          invalid := invalid + 1;
        }
      }
    }

    /** What the n-th attempt's result leads to: the end of the pack, or a retry after a delay. */
    method AfterAttempt(qs: Questions, n: nat, invalidRetries: nat, t: Turn, result: AttemptResult, overrun: bool,
                        ghost before: seq<Wire>)
      returns (stop: Option<PackResult>, delay: int)
      requires n >= 1 && tries == before + [cur] && !consulted && overrun == Overran(cur)
      requires (Sent(cur) <==> result.OnWire?) && IsResult(result, cur, lane, qs)
      requires FollowsHeard(cur, lane, evalRouter) && (!overrun ==> forall w :: w in tries ==> !Overran(w))
      modifies this`penalties, this`condemned
      ensures LeadsTo(result, overrun, n, invalidRetries, t, stop, delay)
      ensures stop.Some? ==> EndsPack(stop.value, n > 1 || result.OnWire?, qs)
      ensures stop.Some? && stop.value.PackOk? ==> result.OnWire?
      ensures stop.None? ==>
        && result.OnWire? && result.attempt.Failure? && !overrun && Transient(result.attempt.status)
        && n < MaxAttempts(lane.engine) && (result.attempt.status == InvalidResponse ==> invalidRetries == 0)
    {
      hide FollowsHeard, IsResult, Overran, EndsPack, RefusedAs, FailsAs, Waits, Relayed, Reported, VerdictOf, Sent;
      if !result.OnWire? {
        var r := AfterRefusal(result, n > 1, t);
        StopEnds(r, n > 1, qs);
        return Some(r), 0;
      }
      ResultMeans(result, cur, qs);
      if result.attempt.Success? {
        if !lane.injected {
          RelayedIsReported(lane, result.attempt.answers, qs, before, cur);
        }
        AnswerEnds(result.attempt.answers, overrun, qs);
        return Some(PackOk(result.attempt.answers, overrun)), 0;
      }
      stop, delay := AfterFailure(result.attempt, result.authenticated, overrun, n, invalidRetries, t);
      if stop.Some? {
        StopEnds(stop.value, true, qs);
      }
    }

    ghost predicate LeadsTo(result: AttemptResult, overrun: bool, n: nat, invalid: int, t: Turn,
                            stop: Option<PackResult>, delay: int)
      requires n >= 1
    {
      match result
      case OnWire(Success(answers, _, _), _, _) => stop == Some(PackOk(answers, overrun))
      case OnWire(failure, _, authenticated) =>
        && FailsAs(failure, authenticated, overrun, n, invalid, t, stop)
        && (stop.None? ==> Waits(failure.retryAfterMs, n, t, delay))
      case _ => stop.Some? && RefusedAs(result, n > 1, t, stop.value)
    }

    lemma ResultMeans(r: AttemptResult, w: Wire, qs: Questions)
      requires r.OnWire? && Sent(w) && IsResult(r, w, lane, qs) && FollowsHeard(w, lane, evalRouter)
      ensures w.ending.Answered?
      ensures w.ending.status == (if r.attempt.Success? then None else Some(r.attempt.status))
      ensures r.attempt.Success? && !lane.injected ==> Relayed(lane, r.attempt.answers, qs, w.reply)
    {
      hide AllYes, Relayed, SpendSays, RefusalOf, CostOf;
    }

    lemma PauseEnds(before: seq<Wire>, qs: Questions, n: nat, invalid: int, p: Play, r: Option<PackResult>)
      requires n > 1 && r.Some? && Pauses(p, r)
      ensures Turned(before, before, qs, n, invalid, p, r)
    {
    }

    lemma AttemptTurn(before: seq<Wire>, w: Wire, qs: Questions, n: nat, invalid: int, p: Play, result: AttemptResult,
                      stop: Option<PackResult>)
      requires n >= 1 && (n > 1 ==> Pauses(p.(next := 0), None))
      requires IsResult(result, w, lane, qs) && (Sent(w) <==> result.OnWire?)
      requires LeadsTo(result, Overran(w), n, invalid, p.turn, stop, p.next)
      ensures Turned(before, before + [w], qs, n, invalid, p, stop)
    {
      hide Waits, FailsAs, RefusedAs, Relayed, Overran;
      assert (before + [w])[|before|] == w;
      assert n > 1 ==> Pauses(p, None);
    }

    /** How a pack ends when its attempt was not sent; `retry` says an earlier one was. */
    method AfterRefusal(result: AttemptResult, retry: bool, t: Turn) returns (r: PackResult)
      requires !result.OnWire?
      ensures RefusedAs(result, retry, t, r)
      ensures !r.PackOk?
      ensures r.PackFailed? ==>
        && r.verdict == VerdictOf(r.outcome, retry) && (r.verdict == FailureVerdict ==> retry)
        && r.outcome in {RequestCancelled, CapacityDeferred, NoKey, BudgetOutcome, CircuitOpen, DemandLost}
    {
      match result
      case Abandoned => r := PackFailed(RequestCancelled, NeutralVerdict);
      case Deferred => r := PackFailed(CapacityDeferred, if retry then FailureVerdict else NeutralVerdict);
      case NoCredential => r := PackFailed(NoKey, NeutralVerdict);
      case EvalBudget => r := PackFailed(BudgetOutcome, NeutralVerdict);
      case CircuitDenied => r := PackFailed(CircuitOpen, if retry then FailureVerdict else NeutralVerdict);
      case SpendDenied =>
        r := if t.denial == Fails then PackThrew
             else PackFailed(if t.denial == No then DemandLost else BudgetOutcome, NeutralVerdict);
      case Threw => r := PackThrew;
    }

    /** The outcome of a pack whose attempt was not sent; the breaker hears of a failure only on a retry. */
    ghost predicate RefusedAs(result: AttemptResult, retry: bool, t: Turn, r: PackResult) {
      match r
      case PackThrew => result == Threw || (result == SpendDenied && t.denial == Fails)
      case PackFailed(outcome, verdict) =>
        && (outcome == RequestCancelled <==> result == Abandoned)
        && (outcome == CapacityDeferred <==> result == Deferred)
        && (outcome == NoKey <==> result == NoCredential)
        && (outcome == CircuitOpen <==> result == CircuitDenied)
        && (outcome == DemandLost <==> result == SpendDenied && t.denial == No)
        && (outcome == BudgetOutcome <==> result == EvalBudget || (result == SpendDenied && t.denial == Yes))
        && result != Threw && !(result == SpendDenied && t.denial == Fails)
        && verdict == (if retry && (result == Deferred || result == CircuitDenied) then FailureVerdict
                       else NeutralVerdict)
      case PackOk(_, _) => false
    }

    lemma StopsIf(result: PackResult)
      requires result.PackFailed? ==>
        && (result.verdict == FailureVerdict ==> ordinal > 0 && VerdictOf(result.outcome, true) == FailureVerdict)
        && result.verdict != SuccessVerdict
        && result.outcome != CostOverrun && result.outcome != IncompleteAnswers
      ensures result.PackFailed? ==> Stops(result)
    {
    }

    /** A failed pack's verdict, as its lane may pass it on. */
    ghost predicate Stops(result: PackResult)
      requires result.PackFailed?
      reads this`ordinal
    {
      && (result.verdict == FailureVerdict ==> ordinal > 0 && VerdictOf(result.outcome, true) == FailureVerdict)
      && result.verdict != SuccessVerdict
      && result.outcome != CostOverrun && result.outcome != IncompleteAnswers
    }

    /** Pack `i`, its answers merged with those of the packs before it. */
    method OnePack(packs: seq<Questions>, questions: Questions, i: nat, answers: Answers, ghost runs: seq<Ran>)
      returns (result: PackResult, merged: Answers, ghost more: seq<Ran>)
      requires Balanced() && Funded(None) && forall w :: w in tries ==> !Overran(w)
      requires Askable(questions) && Flatten(packs) == questions && i < |packs|
      requires Covered(answers, packs, questions, i) && Consultations(tries) && (consulted <==> tries == [])
      requires RanSoFar(tries, packs, runs, i, None, answers)
      modifies this`cur, this`ordinal, this`held, this`probeToken, this`consulted, this`tries, this`spentUsd,
        this`penalties, this`condemned, this`calls, budget
      ensures Funded(None)
      ensures Balanced() && PackAccount(old(tries), tries, old(consulted), old(probeToken).Some?)
      ensures 0 <= ordinal - old(ordinal) <= MaxAttempts(lane.engine)
      ensures Consultations(tries)
      ensures var stop := StopsLane(result, i, |packs|);
        RanSoFar(tries, packs, more, if stop then i else i + 1, if stop then Some(result) else None, merged)
      ensures result.PackFailed? ==> Stops(result)
      ensures result.PackOk? ==>
        && ordinal > old(ordinal) && |tries| > |old(tries)| && !consulted
        && (!result.overrun ==> forall w :: w in tries ==> !Overran(w))
        && merged == answers + result.answers && Covered(merged, packs, questions, i + 1)
    {
      PackIsASlice(packs, i);
      ghost var a, b := Cut(packs, i), Cut(packs, i + 1);
      SliceIsAskable(questions, a, b);
      hide *;
      merged := answers;
      ghost var before, asked, probed := tries, consulted, probeToken.Some?;
      ghost var plays;
      result, plays := RunPack(packs[i]);
      more := runs + [Ran(|tries|, plays, result)];
      PackConsults(before, tries, asked, probed);
      if result.PackFailed? {
        VerdictsOf(result.outcome, false);
        VerdictsOf(result.outcome, true);
        StopsIf(result);
      }
      if result.PackOk? {
        merged := answers + result.answers;
        NextIsCovered(answers, result.answers, packs, questions, i, before);
      }
      RunsOn(before, tries, packs, runs, i, answers, Ran(|tries|, plays, result), merged);
    }

    /** On a real engine: the questions of the first `i` packs, exactly, are answered. */
    ghost predicate Covered(answers: Answers, packs: seq<Questions>, questions: Questions, i: nat)
      requires i <= |packs|
      reads this`tries
    {
      Cut(packs, i) <= |questions|
      && (!lane.injected ==> Reported(lane, answers, questions[..Cut(packs, i)], tries))
    }

    lemma NextIsCovered(answers: Answers, more: Answers, packs: seq<Questions>, questions: Questions, i: nat,
                        before: seq<Wire>)
      requires i < |packs| && Flatten(packs) == questions && Askable(questions) && before <= tries
      requires Cut(packs, i) <= |questions|
      requires !lane.injected ==> Reported(lane, answers, questions[..Cut(packs, i)], before)
      requires !lane.injected ==> Reported(lane, more, packs[i], tries)
      ensures Covered(answers + more, packs, questions, i + 1)
    {
      PackIsASlice(packs, i);
      hide Reported, Askable, Flatten, Cut;
      if !lane.injected {
        StillReported(lane, answers, questions[..Cut(packs, i)], before, tries);
        MergeKeepsReports(lane, answers, more, questions, Cut(packs, i), Cut(packs, i + 1), tries);
      }
    }

    lemma CoveredEnds(answers: Answers, packs: seq<Questions>, questions: Questions)
      requires Flatten(packs) == questions
      ensures Covered(map[], packs, questions, 0)
      ensures Covered(answers, packs, questions, |packs|) && !lane.injected ==>
        Reported(lane, answers, questions, tries)
      ensures questions != [] ==> packs != []
    {
      CutEnds(packs);
      NothingAsked(questions);
      assert questions[..|questions|] == questions;
      hide AnswersExactly;
    }

    /** The packs in order, merging their answers; stops at the first that fails or overruns. */
    method RunPacks(packs: seq<Questions>, questions: Questions)
      returns (r: LaneResult, verdict: Verdict, ghost runs: seq<Ran>)
      requires Balanced() && Funded(None) && tries == [] && consulted
      requires Askable(questions) && Flatten(packs) == questions
      modifies this`cur, this`ordinal, this`held, this`probeToken, this`consulted, this`tries, this`spentUsd,
        this`penalties, this`condemned, this`calls, budget
      ensures Funded(None)
      ensures Balanced() && ordinal <= MostAttempts(lane.engine, |packs|)
      ensures LaneEnds(r, verdict, questions) && Consultations(tries)
      ensures LaneRuns(tries, packs, questions, runs, r, verdict)
    {
      hide *;
      StartsOnTrack(packs, questions);
      var answers: Answers := map[];
      runs := [];
      var i := 0;
      var stopped: Option<PackResult> := None;
      while i < |packs| && stopped.None?
        invariant 0 <= i <= |packs| && Balanced() && Funded(None)
        invariant OnTrack(packs, questions, i, stopped, answers, runs)
        decreases |packs| - i, if stopped.None? then 1 else 0
      {
        OnTrackMeans(packs, questions, i, stopped, answers, runs);
        ghost var sent := ordinal;
        var result, merged;
        result, merged, runs := OnePack(packs, questions, i, answers, runs);
        StaysOnTrack(packs, questions, i, sent, result, merged, runs);
        answers := merged;
        StopMeans(result, i, |packs|);
        if !result.PackOk? || (result.overrun && i < |packs| - 1) {
          stopped := Some(result);
        } else {
          i := i + 1;
        }
      }
      CoveredEnds(answers, packs, questions);
      OnTrackMeans(packs, questions, i, stopped, answers, runs);
      if stopped.Some? {
        r, verdict := Stop(stopped.value, questions);
        LaneStops(tries, packs, questions, runs, i, stopped.value, answers, r, verdict);
      } else {
        r, verdict := Conclude(answers, questions);
        LaneConcludes(tries, packs, questions, runs, answers, r, verdict);
      }
    }

    /** The state of a lane after `i` packs answered and perhaps one more that stopped it. */
    ghost predicate OnTrack(packs: seq<Questions>, questions: Questions, i: nat, stopped: Option<PackResult>,
                            answers: Answers, runs: seq<Ran>)
      requires i <= |packs|
      reads this`tries, this`consulted, this`ordinal
    {
      && Consultations(tries) && i <= ordinal <= MostAttempts(lane.engine, |packs|)
      && RanSoFar(tries, packs, runs, i, stopped, answers)
      && (stopped.None? ==>
            && (i < |packs| ==> forall w :: w in tries ==> !Overran(w))
            && (if i == 0 then consulted && tries == [] else !consulted && tries != [])
            && ordinal <= MostAttempts(lane.engine, i) && Covered(answers, packs, questions, i))
      && (stopped.Some? && stopped.value.PackFailed? ==> Stops(stopped.value))
    }

    lemma OnTrackMeans(packs: seq<Questions>, questions: Questions, i: nat, stopped: Option<PackResult>,
                       answers: Answers, runs: seq<Ran>)
      requires i <= |packs| && OnTrack(packs, questions, i, stopped, answers, runs)
      ensures Consultations(tries) && i <= ordinal <= MostAttempts(lane.engine, |packs|)
      ensures RanSoFar(tries, packs, runs, i, stopped, answers)
      ensures stopped.None? ==>
        && (i < |packs| ==> forall w :: w in tries ==> !Overran(w)) && (consulted <==> tries == [])
        && ordinal <= MostAttempts(lane.engine, i) && Covered(answers, packs, questions, i)
      ensures stopped.Some? && stopped.value.PackFailed? ==> Stops(stopped.value)
    {
      hide Consultations, MostAttempts, RanSoFar, Overran, Covered, Stops;
    }

    lemma StartsOnTrack(packs: seq<Questions>, questions: Questions)
      requires Balanced() && tries == [] && consulted && Flatten(packs) == questions
      ensures OnTrack(packs, questions, 0, None, map[], [])
    {
      NothingRan(packs);
      NoPacks(lane.engine);
      CoveredEnds(map[], packs, questions);
      assert ordinal == 0 && Consultations(tries);
      hide RanSoFar, Covered;
    }

    lemma StaysOnTrack(packs: seq<Questions>, questions: Questions, i: nat, sent: nat, result: PackResult,
                       merged: Answers, runs: seq<Ran>)
      requires i < |packs| && i <= sent <= MostAttempts(lane.engine, i)
      requires 0 <= ordinal - sent <= MaxAttempts(lane.engine) && Consultations(tries)
      requires result.PackFailed? ==> Stops(result)
      requires result.PackOk? ==>
        && ordinal > sent && tries != [] && !consulted && Covered(merged, packs, questions, i + 1)
        && (!result.overrun ==> forall w :: w in tries ==> !Overran(w))
      requires var stop := StopsLane(result, i, |packs|);
        RanSoFar(tries, packs, runs, if stop then i else i + 1, if stop then Some(result) else None, merged)
      ensures var stop := StopsLane(result, i, |packs|);
        OnTrack(packs, questions, if stop then i else i + 1, if stop then Some(result) else None, merged, runs)
    {
      OneMorePack(lane.engine, i, |packs|);
      hide Consultations, MostAttempts, MaxAttempts, RanSoFar, Overran, Covered, Stops;
    }

    // ----- How a lane follows from its packs -----

    /**
     * The packs run in order, each from where the one before it ended and only after that was answered
     * within its reservation; together they made all the attempts.
     */
    ghost predicate PacksRun(ws: seq<Wire>, packs: seq<Questions>, runs: seq<Ran>)
      decreases |runs|
    {
      && |runs| <= |packs|
      && if runs == [] then ws == []
         else
           var n := |runs| - 1;
           var start := if n == 0 then 0 else runs[n - 1].upTo;
           && start <= |ws| == runs[n].upTo
           && PacksRun(ws[..start], packs, runs[..n])
           && (n > 0 ==> runs[n - 1].result.PackOk? && !runs[n - 1].result.overrun)
           && PackRuns(ws[..start], ws, packs[n], runs[n].plays, runs[n].result)
    }

    ghost function Merged(runs: seq<Ran>): Answers {
      if runs == [] then map[]
      else Merged(runs[..|runs| - 1])
           + if runs[|runs| - 1].result.PackOk? then runs[|runs| - 1].result.answers else map[]
    }

    /**
     * The lane ends as its last pack does, if that failed, threw, or overran with packs to go; otherwise
     * all packs ran, and it answers with everything they answered, provided that no question is left out.
     */
    ghost predicate LaneRuns(ws: seq<Wire>, packs: seq<Questions>, questions: Questions, runs: seq<Ran>,
                             r: LaneResult, verdict: Verdict) {
      && PacksRun(ws, packs, runs)
      && if runs != [] && runs[|runs| - 1].result.PackThrew? then r == LaneThrew && verdict == NeutralVerdict
         else if runs != [] && runs[|runs| - 1].result.PackFailed? then
           r == LaneFailed(runs[|runs| - 1].result.outcome) && verdict == runs[|runs| - 1].result.verdict
         else if runs != [] && runs[|runs| - 1].result.overrun && |runs| < |packs| then
           r == LaneFailed(CostOverrun) && verdict == SuccessVerdict
         else
           && |runs| == |packs|
           && if forall j :: 0 <= j < |questions| ==> questions[j].key in Merged(runs) then
                r == LaneOk(Merged(runs), TotalCost(ws)) && verdict == SuccessVerdict
              else r == LaneFailed(IncompleteAnswers) && verdict == FailureVerdict
    }

    /** After `i` packs answered and perhaps one more that stopped the lane. */
    ghost predicate RanSoFar(ws: seq<Wire>, packs: seq<Questions>, runs: seq<Ran>, i: nat,
                             stopped: Option<PackResult>, answers: Answers) {
      && PacksRun(ws, packs, runs) && |runs| == i + (if stopped.None? then 0 else 1)
      && (stopped.None? && i > 0 ==> runs[i - 1].result.PackOk? && (runs[i - 1].result.overrun ==> i == |packs|))
      && (stopped.None? ==> answers == Merged(runs))
      && (stopped.Some? ==> stopped.value == runs[i].result && StopsLane(runs[i].result, i, |packs|))
    }

    predicate StopsLane(result: PackResult, i: nat, packs: nat) {
      !result.PackOk? || (result.overrun && i < packs - 1)
    }

    lemma StopMeans(result: PackResult, i: nat, packs: nat)
      ensures StopsLane(result, i, packs) <==> !result.PackOk? || (result.overrun && i < packs - 1)
    {
    }

    lemma NothingRan(packs: seq<Questions>)
      ensures RanSoFar([], packs, [], 0, None, map[])
    {
    }

    lemma RunsOn(before: seq<Wire>, ws: seq<Wire>, packs: seq<Questions>, runs: seq<Ran>, i: nat, answers: Answers,
                 ran: Ran, merged: Answers)
      requires RanSoFar(before, packs, runs, i, None, answers) && i < |packs| && before <= ws && ran.upTo == |ws|
      requires PackRuns(before, ws, packs[i], ran.plays, ran.result)
      requires ran.result.PackOk? ==> merged == answers + ran.result.answers
      ensures var stop := StopsLane(ran.result, i, |packs|);
        RanSoFar(ws, packs, runs + [ran], if stop then i else i + 1, if stop then Some(ran.result) else None, merged)
    {
      hide PacksRun, PackRuns, Merged;
      PackRan(before, ws, packs, runs, ran);
    }

    lemma PackRan(before: seq<Wire>, ws: seq<Wire>, packs: seq<Questions>, runs: seq<Ran>, ran: Ran)
      requires PacksRun(before, packs, runs) && before <= ws && |runs| < |packs| && ran.upTo == |ws|
      requires runs != [] ==> runs[|runs| - 1].result.PackOk? && !runs[|runs| - 1].result.overrun
      requires PackRuns(before, ws, packs[|runs|], ran.plays, ran.result)
      ensures PacksRun(ws, packs, runs + [ran])
      ensures ran.result.PackOk? ==> Merged(runs + [ran]) == Merged(runs) + ran.result.answers
    {
      hide PackRuns;
      assert (runs + [ran])[..|runs|] == runs && ws[..|before|] == before;
    }

    lemma LaneStops(ws: seq<Wire>, packs: seq<Questions>, questions: Questions, runs: seq<Ran>, i: nat,
                    stopped: PackResult, answers: Answers, r: LaneResult, verdict: Verdict)
      requires RanSoFar(ws, packs, runs, i, Some(stopped), answers)
      requires match stopped
        case PackThrew => r == LaneThrew && verdict == NeutralVerdict
        case PackFailed(outcome, v) => r == LaneFailed(outcome) && verdict == v
        case PackOk(_, _) => r == LaneFailed(CostOverrun) && verdict == SuccessVerdict
      ensures LaneRuns(ws, packs, questions, runs, r, verdict)
    {
      hide PacksRun;
    }

    lemma LaneConcludes(ws: seq<Wire>, packs: seq<Questions>, questions: Questions, runs: seq<Ran>, answers: Answers,
                        r: LaneResult, verdict: Verdict)
      requires RanSoFar(ws, packs, runs, |packs|, None, answers)
      requires Concluded(answers, questions, TotalCost(ws), r, verdict)
      ensures LaneRuns(ws, packs, questions, runs, r, verdict)
    {
      hide PacksRun, Merged;
    }

    /** A lane that answered every question it was asked succeeds with its cost. */
    ghost predicate Concluded(answers: Answers, questions: Questions, cost: real, r: LaneResult, verdict: Verdict) {
      if forall j :: 0 <= j < |questions| ==> questions[j].key in answers then
        r == LaneOk(answers, cost) && verdict == SuccessVerdict
      else r == LaneFailed(IncompleteAnswers) && verdict == FailureVerdict
    }

    /** A pack that fails, throws or overruns ends its lane; an overrun was answered all the same. */
    method Stop(result: PackResult, questions: Questions) returns (r: LaneResult, verdict: Verdict)
      requires result.PackFailed? ==> Stops(result)
      ensures LaneEnds(r, verdict, questions)
      ensures result.PackThrew? <==> r.LaneThrew?
      ensures result.PackFailed? ==> r == LaneFailed(result.outcome) && verdict == result.verdict
      ensures result.PackOk? ==> r == LaneFailed(CostOverrun) && verdict == SuccessVerdict
      ensures result.PackThrew? ==> verdict == NeutralVerdict
    {
      match result
      case PackThrew => r, verdict := LaneThrew, NeutralVerdict;
      case PackFailed(outcome, v) => r, verdict := LaneFailed(outcome), v;
      case PackOk(_, _) => r, verdict := LaneFailed(CostOverrun), SuccessVerdict;
    }

    /** All packs answered: every requested key must be there. */
    method Conclude(answers: Answers, questions: Questions) returns (r: LaneResult, verdict: Verdict)
      requires Balanced() && (questions != [] ==> ordinal > 0)
      requires !lane.injected ==> Reported(lane, answers, questions, tries)
      ensures LaneEnds(r, verdict, questions) && Concluded(answers, questions, TotalCost(tries), r, verdict)
    {
      if !lane.injected {
        AllAnswered(answers, questions);
      }
      hide AnswersExactly;
      if exists j :: 0 <= j < |questions| && questions[j].key !in answers {
        return LaneFailed(IncompleteAnswers), FailureVerdict;
      }
      r, verdict := LaneOk(answers, spentUsd), SuccessVerdict;
    }

    /** How the result and the breaker verdict of a lane go together. */
    ghost predicate LaneEnds(r: LaneResult, verdict: Verdict, questions: Questions)
      reads this
    {
      && (r.LaneThrew? ==> verdict == NeutralVerdict)
      && (verdict == SuccessVerdict <==> r.LaneOk? || r == LaneFailed(CostOverrun))
      && (verdict == FailureVerdict ==>
            ordinal > 0 && (r == LaneFailed(IncompleteAnswers) || VerdictOf(r.outcome, true) == FailureVerdict))
      && (r == LaneFailed(IncompleteAnswers) ==> lane.injected)
      && (r.LaneOk? ==>
            && r.costUsd == TotalCost(tries)
            && (forall j :: 0 <= j < |questions| ==> questions[j].key in r.answers)
            && (!lane.injected ==> Reported(lane, r.answers, questions, tries)))
    }

    /**
     * One engine for a logical request. Admitted, it reports exactly one verdict to the breaker,
     * however it ends; refused before, it takes nothing. A success costs what all its attempts cost
     * and, on a real engine, answers exactly the requested keys, each soundly.
     */
    method Run(packs: seq<Questions>, questions: Questions, e: Entry) returns (r: LaneResult, ghost runs: seq<Ran>)
      requires Balanced() && Funded(None) && tries == [] && verdicts == []
      requires Askable(questions) && Flatten(packs) == questions
      modifies this, budget
      ensures Funded(None)
      ensures Balanced() && ordinal <= MostAttempts(lane.engine, |packs|)
      ensures Consultations(tries)
      ensures verdicts == [] ==> tries == [] && (r.LaneThrew? || r.LaneFailed?)
      ensures r.LaneFailed? && verdicts == [] ==> r.outcome in {RequestCancelled, NoKey, CircuitOpen}
      ensures verdicts != [] ==> |verdicts| == 1 && LaneEnds(r, verdicts[0], questions)
      ensures Goes(tries, verdicts, packs, questions, e, runs, r)
    {
      hide Reported, Askable, Flatten, LaneRuns;
      runs := [];
      if e.aborted {
        return LaneFailed(RequestCancelled), [];
      }
      if !e.available && !lane.injected {
        return LaneFailed(NoKey), [];
      }
      if e.breaker == Fails {
        return LaneThrew, [];
      }
      if e.breaker == No {
        return LaneFailed(CircuitOpen), [];
      }
      probeToken, consulted, withoutCredential := e.token, true, !e.available;
      var verdict := NeutralVerdict;
      if lane.engine == Llm && e.capRaised {
        r := LaneThrew;
      } else {
        r, verdict, runs := RunPacks(packs, questions);
      }
      verdicts := verdicts + [verdict];
    }

    /**
     * Before anything else a cancelled request, a missing credential and the breaker may refuse a lane,
     * in that order; admitted, it runs its packs and reports the verdict they come to.
     */
    ghost predicate Goes(ws: seq<Wire>, vs: seq<Verdict>, packs: seq<Questions>, questions: Questions, e: Entry,
                         runs: seq<Ran>, r: LaneResult) {
      if e.aborted then r == LaneFailed(RequestCancelled) && vs == [] && ws == []
      else if !e.available && !lane.injected then r == LaneFailed(NoKey) && vs == [] && ws == []
      else if e.breaker == Fails then r == LaneThrew && vs == [] && ws == []
      else if e.breaker == No then r == LaneFailed(CircuitOpen) && vs == [] && ws == []
      else if lane.engine == Llm && e.capRaised then r == LaneThrew && vs == [NeutralVerdict] && ws == []
      else |vs| == 1 && LaneRuns(ws, packs, questions, runs, r, vs[0])
    }
  }

  /** A primary failure the LLM may answer instead. */
  predicate FallbackAfter(o: Outcome) {
    o !in {BadRequest, DemandLost, BudgetOutcome, RequestCancelled}
  }

  ghost predicate Untouched(l: LaneRun?)
    reads l
  {
    l != null ==> l.Balanced() && l.tries == [] && l.verdicts == []
  }

  /**
   * A logical request: Jev first, then, for interactive work and failures worth it, the LLM in as
   * few packs as can hold the questions. At most four Jev attempts and two per question on the LLM.
   */
  method Ask(primary: LaneRun?, fallback: LaneRun?, budget: SpendGuard.InvocationBudget?,
             interactive: bool, enabled: bool, qs: Questions, maxOutputTokens: int, est: Questions -> int,
             aborted: bool, demand: Said, one: Entry, two: Entry)
    returns (r: LaneResult, ghost first: LaneResult, ghost second: Option<LaneResult>,
             ghost packs: seq<Questions>, ghost runs: (seq<Ran>, seq<Ran>))
    requires Untouched(primary) && Untouched(fallback) && Askable(qs)
    requires primary != null ==> primary != fallback && primary.lane.engine == Typesafe
    requires fallback != null ==> fallback.lane.engine == Llm
    requires primary != null ==> primary.budget == budget
    requires fallback != null ==> fallback.budget == budget
    requires budget != null ==> SpendGuard.Balanced(budget.Abs(), budget.limitUsd)
    modifies primary, fallback, budget
    ensures budget != null ==> SpendGuard.Balanced(budget.Abs(), budget.limitUsd)
    ensures primary != null ==> primary.Balanced() && primary.ordinal <= 4
    ensures fallback != null ==> fallback.Balanced() && fallback.ordinal <= 2 * |qs|
    ensures aborted ==> first == LaneFailed(RequestCancelled)
    ensures !aborted && demand != Yes ==> first == if demand == No then LaneFailed(DemandLost) else LaneThrew
    ensures !aborted && demand == Yes ==>
      if primary == null then first == LaneFailed(NoKey)
      else primary.Goes(primary.tries, primary.verdicts, [qs], qs, one, runs.0, first)
    ensures second.Some? ==>
      && fallback != null && IsSplit(packs, qs, est, maxOutputTokens) && Tight(packs, est, maxOutputTokens)
      && fallback.Goes(fallback.tries, fallback.verdicts, packs, qs, two, runs.1, second.value)
    ensures second.Some? <==>
      && first.LaneFailed? && first.outcome !in {BadRequest, DemandLost, BudgetOutcome, RequestCancelled}
      && fallback != null && enabled && interactive
      && (forall i :: 0 <= i < |qs| ==> Fits(est, maxOutputTokens, [qs[i]]))
    ensures second.None? ==> r == first && Untouched(fallback)
    ensures second.Some? ==>
      r == if second.value.LaneFailed? && second.value.outcome != DemandLost then first else second.value
    ensures r.LaneOk? ==> forall j :: 0 <= j < |qs| ==> qs[j].key in r.answers
    ensures r.LaneOk? ==> second.None? ==> primary != null
    ensures r.LaneOk? ==>
      var l := if second.Some? then fallback else primary;
      !l.lane.injected ==> Reported(l.lane, r.answers, qs, l.tries)
  {
    hide Reported, Askable, AllClosed, Numbered, OverrunIsLast, Fewest, NoSplit, Monotone, SpendGuard.Balanced;
    second, packs, runs := None, [], ([], []);
    if aborted || demand != Yes {
      r := if aborted then LaneFailed(RequestCancelled)
           else if demand == Fails then LaneThrew
           else LaneFailed(DemandLost);
      first := r;
      return;
    }
    ghost var ran, ranToo: seq<Ran> := [], [];
    r := LaneFailed(NoKey);
    if primary != null {
      FlattenAppend([], qs);
      r, ran := primary.Run([qs], qs, one);
    }
    first, runs := r, (ran, []);
    if !r.LaneFailed? || fallback == null || !enabled || !interactive || !FallbackAfter(r.outcome) {
      return;
    }
    var split := SplitQuestions(qs, maxOutputTokens, est);
    if split.None? {
      return;
    }
    NoMorePacksThanQuestions(split.value);
    var answer;
    answer, ranToo := fallback.Run(split.value, qs, two);
    second, packs, runs := Some(answer), split.value, (ran, ranToo);
    if !answer.LaneFailed? || answer.outcome == DemandLost {
      r := answer;
    }
  }

  lemma SomeAttempt(e: Engine)
    ensures MaxAttempts(e) >= 1
  {
  }

  lemma NothingTried(ws: seq<Wire>, asked: bool, probed: bool)
    ensures Retrying(ws, ws, asked, probed)
  {
  }

  lemma RetryingIsAccount(first: seq<Wire>, ws: seq<Wire>, asked: bool, probed: bool)
    requires Retrying(first, ws, asked, probed)
    ensures PackAccount(first, ws, asked, probed)
  {
  }

  lemma AttemptEnds(first: seq<Wire>, ws: seq<Wire>, w: Wire, asked: bool, probed: bool)
    requires Retrying(first, ws, asked, probed) && (w.opens <==> ws == first)
    requires w.opens ==> w.probed == probed && (Sent(w) ==> w.consulted == (asked || probed))
    requires !w.opens && Sent(w) ==> w.consulted
    ensures PackAccount(first, ws + [w], asked, probed)
  {
    hide MayRetry, InvalidCount;
    assert (ws + [w])[..|ws|] == ws;
  }

  lemma AttemptRetried(first: seq<Wire>, ws: seq<Wire>, w: Wire, asked: bool, probed: bool, status: Status)
    requires Retrying(first, ws, asked, probed) && (w.opens <==> ws == first)
    requires w.opens ==> w.probed == probed && (Sent(w) ==> w.consulted == (asked || probed))
    requires !w.opens && Sent(w) ==> w.consulted
    requires Sent(w) && !Overran(w) && w.ending.Answered? && w.ending.status == Some(status) && Transient(status)
    requires status == InvalidResponse ==> InvalidCount(ws) == InvalidCount(first)
    ensures Retrying(first, ws + [w], asked, probed)
    ensures InvalidCount(ws + [w]) == InvalidCount(ws) + if status == InvalidResponse then 1 else 0
  {
    Appended(ws, w);
    hide Overran, InvalidCount;
  }

  /** Four attempts per pack on Jev, two on the LLM. */
  function MostAttempts(e: Engine, packs: nat): nat {
    match e
    case Typesafe => 4 * packs
    case Llm => 2 * packs
    case Laya => packs
  }

  lemma VerdictsOf(o: Outcome, sent: bool)
    ensures VerdictOf(o, sent) != SuccessVerdict
    ensures VerdictOf(o, sent) == FailureVerdict ==> VerdictOf(o, true) == FailureVerdict
  {
  }

  lemma NoPacks(e: Engine)
    ensures MostAttempts(e, 0) == 0
  {
  }

  lemma OneMorePack(e: Engine, i: nat, packs: nat)
    requires i < packs
    ensures MostAttempts(e, i) + MaxAttempts(e) == MostAttempts(e, i + 1) <= MostAttempts(e, packs)
  {
  }

  /** A first pack begins right after the breaker was asked, a later one never does. */
  lemma PackConsults(first: seq<Wire>, ws: seq<Wire>, asked: bool, probed: bool)
    requires PackAccount(first, ws, asked, probed) && Consultations(first) && (asked <==> first == [])
    ensures first <= ws && Consultations(ws)
  {
    forall i | 0 <= i < |ws| && Sent(ws[i])
      ensures !ws[i].consulted <==> ws[i].opens && i > 0 && !ws[i].probed
    {
      if i < |first| {
        assert ws[i] == first[i];
      } else {
        assert Asks(first, ws[i], i, asked, probed);
      }
    }
  }

  /**
   * It happens: two packs answered at the first attempt, in an account that is balanced in every
   * respect, the second sent without a look at the shared breaker.
   */
  lemma LaterPackGoesUnasked(l: Lane) returns (ws: seq<Wire>)
    requires IsPaidLane(l)
    ensures AllClosed(ws, l, false) && Numbered(ws) && OverrunIsLast(ws) && Consultations(ws)
    ensures |ws| == 2 && PackAccount([], ws[..1], true, false) && PackAccount(ws[..1], ws, false, false)
    ensures Sent(ws[1]) && !ws[1].consulted
  {
    var one, two := FirstTry(l, 1, true), FirstTry(l, 2, false);
    FirstTryMeans(l, 1, true);
    FirstTryMeans(l, 2, false);
    EmptyAccount(l);
    ws := [one, two];
    assert [] + [one] == [one] && [one] + [two] == ws && ws[..1] == [one];
    hide *;
    Appended([], one);
    NumberedNext([], one);
    NumberedNext([one], two);
    ClosedAppend([], one, l, false);
    ClosedAppend([one], two, l, false);
    NothingTried([], true, false);
    AttemptEnds([], [], one, true, false);
    PackConsults([], [one], true, false);
    NothingTried([one], false, false);
    AttemptEnds([one], [one], two, false, false);
    PackConsults([one], ws, false, false);
  }

  /** A pack answered for nothing at its first attempt, with no probe held. */
  function FirstTry(l: Lane, n: nat, consulted: bool): Wire {
    Wire(if l.limited then Debited else NoTicket, NoReserve, Settled, 0.0, Some(n), l.semaphores,
         true, false, consulted, None, Answered(None, Some(0.0)), AllAgreed(l))
  }

  /** Everyone agrees at once, and the provider answers for nothing. */
  function AllAgreed(l: Lane): Heard {
    Heard(false, false, false, if l.limited then Some(Given) else None, seq(|l.semaphores|, _ => Given), None, None,
          None, Some(true), None, Some(Yes), 0.0, Some(Success(map[], None, 0.0)), [], [true])
  }

  lemma FirstTryMeans(l: Lane, n: nat, consulted: bool)
    ensures var w := FirstTry(l, n, consulted);
      && Closed(w, l, false) && FollowsHeard(w, l, false) && !Overran(w) && Sent(w) && w.ordinal == Some(n)
      && w.opens && !w.probed && w.consulted == consulted
  {
  }

  lemma EmptyAccount(l: Lane)
    ensures Sends([]) == 0 && Numbered([]) && AllClosed([], l, false) && Consultations([])
  {
  }

  lemma AllAnswered(answers: Answers, qs: Questions)
    requires AnswersExactly(answers, qs)
    ensures forall j :: 0 <= j < |qs| ==> qs[j].key in answers
  {
  }

  lemma NothingAsked(qs: Questions)
    ensures AnswersExactly(map[], qs[..0])
  {
  }

  lemma SliceIsAskable(qs: Questions, a: nat, b: nat)
    requires a <= b <= |qs| && Askable(qs)
    ensures Askable(qs[a..b])
  {
    forall i, j | 0 <= i < j < b - a
      ensures EntryKeys(qs[a..b])[i] != EntryKeys(qs[a..b])[j]
    {
      assert EntryKeys(qs)[a + i] != EntryKeys(qs)[a + j];
    }
  }

  /** The packs' keys do not overlap, so a later pack never overwrites an earlier answer. */
  lemma MergeKeepsAnswers(merged: Answers, more: Answers, qs: Questions, a: nat, b: nat)
    requires a <= b <= |qs| && Askable(qs)
    requires AnswersExactly(merged, qs[..a]) && AnswersExactly(more, qs[a..b])
    ensures AnswersExactly(merged + more, qs[..b])
  {
    hide Sound, WellPosed;
    var all := merged + more;
    forall k
      ensures k in all <==> k in KeySet(EntryKeys(qs[..b]))
    {
      KeyOfPrefix(qs, a, b, k);
    }
    forall i | 0 <= i < b
      ensures qs[i].key in all && Sound(qs[i].question, all[qs[i].key])
    {
      if i < a {
        assert qs[..a][i] == qs[i];
        EarlierKeyIsNew(qs, i, a, b);
      } else {
        assert qs[a..b][i - a] == qs[i];
      }
    }
  }

  lemma RelayedIsReported(l: Lane, answers: Answers, qs: Questions, before: seq<Wire>, w: Wire)
    requires Relayed(l, answers, qs, w.reply)
    ensures Reported(l, answers, qs, before + [w])
  {
    hide AnswersExactly, Tells;
    var ws := before + [w];
    forall i | 0 <= i < |qs|
      ensures Told(l, answers, qs[i], ws)
    {
      assert Tells(l, answers, qs[i], ws[|before|].reply);
    }
  }

  lemma StillReported(l: Lane, answers: Answers, qs: Questions, before: seq<Wire>, ws: seq<Wire>)
    requires Reported(l, answers, qs, before) && before <= ws
    ensures Reported(l, answers, qs, ws)
  {
    hide AnswersExactly, Tells;
    forall i | 0 <= i < |qs|
      ensures Told(l, answers, qs[i], ws)
    {
      assert Told(l, answers, qs[i], before);
      var j :| 0 <= j < |before| && Tells(l, answers, qs[i], before[j].reply);
      assert ws[j] == before[j];
    }
  }

  /** A later pack's keys are new, so what was reported stays reported. */
  lemma MergeKeepsReports(l: Lane, merged: Answers, more: Answers, qs: Questions, a: nat, b: nat, ws: seq<Wire>)
    requires a <= b <= |qs| && Askable(qs)
    requires Reported(l, merged, qs[..a], ws) && Reported(l, more, qs[a..b], ws)
    ensures Reported(l, merged + more, qs[..b], ws)
  {
    MergeKeepsAnswers(merged, more, qs, a, b);
    ReportedMeans(l, merged, qs[..a], ws);
    ReportedMeans(l, more, qs[a..b], ws);
    hide *;
    forall i | 0 <= i < b
      ensures Told(l, merged + more, qs[..b][i], ws)
    {
      assert qs[..b][i] == qs[i];
      if i < a {
        assert qs[..a][i] == qs[i];
        EarlierKeyIsNew(qs, i, a, b);
        EarlierIsTold(l, merged, more, qs[i], ws);
      } else {
        assert qs[a..b][i - a] == qs[i];
        LaterIsTold(l, merged, more, qs[i], ws);
      }
    }
    IsReported(l, merged + more, qs[..b], ws);
  }

  lemma ReportedMeans(l: Lane, answers: Answers, qs: Questions, ws: seq<Wire>)
    requires Reported(l, answers, qs, ws)
    ensures AnswersExactly(answers, qs) && answers.Keys == KeySet(EntryKeys(qs))
    ensures forall i :: 0 <= i < |qs| ==> Told(l, answers, qs[i], ws)
  {
    hide Told;
  }

  lemma IsReported(l: Lane, answers: Answers, qs: Questions, ws: seq<Wire>)
    requires AnswersExactly(answers, qs) && forall i :: 0 <= i < |qs| ==> Told(l, answers, qs[i], ws)
    ensures Reported(l, answers, qs, ws)
  {
    hide AnswersExactly, Told;
  }

  lemma EarlierIsTold(l: Lane, merged: Answers, more: Answers, q: Normalize.Entry, ws: seq<Wire>)
    requires Told(l, merged, q, ws) && q.key !in more
    ensures Told(l, merged + more, q, ws)
  {
    var j :| 0 <= j < |ws| && Tells(l, merged, q, ws[j].reply);
    SameAnswerTells(l, merged, more, q, ws[j].reply);
  }

  lemma LaterIsTold(l: Lane, merged: Answers, more: Answers, q: Normalize.Entry, ws: seq<Wire>)
    requires Told(l, more, q, ws)
    ensures Told(l, merged + more, q, ws)
  {
    var j :| 0 <= j < |ws| && Tells(l, more, q, ws[j].reply);
    LaterAnswerTells(l, merged, more, q, ws[j].reply);
  }

  lemma SameAnswerTells(l: Lane, merged: Answers, more: Answers, q: Normalize.Entry, reply: Option<Json>)
    requires Tells(l, merged, q, reply) && q.key !in more
    ensures Tells(l, merged + more, q, reply)
  {
    hide Conveys;
  }

  lemma LaterAnswerTells(l: Lane, merged: Answers, more: Answers, q: Normalize.Entry, reply: Option<Json>)
    requires Tells(l, more, q, reply)
    ensures Tells(l, merged + more, q, reply)
  {
    hide Conveys;
  }

  lemma KeyIsAt(qs: Questions, a: nat, b: nat, k: string) returns (j: nat)
    requires a <= b <= |qs| && k in KeySet(EntryKeys(qs[a..b]))
    ensures a <= j < b && EntryKeys(qs)[j] == k
  {
    var keys := EntryKeys(qs[a..b]);
    var i :| 0 <= i < |keys| && keys[i] == k;
    j := a + i;
  }

  lemma EarlierKeyIsNew(qs: Questions, i: nat, a: nat, b: nat)
    requires i < a <= b <= |qs| && Askable(qs)
    ensures qs[i].key !in KeySet(EntryKeys(qs[a..b]))
  {
    assert EntryKeys(qs)[i] == qs[i].key;
    if qs[i].key in KeySet(EntryKeys(qs[a..b])) {
      var j := KeyIsAt(qs, a, b, qs[i].key);
      assert false;
    }
  }

  lemma KeyOfPrefix(qs: Questions, a: nat, b: nat, k: string)
    requires a <= b <= |qs|
    ensures k in KeySet(EntryKeys(qs[..b])) <==>
      k in KeySet(EntryKeys(qs[..a])) || k in KeySet(EntryKeys(qs[a..b]))
  {
    var whole, left, right := EntryKeys(qs[..b]), EntryKeys(qs[..a]), EntryKeys(qs[a..b]);
    assert whole == left + right;
  }

  function Debits(ws: seq<Wire>): nat {
    if ws == [] then 0 else Debits(ws[..|ws| - 1]) + if ws[|ws| - 1].ticket == Debited then 1 else 0
  }

  /** A balanced account of a rate-limited lane spends one rate ticket per attempt sent, no more. */
  lemma {:induction false} OneTicketPerSend(ws: seq<Wire>, l: Lane, eval: bool)
    requires AllClosed(ws, l, eval)
    ensures Debits(ws) == if l.limited then Sends(ws) else 0
  {
    if ws != [] {
      OneTicketPerSend(ws[..|ws| - 1], l, eval);
    }
  }

  lemma {:induction false} SendsGrow(ws: seq<Wire>, i: nat)
    requires i <= |ws|
    ensures Sends(ws[..i]) <= Sends(ws)
    ensures i < |ws| && Sent(ws[i]) ==> Sends(ws[..i]) < Sends(ws)
  {
    if i < |ws| {
      SendsGrow(ws[..|ws| - 1], i);
      assert ws[..|ws| - 1][..i] == ws[..i];
    } else {
      assert ws[..i] == ws;
    }
  }

  /** The ordinals of the attempts sent are exactly 1 up to their number, each used once. */
  lemma {:induction false} EveryOrdinalOnce(ws: seq<Wire>, k: nat) returns (i: nat)
    requires Numbered(ws) && 1 <= k <= Sends(ws)
    ensures i < |ws| && ws[i].ordinal == Some(k)
    ensures forall j :: 0 <= j < |ws| && ws[j].ordinal == Some(k) ==> j == i
  {
    var n := |ws| - 1;
    assert ws[..n + 1] == ws;
    if k == Sends(ws) && Sent(ws[n]) {
      i := n;
      forall j | 0 <= j < n
        ensures ws[j].ordinal != Some(k)
      {
        SendsGrow(ws[..n], j + 1);
        assert ws[..n][..j + 1] == ws[..j + 1];
      }
    } else {
      forall j | 0 <= j < n
        ensures ws[..n][j] == ws[j] && ws[..n][..j + 1] == ws[..j + 1]
      {
      }
      i := EveryOrdinalOnce(ws[..n], k);
    }
  }

  lemma CallsSame(v: Wire, w: Wire)
    requires v.eval == w.eval && v.reservedUsd == w.reservedUsd
    ensures EvalCalls(v) == EvalCalls(w)
  {
  }

  lemma NoCalls(w: Wire)
    ensures w.eval == NoReserve ==> EvalCalls(w) == []
  {
  }

  lemma CallsAre(w: Wire)
    ensures w.eval == NoReserve ==> EvalCalls(w) == []
    ensures w.eval == Held ==> EvalCalls(w) == [SpendGuard.Reserve(w.reservedUsd)]
    ensures w.eval == Cancelled ==>
      EvalCalls(w) == [SpendGuard.Reserve(w.reservedUsd), SpendGuard.Cancel(w.reservedUsd)]
  {
  }

  lemma SettledMeans(sent: Wire, w: Wire, l: Lane, eval: bool, before: seq<SpendGuard.Call>)
    requires InFlight(sent, l, eval) && ClosedSent(w, l, eval) && w.reservedUsd == sent.reservedUsd
    ensures Closed(w, l, eval) && Sent(w) && (w.spend == Settled || w.spend == LeftCharged)
    ensures before + EvalCalls(sent) + EvalCloses(w) == before + EvalCalls(w)
  {
    CallsJoin(before, sent, w);
  }

  /** Opening a reserve and then closing it, after other calls. */
  lemma CallsJoin(before: seq<SpendGuard.Call>, open: Wire, w: Wire)
    requires open.eval == Held || (open.eval == NoReserve == w.eval)
    requires open.eval == Held ==> w.eval != NoReserve && w.reservedUsd == open.reservedUsd
    ensures before + EvalCalls(open) + EvalCloses(w) == before + EvalCalls(w)
  {
    assert EvalCalls(open) + EvalCloses(w) == EvalCalls(w);
  }

  lemma UnsentMeans(w: Wire, l: Lane, eval: bool)
    requires ClosedUnsent(w, eval)
    ensures Closed(w, l, eval) && !Sent(w) && !Invalid(w) && !Overran(w) && KnownCost(w) == 0.0
  {
  }

  // ----- The eval budget under a lane -----

  /** By how much a settled attempt exceeded its eval reserve. */
  function Excess(w: Wire): real {
    if w.eval.Committed? then MaxR(0.0, SpendGuard.CommittedUsd(w.reservedUsd, w.eval.cost) - w.reservedUsd) else 0.0
  }

  function CommittedTo(w: Wire): real {
    if w.eval.Committed? then SpendGuard.CommittedUsd(w.reservedUsd, w.eval.cost) else 0.0
  }

  function TotalExcess(ws: seq<Wire>): real {
    if ws == [] then 0.0 else TotalExcess(ws[..|ws| - 1]) + Excess(ws[|ws| - 1])
  }

  function TotalCommitted(ws: seq<Wire>): real {
    if ws == [] then 0.0 else TotalCommitted(ws[..|ws| - 1]) + CommittedTo(ws[|ws| - 1])
  }

  lemma AttemptReplays(w: Wire, l: Lane, eval: bool, b: SpendGuard.Books, limit: real)
    requires Closed(w, l, eval) && SpendGuard.Balanced(b, limit)
    requires SpendGuard.Accepted(b, EvalCalls(w), limit)
    ensures var d := SpendGuard.AfterAll(b, EvalCalls(w), limit);
      && SpendGuard.AllLegal(b, EvalCalls(w), limit)
      && d == SpendGuard.Books(b.settled + CommittedTo(w), b.inFlight, b.open, b.overrun + Excess(w))
  {
    assert w.reservedUsd >= 0.0 && w.eval != Held;
    hide Closed, SpendGuard.Balanced, SpendGuard.After, SpendGuard.Legal, SpendGuard.Admits;
    if w.eval == NoReserve {
      assert EvalCalls(w) == [];
    } else {
      var close := EvalCloses(w)[0];
      assert EvalCalls(w) == [SpendGuard.Reserve(w.reservedUsd), close];
      SpendGuard.TwoCalls(b, SpendGuard.Reserve(w.reservedUsd), close, limit);
      SpendGuard.ReserveThenClose(b, w.reservedUsd, close, limit);
    }
  }

  /**
   * A lane's account replays on the eval budget as legal calls that leave no reserve of its own
   * open. What is then committed is at most the limit and its slack plus the overruns: those
   * before the lane, and those of its own attempts that cost more than their reserves.
   */
  lemma {:induction false} LaneReplays(ws: seq<Wire>, l: Lane, eval: bool, b: SpendGuard.Books, limit: real)
    requires AllClosed(ws, l, eval) && SpendGuard.Balanced(b, limit)
    requires SpendGuard.Accepted(b, LaneCalls(ws), limit)
    ensures var d := SpendGuard.AfterAll(b, LaneCalls(ws), limit);
      && SpendGuard.AllLegal(b, LaneCalls(ws), limit) && SpendGuard.Balanced(d, limit)
      && d == SpendGuard.Books(b.settled + TotalCommitted(ws), b.inFlight, b.open, b.overrun + TotalExcess(ws))
      && d.settled + d.inFlight <= limit + SpendGuard.USD_EPSILON + b.overrun + TotalExcess(ws)
  {
    hide Closed, FollowsHeard, EvalCalls, CommittedTo, Excess, SpendGuard.After, SpendGuard.Legal, SpendGuard.Admits;
    if ws != [] {
      var n := |ws| - 1;
      var before, calls := LaneCalls(ws[..n]), EvalCalls(ws[n]);
      SpendGuard.AfterAllJoins(b, before, calls, limit);
      LaneReplays(ws[..n], l, eval, b, limit);
      AttemptReplays(ws[n], l, eval, SpendGuard.AfterAll(b, before, limit), limit);
      SpendGuard.AllLegalKeepsBalance(SpendGuard.AfterAll(b, before, limit), calls, limit);
    }
  }

  lemma ClosedAppend(ws: seq<Wire>, w: Wire, l: Lane, eval: bool)
    requires AllClosed(ws, l, eval) && Closed(w, l, eval) && FollowsHeard(w, l, eval)
    requires forall v :: v in ws ==> !Overran(v)
    ensures AllClosed(ws + [w], l, eval) && OverrunIsLast(ws + [w])
    ensures !Overran(w) ==> forall v :: v in ws + [w] ==> !Overran(v)
  {
    hide Closed, FollowsHeard, Overran;
    assert forall i :: 0 <= i < |ws| ==> ws[i] in ws;
  }

  lemma Appended(ws: seq<Wire>, w: Wire)
    ensures Sends(ws + [w]) == Sends(ws) + if Sent(w) then 1 else 0
    ensures InvalidCount(ws + [w]) == InvalidCount(ws) + if Invalid(w) then 1 else 0
    ensures TotalCost(ws + [w]) == TotalCost(ws) + KnownCost(w)
    ensures LaneCalls(ws + [w]) == LaneCalls(ws) + EvalCalls(w)
  {
    hide Sent, Invalid, KnownCost, EvalCalls;
    assert (ws + [w])[..|ws|] == ws;
  }

  lemma NumberedNext(ws: seq<Wire>, w: Wire)
    requires Numbered(ws) && (Sent(w) ==> w.ordinal == Some(Sends(ws) + 1))
    ensures Numbered(ws + [w])
  {
    Appended(ws, w);
    hide Sends;
    var all := ws + [w];
    forall i | 0 <= i < |all| && Sent(all[i])
      ensures all[i].ordinal == Some(Sends(all[..i + 1]))
    {
      if i < |ws| {
        assert all[i] == ws[i] && all[..i + 1] == ws[..i + 1];
      } else {
        assert all[..i + 1] == all;
      }
    }
  }
}
