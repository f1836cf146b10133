/**
 * The eval router's invocation budget: reserve before an attempt, then settle at the known cost,
 * keep the reserve when billing is uncertain, or cancel when nothing was sent.
 */
module SpendGuard {
  import opened Prelude

  const USD_EPSILON: real := 0.000000001

  // ----- Specification: every interleaving of attempts -----

  /** One call on the budget; settling or cancelling closes an open reserve of that amount. */
  datatype Call =
    | Reserve(amountUsd: real)
    | Settle(reservedUsd: real, actualUsd: Option<real>)
    | Cancel(reservedUsd: real)

  /** `open` holds the reserves still outstanding, `overrun` how much known costs exceeded theirs. */
  datatype Books = Books(settled: real, inFlight: real, open: seq<real>, overrun: real)

  /** The latest open reserve of this amount, or |open|; reserves of one amount are alike. */
  function Position(open: seq<real>, amountUsd: real): (i: nat)
    ensures i <= |open|
    ensures i < |open| ==> open[i] == amountUsd
    ensures i == |open| ==> amountUsd !in open
  {
    if open == [] then 0
    else
      var n := |open| - 1;
      if open[n] == amountUsd then n
      else
        var i := Position(open[..n], amountUsd);
        if i < n then i else assert open == open[..n] + [open[n]]; n + 1
  }

  function Closed(open: seq<real>, i: nat): seq<real> {
    if i < |open| then open[..i] + open[i + 1..] else open
  }

  /** A call the router makes: of a reserve that is not negative, or to close one that is open. */
  predicate Legal(b: Books, c: Call) {
    match c
    case Reserve(a) => a >= 0.0
    case Settle(r, _) => r in b.open
    case Cancel(r) => r in b.open
  }

  predicate Admits(b: Books, amountUsd: real, limit: real) {
    b.settled + b.inFlight + amountUsd <= limit + USD_EPSILON
  }

  /** What is committed for a settled attempt: its known cost, or its reserve. */
  function CommittedUsd(reservedUsd: real, actualUsd: Option<real>): real {
    if actualUsd.Some? then actualUsd.value else reservedUsd
  }

  function After(b: Books, c: Call, limit: real): Books {
    match c
    case Reserve(a) =>
      if Admits(b, a, limit) then b.(inFlight := b.inFlight + a, open := b.open + [a]) else b
    case Settle(r, actual) =>
      var cost := CommittedUsd(r, actual);
      Books(b.settled + cost, MaxR(0.0, b.inFlight - r), Closed(b.open, Position(b.open, r)),
            b.overrun + MaxR(0.0, cost - r))
    case Cancel(r) =>
      b.(inFlight := MaxR(0.0, b.inFlight - r), open := Closed(b.open, Position(b.open, r)))
  }

  // ----- The class -----

  class InvocationBudget {
    const limitUsd: real
    var settled: real
    var inFlight: real
    ghost var open: seq<real>
    ghost var overrun: real

    ghost function Abs(): Books
      reads this
    {
      Books(settled, inFlight, open, overrun)
    }

    constructor (limit: real)
      requires limit >= 0.0
      ensures limitUsd == limit && Abs() == EMPTY && settled == 0.0 == inFlight && open == [] && overrun == 0.0
    {
      limitUsd := limit;
      settled, inFlight, open, overrun := 0.0, 0.0, [], 0.0;
    }

    method TryReserve(amountUsd: real) returns (ok: bool)
      modifies this
      ensures ok <==> Admits(old(Abs()), amountUsd, limitUsd)
      ensures Abs() == After(old(Abs()), Reserve(amountUsd), limitUsd)
      ensures ok <==> old(settled) + old(inFlight) + amountUsd <= limitUsd + 0.000000001
      ensures settled == old(settled) && inFlight == old(inFlight) + if ok then amountUsd else 0.0
    {
      if settled + inFlight + amountUsd > limitUsd + USD_EPSILON {
        return false;
      }
      inFlight := inFlight + amountUsd;
      open := open + [amountUsd];
      ok := true;
    }

    method Settle(reservedUsd: real, actualUsd: Option<real>)
      modifies this
      ensures Abs() == After(old(Abs()), Call.Settle(reservedUsd, actualUsd), limitUsd)
      ensures settled == old(settled) + match actualUsd case Some(cost) => cost case None => reservedUsd
      ensures old(inFlight) >= reservedUsd ==> inFlight == old(inFlight) - reservedUsd
    {
      inFlight := MaxR(0.0, inFlight - reservedUsd);
      settled := settled + if actualUsd.Some? then actualUsd.value else reservedUsd;
      overrun := overrun + MaxR(0.0, CommittedUsd(reservedUsd, actualUsd) - reservedUsd);
      open := Closed(open, Position(open, reservedUsd));
    }

    method Cancel(reservedUsd: real)
      modifies this
      ensures Abs() == After(old(Abs()), Call.Cancel(reservedUsd), limitUsd)
      ensures settled == old(settled) && (old(inFlight) >= reservedUsd ==> inFlight == old(inFlight) - reservedUsd)
    {
      inFlight := MaxR(0.0, inFlight - reservedUsd);
      open := Closed(open, Position(open, reservedUsd));
    }
  }

  const EMPTY := Books(0.0, 0.0, [], 0.0)

  // ----- Over every run -----

  ghost predicate Replays(bs: seq<Books>, cs: seq<Call>, limit: real) {
    && |bs| == |cs| + 1 && bs[0] == EMPTY
    && (forall k :: 0 <= k < |cs| ==> Legal(bs[k], cs[k]) && bs[k + 1] == After(bs[k], cs[k], limit))
  }

  lemma SumAppend(xs: seq<real>, x: real)
    ensures Sum(xs + [x]) == Sum(xs) + x
  {
    assert (xs + [x])[..|xs|] == xs;
  }

  lemma ClosedSplit(xs: seq<real>, i: nat)
    requires i < |xs|
    ensures var n := |xs| - 1;
      && xs == xs[..n] + [xs[n]]
      && Closed(xs, i) == if i < n then Closed(xs[..n], i) + [xs[n]] else xs[..n]
  {
    var n := |xs| - 1;
    if i < n {
      assert xs[i + 1..] == xs[..n][i + 1..] + [xs[n]];
      assert xs[..i] == xs[..n][..i];
    } else {
      assert xs[i + 1..] == [];
    }
  }

  lemma {:induction false} SumWithout(xs: seq<real>, i: nat)
    requires i < |xs|
    ensures Sum(Closed(xs, i)) == Sum(xs) - xs[i]
  {
    hide Sum, Closed;
    var n := |xs| - 1;
    ClosedSplit(xs, i);
    SumAppend(xs[..n], xs[n]);
    if i < n {
      SumWithout(xs[..n], i);
      SumAppend(Closed(xs[..n], i), xs[n]);
    }
  }

  lemma {:induction false} SumNonNegative(xs: seq<real>)
    requires forall i :: 0 <= i < |xs| ==> xs[i] >= 0.0
    ensures Sum(xs) >= 0.0
  {
    if xs != [] {
      SumNonNegative(xs[..|xs| - 1]);
    }
  }

  /** The in-flight amount is the sum of the open reserves, and the limit holds up to overruns. */
  ghost predicate Balanced(b: Books, limit: real) {
    && b.inFlight == Sum(b.open)
    && b.settled + b.inFlight <= limit + USD_EPSILON + b.overrun
    && (forall i :: 0 <= i < |b.open| ==> b.open[i] >= 0.0)
    && b.overrun >= 0.0
  }

  lemma ReserveKeepsBalance(b: Books, amountUsd: real, limit: real)
    requires Balanced(b, limit) && amountUsd >= 0.0
    ensures Balanced(After(b, Reserve(amountUsd), limit), limit)
  {
    SumAppend(b.open, amountUsd);
    hide Sum;
  }

  lemma CloseKeepsBalance(b: Books, c: Call, limit: real)
    requires Balanced(b, limit) && Legal(b, c) && !c.Reserve?
    ensures Balanced(After(b, c, limit), limit)
  {
    var i := Position(b.open, c.reservedUsd);
    SumWithout(b.open, i);
    SumNonNegative(Closed(b.open, i));
    hide Sum;
  }

  /**
   * However attempts interleave, the in-flight amount is exactly the sum of the open reserves (the
   * clamp at zero never bites), and what is committed exceeds the limit by no more than the
   * overruns of settled attempts.
   */
  lemma {:induction false} NeverOvershoots(bs: seq<Books>, cs: seq<Call>, limit: real, k: nat)
    requires Replays(bs, cs, limit) && k <= |cs| && limit >= 0.0
    ensures Balanced(bs[k], limit)
    ensures bs[k].settled + bs[k].inFlight <= limit + 0.000000001 + bs[k].overrun
  {
    BalancedMeans(bs[k], limit);
    hide Balanced, After;
    if k == 0 {
      EmptyIsBalanced(limit);
    } else {
      NeverOvershoots(bs, cs, limit, k - 1);
      if cs[k - 1].Reserve? {
        ReserveKeepsBalance(bs[k - 1], cs[k - 1].amountUsd, limit);
      } else {
        CloseKeepsBalance(bs[k - 1], cs[k - 1], limit);
      }
    }
  }

  lemma BalancedMeans(b: Books, limit: real)
    ensures Balanced(b, limit) ==> b.settled + b.inFlight <= limit + 0.000000001 + b.overrun
  {
  }

  lemma EmptyIsBalanced(limit: real)
    requires limit >= 0.0
    ensures Balanced(EMPTY, limit)
  {
  }

  /** With every attempt closed nothing stays in flight: no reserve leaks. */
  lemma NothingLeaks(bs: seq<Books>, cs: seq<Call>, limit: real)
    requires Replays(bs, cs, limit) && limit >= 0.0 && bs[|cs|].open == []
    ensures bs[|cs|].inFlight == 0.0
  {
    NeverOvershoots(bs, cs, limit, |cs|);
  }

  // ----- Sequences of calls -----

  function AfterAll(b: Books, cs: seq<Call>, limit: real): Books {
    if cs == [] then b else After(AfterAll(b, cs[..|cs| - 1], limit), cs[|cs| - 1], limit)
  }

  predicate AllLegal(b: Books, cs: seq<Call>, limit: real) {
    cs == [] || (AllLegal(b, cs[..|cs| - 1], limit) && Legal(AfterAll(b, cs[..|cs| - 1], limit), cs[|cs| - 1]))
  }

  /** Every reserve among the calls was admitted. */
  predicate Accepted(b: Books, cs: seq<Call>, limit: real) {
    cs == [] ||
      (Accepted(b, cs[..|cs| - 1], limit)
       && (cs[|cs| - 1].Reserve? ==> Admits(AfterAll(b, cs[..|cs| - 1], limit), cs[|cs| - 1].amountUsd, limit)))
  }

  lemma {:induction false} AfterAllJoins(b: Books, xs: seq<Call>, ys: seq<Call>, limit: real)
    ensures AfterAll(b, xs + ys, limit) == AfterAll(AfterAll(b, xs, limit), ys, limit)
    ensures AllLegal(b, xs + ys, limit) <==> AllLegal(b, xs, limit) && AllLegal(AfterAll(b, xs, limit), ys, limit)
    ensures Accepted(b, xs + ys, limit) <==> Accepted(b, xs, limit) && Accepted(AfterAll(b, xs, limit), ys, limit)
  {
    hide After, Legal, Admits;
    if ys == [] {
      assert xs + ys == xs;
    } else {
      var n := |ys| - 1;
      AfterAllJoins(b, xs, ys[..n], limit);
      assert (xs + ys)[..|xs + ys| - 1] == xs + ys[..n];
    }
  }

  lemma {:induction false} AllLegalKeepsBalance(b: Books, cs: seq<Call>, limit: real)
    requires Balanced(b, limit) && AllLegal(b, cs, limit)
    ensures Balanced(AfterAll(b, cs, limit), limit)
  {
    hide Balanced, After;
    if cs != [] {
      var init := cs[..|cs| - 1];
      AllLegalKeepsBalance(b, init, limit);
      if cs[|cs| - 1].Reserve? {
        ReserveKeepsBalance(AfterAll(b, init, limit), cs[|cs| - 1].amountUsd, limit);
      } else {
        CloseKeepsBalance(AfterAll(b, init, limit), cs[|cs| - 1], limit);
      }
    }
  }

  lemma TwoCalls(b: Books, c: Call, d: Call, limit: real)
    ensures AfterAll(b, [c, d], limit) == After(After(b, c, limit), d, limit)
    ensures AllLegal(b, [c, d], limit) <==> Legal(b, c) && Legal(After(b, c, limit), d)
    ensures Accepted(b, [c, d], limit) ==> (c.Reserve? ==> Admits(b, c.amountUsd, limit))
  {
    hide After, Legal, Admits;
    AfterAllJoins(b, [c], [d], limit);
    OneCall(b, c, limit);
    OneCall(After(b, c, limit), d, limit);
    assert [c] + [d] == [c, d];
  }

  lemma OneCall(b: Books, c: Call, limit: real)
    ensures AfterAll(b, [c], limit) == After(b, c, limit)
    ensures AllLegal(b, [c], limit) <==> Legal(b, c)
    ensures Accepted(b, [c], limit) <==> (c.Reserve? ==> Admits(b, c.amountUsd, limit))
  {
    hide After, Legal, Admits;
    assert [c][..0] == [];
  }

  /** A reserve that is admitted and then closed leaves nothing but what was committed for it. */
  lemma ReserveThenClose(b: Books, amountUsd: real, c: Call, limit: real)
    requires Balanced(b, limit) && amountUsd >= 0.0 && Admits(b, amountUsd, limit)
    requires !c.Reserve? && c.reservedUsd == amountUsd
    ensures var r := After(b, Reserve(amountUsd), limit);
      && Legal(b, Reserve(amountUsd)) && Legal(r, c)
      && After(r, c, limit) ==
         if c.Cancel? then b
         else
           var cost := CommittedUsd(amountUsd, c.actualUsd);
           Books(b.settled + cost, b.inFlight, b.open, b.overrun + MaxR(0.0, cost - amountUsd))
  {
    var open := b.open + [amountUsd];
    assert open[|b.open|] == amountUsd && Position(open, amountUsd) == |b.open|;
    assert Closed(open, |b.open|) == b.open;
    SumNonNegative(b.open);
  }
}
