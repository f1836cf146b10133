/**
 * The queue discipline shared by the semaphore and the rate limiter: waiters are served by
 * (key, arrival number), where a bulk waiter's key is its arrival time plus the aging allowance.
 */
module WaiterQueue {

  datatype Priority = Interactive | Bulk

  datatype Waiter<T> = Waiter(key: real, seqNo: nat, item: T)

  function WaiterOrderKey(priority: Priority, enqueuedAt: real, agingMs: real): real {
    enqueuedAt + if priority == Bulk then agingMs else 0.0
  }

  /** `a` is served before `b`. */
  predicate Before<T>(a: Waiter<T>, b: Waiter<T>) {
    a.key < b.key || (a.key == b.key && a.seqNo < b.seqNo)
  }

  /**
   * Who goes first, by class and time of arrival: an interactive waiter precedes a bulk one unless
   * that one has waited the whole aging allowance longer; within a class it is first come, first
   * served.
   */
  lemma ServiceOrder<T>(
    v: Waiter<T>, w: Waiter<T>, vPriority: Priority, vAt: real, wPriority: Priority, wAt: real, agingMs: real)
    requires v.key == WaiterOrderKey(vPriority, vAt, agingMs) && w.key == WaiterOrderKey(wPriority, wAt, agingMs)
    ensures vPriority == Interactive && wPriority == Bulk ==>
      && (Before(v, w) <==> vAt < wAt + agingMs || (vAt == wAt + agingMs && v.seqNo < w.seqNo))
      && (Before(w, v) <==> wAt + agingMs < vAt || (vAt == wAt + agingMs && w.seqNo < v.seqNo))
    ensures vPriority == wPriority ==> (Before(v, w) <==> vAt < wAt || (vAt == wAt && v.seqNo < w.seqNo))
  {
  }

  /** Arrival numbers increase along the queue and were all handed out already. */
  ghost predicate Arrivals<T>(q: seq<Waiter<T>>, last: nat) {
    && (forall i, j :: 0 <= i < j < |q| ==> q[i].seqNo < q[j].seqNo)
    && (forall i :: 0 <= i < |q| ==> q[i].seqNo <= last)
  }

  /** The position served next. */
  function HeadIndex<T>(q: seq<Waiter<T>>): (best: nat)
    requires q != []
    ensures best < |q|
  {
    if |q| == 1 then 0
    else
      var b := HeadIndex(q[..|q| - 1]);
      if Before(q[|q| - 1], q[b]) then |q| - 1 else b
  }

  lemma {:induction false} HeadIsFirst<T>(q: seq<Waiter<T>>, last: nat)
    requires q != [] && Arrivals(q, last)
    ensures forall i :: 0 <= i < |q| && i != HeadIndex(q) ==> Before(q[HeadIndex(q)], q[i])
  {
    if |q| > 1 {
      HeadIsFirst(q[..|q| - 1], last);
    }
  }

  method FindHead<T>(q: seq<Waiter<T>>) returns (best: nat)
    requires q != []
    ensures best == HeadIndex(q)
  {
    best := 0;
    var i := 1;
    while i < |q|
      invariant 1 <= i <= |q|
      invariant best == HeadIndex(q[..i])
    {
      assert q[..i + 1][..i] == q[..i];
      if Before(q[i], q[best]) {
        best := i;
      }
      i := i + 1;
    }
    assert q[..i] == q;
  }

  function Without<T>(q: seq<T>, i: nat): seq<T>
    requires i < |q|
  {
    q[..i] + q[i + 1..]
  }

  lemma WithoutKeepsArrivals<T>(q: seq<Waiter<T>>, i: nat, last: nat)
    requires i < |q| && Arrivals(q, last)
    ensures Arrivals(Without(q, i), last)
    ensures forall w :: w in Without(q, i) <==> w in q && w != q[i]
  {
    var r := Without(q, i);
    forall w | w in q && w != q[i] ensures w in r {
      var j :| 0 <= j < |q| && q[j] == w;
      assert r[if j < i then j else j - 1] == w;
    }
    assert forall j :: 0 <= j < |r| ==> r[j] == q[if j < i then j else j + 1];
  }

  /** Where the waiter numbered `seqNo` stands, or |q| when it has left. */
  function Find<T>(q: seq<Waiter<T>>, seqNo: nat): (i: nat)
    ensures i <= |q|
    ensures i < |q| ==> q[i].seqNo == seqNo
    ensures i == |q| ==> forall j :: 0 <= j < |q| ==> q[j].seqNo != seqNo
  {
    if q == [] then 0
    else if q[0].seqNo == seqNo then 0
    else 1 + Find(q[1..], seqNo)
  }

  method FindWaiter<T>(q: seq<Waiter<T>>, seqNo: nat) returns (i: nat)
    ensures i == Find(q, seqNo)
  {
    i := 0;
    while i < |q| && q[i].seqNo != seqNo
      invariant i <= |q|
      invariant Find(q, seqNo) == i + Find(q[i..], seqNo)
    {
      i := i + 1;
    }
  }
}
