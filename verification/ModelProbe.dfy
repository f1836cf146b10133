/**
 * The stored model probes: one per model, a strictly newer one kept, only the newest few stored.
 * Recording the same probes in another order stores the same, although truncated probes are
 * forgotten along the way.
 */
module ModelProbe {
  import opened Prelude
  import opened TopK

  const ENGINE_MODEL_PROBES_MAX := 10
  const MODEL_PROBE_MAX_SKEW_MS := 60000

  datatype Probe = Probe(requested: string, at: int, ok: bool)

  function At(p: Probe): int { p.at }

  // ----- Specification -----

  /** A stored probe that outranks `p`; one too far ahead of the writer's clock does not. */
  predicate Outranks(q: Probe, p: Probe, now: int) {
    q.requested == p.requested && q.at > p.at && q.at <= now + MODEL_PROBE_MAX_SKEW_MS
  }

  function Merged(stored: set<Probe>, p: Probe, now: int): set<Probe> {
    if exists q :: q in stored && Outranks(q, p, now) then stored
    else (set q | q in stored && q.requested != p.requested) + {p}
  }

  /** `kept` holds as many of the newest of `all` as may be stored. */
  ghost predicate Truncated(all: set<Probe>, kept: set<Probe>) {
    && kept <= all && |kept| == MinI(ENGINE_MODEL_PROBES_MAX, |all|)
    && (forall x, y :: x in kept && y in all && y !in kept ==> x.at >= y.at)
  }

  // ----- The locked update -----

  ghost predicate WellKeyed(m: map<string, Probe>) {
    forall k :: k in m ==> m[k].requested == k
  }

  class ModelProbes {
    var entries: map<string, Probe>

    constructor ()
      ensures entries == map[]
    {
      entries := map[];
    }

    method Record(p: Probe, now: int)
      requires WellKeyed(entries)
      modifies this
      ensures WellKeyed(entries)
      ensures Truncated(Merged(old(entries.Values), p, now), entries.Values)
    {
      ghost var stored := entries;
      var keepPrevious := p.requested in entries && entries[p.requested].at > p.at
                          && entries[p.requested].at <= now + MODEL_PROBE_MAX_SKEW_MS;
      var merged := entries[p.requested := if keepPrevious then entries[p.requested] else p];
      MergedValues(stored, p, now, keepPrevious);
      entries := Newest(merged);
    }
  }

  lemma MergedValues(m: map<string, Probe>, p: Probe, now: int, keepPrevious: bool)
    requires WellKeyed(m)
    requires keepPrevious <==> p.requested in m && Outranks(m[p.requested], p, now)
    ensures m[p.requested := if keepPrevious then m[p.requested] else p].Values == Merged(m.Values, p, now)
    ensures WellKeyed(m[p.requested := if keepPrevious then m[p.requested] else p])
  {
    if keepPrevious {
      assert m[p.requested := m[p.requested]] == m;
    } else {
      var n := m[p.requested := p];
      assert forall q :: q in m.Values ==> q.requested in m && m[q.requested] == q;
      forall q
        ensures q in n.Values <==> q in Merged(m.Values, p, now)
      {
        if q in m.Values && q.requested != p.requested {
          assert n[q.requested] == q;
        }
        if q == p {
          assert n[p.requested] == p;
        }
      }
    }
  }

  /** The newest entries, by `at`, back in an object keyed by model. */
  method Newest(merged: map<string, Probe>) returns (newest: map<string, Probe>)
    requires WellKeyed(merged)
    ensures WellKeyed(newest) && Truncated(merged.Values, newest.Values)
  {
    hide Truncated;
    var kept := Cut(merged.Values);
    assert kept <= merged.Values by {
      CutIsSubset(merged.Values, kept);
    }
    newest := map p | p in kept :: p.requested := p;
    assert newest.Values == kept by {
      forall v
        ensures v in newest.Values <==> v in kept
      {
        if v in kept {
          assert newest[v.requested] == v;
        }
      }
    }
  }

  lemma CutIsSubset(all: set<Probe>, kept: set<Probe>)
    requires Truncated(all, kept)
    ensures kept <= all
  {
  }

  /** The newest first, one by one, until enough are taken or none is left. */
  method Cut(all: set<Probe>) returns (kept: set<Probe>)
    ensures Truncated(all, kept)
  {
    kept := {};
    var rest := all;
    while |kept| < ENGINE_MODEL_PROBES_MAX && rest != {}
      invariant kept !! rest && kept + rest == all && |kept| <= ENGINE_MODEL_PROBES_MAX
      invariant forall x, y :: x in kept && y in rest ==> x.at >= y.at
      decreases |rest|
    {
      var p := NewestOf(rest);
      kept := kept + {p};
      rest := rest - {p};
    }
    assert |all| == |kept| + |rest|;
  }

  method NewestOf(all: set<Probe>) returns (p: Probe)
    requires all != {}
    ensures p in all && forall q :: q in all ==> q.at <= p.at
  {
    NewestExists(all);
    p :| p in all && forall q :: q in all ==> q.at <= p.at;
  }

  function Age(p: Probe): int { -p.at }

  lemma NewestExists(all: set<Probe>)
    requires all != {}
    ensures exists p :: p in all && forall q :: q in all ==> q.at <= p.at
  {
    var p := LeastExists(all, Age);
    assert forall q :: q in all ==> Age(p) <= Age(q);
  }

  // ----- Any order of recording -----

  /** Of the probes recorded, the newest of each model. */
  function NewestPerModel(all: set<Probe>): set<Probe> {
    set p | p in all && forall q :: q in all && q.requested == p.requested ==> q.at <= p.at
  }

  ghost predicate DistinctTimes(all: set<Probe>) {
    forall p, q :: p in all && q in all && p.at == q.at ==> p == q
  }

  /** `kept` is the newest of `all`, as many as may be stored, said of single elements. */
  ghost predicate IsNewest(kept: set<Probe>, all: set<Probe>) {
    && kept <= all && |kept| <= ENGINE_MODEL_PROBES_MAX
    && (forall x :: x in all && x !in kept ==> |kept| == ENGINE_MODEL_PROBES_MAX)
    && (forall x, y :: x in all && x !in kept && y in kept ==> y.at > x.at)
  }

  lemma NewestIsTop(kept: set<Probe>, all: set<Probe>)
    requires IsNewest(kept, all) && DistinctTimes(all)
    ensures kept == Top(all, ENGINE_MODEL_PROBES_MAX, At)
  {
    forall x | x in all
      ensures x in kept <==> x in Top(all, ENGINE_MODEL_PROBES_MAX, At)
    {
      if x in kept {
        SubsetCardinality(Above(all, At, x), kept - {x});
      } else {
        SubsetCardinality(kept, Above(all, At, x));
      }
    }
  }

  lemma FirstOfModel(all: set<Probe>, p: Probe)
    requires forall r :: r in all ==> r.requested != p.requested
    ensures NewestPerModel(all + {p}) == NewestPerModel(all) + {p}
  {
  }

  lemma OlderOfModel(all: set<Probe>, p: Probe, best: Probe)
    requires best in all && best.requested == p.requested && best.at > p.at
    ensures NewestPerModel(all + {p}) == NewestPerModel(all)
  {
    forall r | r in NewestPerModel(all)
      ensures r in NewestPerModel(all + {p})
    {
      assert best.requested == r.requested ==> best.at <= r.at;
    }
  }

  lemma NewerOfModel(all: set<Probe>, p: Probe, best: Probe)
    requires best in all && best.requested == p.requested && best.at < p.at && p !in all
    requires forall r :: r in all && r.requested == p.requested ==> r.at <= best.at && (r.at == best.at ==> r == best)
    ensures NewestPerModel(all + {p}) == NewestPerModel(all) - {best} + {p}
  {
    forall r | r in NewestPerModel(all + {p})
      ensures r in NewestPerModel(all) - {best} + {p}
    {
    }
    forall r | r in NewestPerModel(all) - {best} + {p}
      ensures r in NewestPerModel(all + {p})
    {
      if r != p {
        assert r.requested == p.requested ==> best.at <= r.at;
      }
    }
  }

  lemma BestOfModel(all: set<Probe>, p: Probe, best: Probe)
    requires best in all && best.requested == p.requested
    requires forall r :: r in all && r.requested == p.requested ==> r.at <= best.at && (r.at == best.at ==> r == best)
    ensures best in NewestPerModel(all)
    ensures forall r :: r in NewestPerModel(all) && r.requested == p.requested ==> r == best
  {
  }

  /** The probe of a model known so far that a new one of that model competes with. */
  lemma Rival(all: set<Probe>, p: Probe) returns (q: Option<Probe>)
    requires p !in all && DistinctTimes(all + {p})
    ensures q.Some? ==>
      q.value in NewestPerModel(all) && q.value.requested == p.requested && q.value.at != p.at
    ensures NewestPerModel(all + {p}) ==
      if q.None? then NewestPerModel(all) + {p}
      else if q.value.at > p.at then NewestPerModel(all)
      else NewestPerModel(all) - {q.value} + {p}
    ensures q.None? ==> forall r :: r in NewestPerModel(all) ==> r.requested != p.requested
    ensures q.Some? ==> forall r :: r in NewestPerModel(all) && r.requested == p.requested ==> r == q.value
  {
    assert NewestPerModel(all) <= all;
    hide NewestPerModel;
    var same := set r | r in all && r.requested == p.requested;
    assert forall r :: r in all && r.requested == p.requested ==> r in same;
    if same == {} {
      q := None;
      FirstOfModel(all, p);
    } else {
      var best := LeastExists(same, Age);
      assert forall r :: r in same ==> Age(best) <= Age(r);
      q := Some(best);
      BestOfModel(all, p, best);
      if best.at > p.at {
        OlderOfModel(all, p, best);
      } else {
        NewerOfModel(all, p, best);
      }
    }
  }

  /** A newer stored probe of the model is passed over for being too far ahead of the clock. */
  predicate PassesOver(stored: set<Probe>, p: Probe, now: int) {
    exists q :: q in stored && q.requested == p.requested && q.at > p.at && q.at > now + MODEL_PROBE_MAX_SKEW_MS
  }

  /**
   * Recording one more probe keeps the newest of everything recorded exactly when no newer stored
   * probe of its model is passed over.
   */
  lemma RecordKeepsNewest(stored: set<Probe>, all: set<Probe>, p: Probe, now: int, next: set<Probe>)
    requires IsNewest(stored, NewestPerModel(all)) && p !in all && DistinctTimes(all + {p})
    requires Truncated(Merged(stored, p, now), next)
    ensures IsNewest(next, NewestPerModel(all + {p})) <==> !PassesOver(stored, p, now)
  {
    var q := Rival(all, p);
    var known, after := NewestPerModel(all), NewestPerModel(all + {p});
    assert known <= all;
    assert forall x :: x in known ==> x.at != p.at;
    hide NewestPerModel, Merged, IsNewest;
    NewestIsSubset(stored, known);
    if q.Some? && q.value in stored {
      assert PassesOver(stored, p, now) <==>
        q.value.at > p.at && q.value.at > now + MODEL_PROBE_MAX_SKEW_MS;
      ReplaceRival(stored, known, p, q.value, now, Merged(stored, p, now));
      SameSizeSubset(next, Merged(stored, p, now));
      if PassesOver(stored, p, now) {
        OlderIsNotNewest(next, after, p, q.value);
      } else {
        ReplacedIsNewest(stored, known, p, q.value, next);
      }
    } else {
      assert !PassesOver(stored, p, now);
      NoRivalStored(stored, known, p, now, q);
      if |stored| < ENGINE_MODEL_PROBES_MAX {
        SameSizeSubset(next, stored + {p});
        AddedIsNewest(stored, known, p, q);
      } else {
        var d := OneDropped(stored + {p}, next);
        DroppedIsNewest(stored, known, p, q, next, d, after);
      }
    }
  }

  lemma OlderIsNotNewest(next: set<Probe>, after: set<Probe>, p: Probe, q: Probe)
    requires p in next && q !in next && q in after && q.at > p.at
    ensures !IsNewest(next, after)
  {
  }

  lemma NewestIsSubset(kept: set<Probe>, all: set<Probe>)
    requires IsNewest(kept, all)
    ensures kept <= all && |kept| <= ENGINE_MODEL_PROBES_MAX
  {
  }

  lemma ReplacedIsNewest(stored: set<Probe>, known: set<Probe>, p: Probe, q: Probe, next: set<Probe>)
    requires IsNewest(stored, known) && q in stored && p !in known && |next| == |stored|
    requires next == if q.at > p.at then stored else stored - {q} + {p}
    ensures IsNewest(next, if q.at > p.at then known else known - {q} + {p})
  {
  }

  lemma AddedIsNewest(stored: set<Probe>, known: set<Probe>, p: Probe, q: Option<Probe>)
    requires IsNewest(stored, known) && |stored| < ENGINE_MODEL_PROBES_MAX && p !in known
    requires q.Some? ==> q.value in known && q.value !in stored
    ensures q.None? && IsNewest(stored + {p}, known + {p})
  {
  }

  lemma DroppedIsNewest(stored: set<Probe>, known: set<Probe>, p: Probe, q: Option<Probe>,
                        next: set<Probe>, d: Probe, after: set<Probe>)
    requires IsNewest(stored, known) && |stored| == ENGINE_MODEL_PROBES_MAX == |next|
    requires p !in known && (forall x :: x in known ==> x.at != p.at)
    requires forall x, y :: x in known && y in known && x.at == y.at ==> x == y
    requires q.Some? ==> q.value in known && q.value !in stored
    requires after == if q.None? then known + {p} else if q.value.at > p.at then known else known - {q.value} + {p}
    requires d !in next && stored + {p} == next + {d} && forall x :: x in next ==> x.at >= d.at
    ensures IsNewest(next, after)
  {
    assert forall x :: x in next ==> x in stored || x == p;
    assert forall x :: x in stored || x == p ==> x in next || x == d;
    if q.Some? && q.value.at > p.at && p in next {
      assert false;
    }
  }

  lemma ReplaceRival(stored: set<Probe>, known: set<Probe>, p: Probe, q: Probe, now: int, merged: set<Probe>)
    requires stored <= known && q in stored && q.requested == p.requested && q.at != p.at && p !in known
    requires forall r :: r in known && r.requested == p.requested ==> r == q
    requires merged == Merged(stored, p, now)
    ensures merged == if q.at > p.at && q.at <= now + MODEL_PROBE_MAX_SKEW_MS then stored else stored - {q} + {p}
    ensures |merged| == |stored|
  {
    if q.at > p.at && q.at <= now + MODEL_PROBE_MAX_SKEW_MS {
      assert Outranks(q, p, now);
    } else {
      assert (set r | r in stored && r.requested != p.requested) == stored - {q};
    }
  }

  lemma NoRivalStored(stored: set<Probe>, known: set<Probe>, p: Probe, now: int, q: Option<Probe>)
    requires stored <= known && p !in known && (q.Some? ==> q.value !in stored)
    requires forall r :: r in known && r.requested == p.requested ==> q == Some(r)
    ensures Merged(stored, p, now) == stored + {p} && |stored + {p}| == |stored| + 1
  {
    assert (set r | r in stored && r.requested != p.requested) == stored;
  }

  lemma OneDropped(all: set<Probe>, kept: set<Probe>) returns (d: Probe)
    requires kept <= all && |all| == |kept| + 1
    ensures d in all && d !in kept && all == kept + {d}
  {
    assert all == kept + (all - kept);
    d :| d in all - kept;
    assert all - kept == {d} by {
      assert all - kept == {d} + (all - kept - {d});
    }
  }

  /** The probes of a run, each with the clock of the process that recorded it. */
  datatype Recording = Recording(probe: Probe, now: int)

  function Probes(rs: seq<Recording>): set<Probe> {
    set r | r in rs :: r.probe
  }

  ghost predicate Runs(stores: seq<set<Probe>>, rs: seq<Recording>) {
    && |stores| == |rs| + 1 && stores[0] == {}
    && (forall i :: 0 <= i < |rs| ==> Truncated(Merged(stores[i], rs[i].probe, rs[i].now), stores[i + 1]))
  }

  ghost predicate DistinctStamps(rs: seq<Recording>) {
    forall i, j :: 0 <= i < j < |rs| ==> rs[i].probe.at != rs[j].probe.at
  }

  /**
   * Pairwise distinct times, and no probe ahead of a clock that compares it: that of a later, older
   * probe of its model.
   */
  ghost predicate Orderly(rs: seq<Recording>) {
    && DistinctStamps(rs)
    && (forall i, j :: 0 <= i < j < |rs| && rs[i].probe.requested == rs[j].probe.requested
                       && rs[i].probe.at > rs[j].probe.at ==>
          rs[i].probe.at <= rs[j].now + MODEL_PROBE_MAX_SKEW_MS)
  }

  lemma StoreGrowsByOne(stores: seq<set<Probe>>, rs: seq<Recording>, k: nat)
    requires Runs(stores, rs) && DistinctStamps(rs) && k < |rs|
    requires IsNewest(stores[k], NewestPerModel(Probes(rs[..k]))) && DistinctTimes(Probes(rs[..k]))
    ensures DistinctTimes(Probes(rs[..k + 1]))
    ensures IsNewest(stores[k + 1], NewestPerModel(Probes(rs[..k + 1]))) <==>
      !PassesOver(stores[k], rs[k].probe, rs[k].now)
  {
    var all, r := Probes(rs[..k]), rs[k];
    assert rs[..k + 1] == rs[..k] + [r];
    forall q | q in all
      ensures q.at != r.probe.at
    {
      var s :| s in rs[..k] && s.probe == q;
    }
    assert Probes(rs[..k + 1]) == all + {r.probe};
    hide Probes, NewestPerModel, Merged, Truncated, IsNewest, DistinctStamps, PassesOver;
    assert Truncated(Merged(stores[k], r.probe, r.now), stores[k + 1]);
    RecordKeepsNewest(stores[k], all, r.probe, r.now, stores[k + 1]);
  }

  /**
   * Over any run with distinct times, the store is always the newest of the per-model newest
   * exactly when no recording passes a newer stored probe of its model over.
   */
  lemma StoreIsNewestExactly(stores: seq<set<Probe>>, rs: seq<Recording>)
    requires Runs(stores, rs) && DistinctStamps(rs)
    ensures (forall k :: 0 <= k <= |rs| ==> IsNewest(stores[k], NewestPerModel(Probes(rs[..k])))) <==>
      (forall k :: 0 <= k < |rs| ==> !PassesOver(stores[k], rs[k].probe, rs[k].now))
  {
    assert |stores| == |rs| + 1;
    hide IsNewest, NewestPerModel, PassesOver, DistinctStamps, Runs;
    if forall k :: 0 <= k < |rs| ==> !PassesOver(stores[k], rs[k].probe, rs[k].now) {
      forall k | 0 <= k <= |rs|
        ensures IsNewest(stores[k], NewestPerModel(Probes(rs[..k])))
      {
        StoreIsNewest(stores, rs, k);
      }
    } else {
      var k :| 0 <= k < |rs| && PassesOver(stores[k], rs[k].probe, rs[k].now);
      TimesStayDistinct(rs, k);
      if IsNewest(stores[k], NewestPerModel(Probes(rs[..k]))) {
        StoreGrowsByOne(stores, rs, k);
        assert !IsNewest(stores[k + 1], NewestPerModel(Probes(rs[..k + 1])));
      }
    }
  }

  lemma TimesStayDistinct(rs: seq<Recording>, k: nat)
    requires DistinctStamps(rs) && k <= |rs|
    ensures DistinctTimes(Probes(rs[..k]))
  {
    forall p, q | p in Probes(rs[..k]) && q in Probes(rs[..k]) && p.at == q.at
      ensures p == q
    {
      var i :| 0 <= i < k && rs[i].probe == p;
      var j :| 0 <= j < k && rs[j].probe == q;
      if i != j {
        assert false;
      }
    }
  }

  lemma {:induction false} StoreIsNewest(stores: seq<set<Probe>>, rs: seq<Recording>, k: nat)
    requires Runs(stores, rs) && DistinctStamps(rs) && k <= |rs|
    requires forall i :: 0 <= i < k ==> !PassesOver(stores[i], rs[i].probe, rs[i].now)
    ensures IsNewest(stores[k], NewestPerModel(Probes(rs[..k]))) && DistinctTimes(Probes(rs[..k]))
  {
    if k == 0 {
      assert Probes(rs[..0]) == {};
    } else {
      hide IsNewest, NewestPerModel, PassesOver, DistinctStamps, Probes, DistinctTimes;
      StoreIsNewest(stores, rs, k - 1);
      StoreGrowsByOne(stores, rs, k - 1);
    }
  }

  /** What is stored was recorded before. */
  lemma {:induction false} StoredWasRecorded(stores: seq<set<Probe>>, rs: seq<Recording>, k: nat, q: Probe)
    requires Runs(stores, rs) && k <= |rs| && q in stores[k]
    ensures exists i :: 0 <= i < k && rs[i].probe == q
  {
    if k > 0 {
      assert Truncated(Merged(stores[k - 1], rs[k - 1].probe, rs[k - 1].now), stores[k]);
      if q != rs[k - 1].probe {
        StoredWasRecorded(stores, rs, k - 1, q);
      }
    }
  }

  /** Orderly input never leads to a probe passed over. */
  lemma OrderlyPassesNoneOver(stores: seq<set<Probe>>, rs: seq<Recording>)
    requires Runs(stores, rs) && Orderly(rs)
    ensures forall k :: 0 <= k < |rs| ==> !PassesOver(stores[k], rs[k].probe, rs[k].now)
  {
    forall k | 0 <= k < |rs|
      ensures !PassesOver(stores[k], rs[k].probe, rs[k].now)
    {
      hide Runs;
      forall q | q in stores[k] && q.requested == rs[k].probe.requested && q.at > rs[k].probe.at
        ensures q.at <= rs[k].now + MODEL_PROBE_MAX_SKEW_MS
      {
        StoredWasRecorded(stores, rs, k, q);
        var i :| 0 <= i < k && rs[i].probe == q;
      }
    }
  }

  /** Whatever the order of recording, the store ends with the newest of the per-model newest. */
  lemma StoreIsOrderIndependent(stores: seq<set<Probe>>, rs: seq<Recording>)
    requires Runs(stores, rs) && Orderly(rs)
    ensures stores[|rs|] == Top(NewestPerModel(Probes(rs)), 10, At)
  {
    OrderlyPassesNoneOver(stores, rs);
    StoreIsNewest(stores, rs, |rs|);
    assert rs[..|rs|] == rs;
    NewestIsTop(stores[|rs|], NewestPerModel(Probes(rs)));
  }

  /** Two runs that record the same probes, in whatever order, end with the same store. */
  lemma AnyOrderStoresTheSame(
    stores: seq<set<Probe>>, rs: seq<Recording>, stores2: seq<set<Probe>>, rs2: seq<Recording>)
    requires Runs(stores, rs) && Orderly(rs) && Runs(stores2, rs2) && Orderly(rs2)
    requires Probes(rs) == Probes(rs2)
    ensures stores[|rs|] == stores2[|rs2|]
  {
    StoreIsOrderIndependent(stores, rs);
    StoreIsOrderIndependent(stores2, rs2);
  }

  /**
   * Two probes of one model: the order of recording decides exactly when the newer one is beyond
   * the skew of the clock that records the older one second.
   */
  lemma PairOrderMattersExactly(a: Probe, b: Probe, n1: int, n2: int, n3: int, n4: int)
    requires a.requested == b.requested && a.at < b.at
    ensures Merged(Merged({}, b, n1), a, n2) == Merged(Merged({}, a, n3), b, n4) <==>
      b.at <= n2 + 60000
  {
    assert Merged({}, a, n3) == {a} && Merged({}, b, n1) == {b};
    assert Merged({a}, b, n4) == {b};
    if b.at <= n2 + MODEL_PROBE_MAX_SKEW_MS {
      assert Outranks(b, a, n2);
    } else {
      assert Merged({b}, a, n2) == {a};
    }
  }

  /** A probe stamped beyond the tolerated skew: here the order of recording decides. */
  lemma FutureStampsDependOnOrder(now: int)
    ensures var early, late := Probe("m", now, true), Probe("m", now + MODEL_PROBE_MAX_SKEW_MS + 1, true);
      && Merged(Merged({}, late, now), early, now) == {early}
      && Merged(Merged({}, early, now), late, now) == {late}
  {
    var early, late := Probe("m", now, true), Probe("m", now + MODEL_PROBE_MAX_SKEW_MS + 1, true);
    assert Merged({}, late, now) == {late} && Merged({}, early, now) == {early};
  }
}
