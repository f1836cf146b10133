/**
 * The bucket of backups and its pruning: one object deleted at a time, so that a crash between any
 * two deletions leaves every backup either whole or plainly not restorable.
 */
module BackupStore {
  import opened Prelude
  import opened Calendar
  import opened Retention

  /** A key of the bucket: a part of a backup, a deletion-ledger copy, or anything else. */
  datatype Key = Part(id: Id, name: string) | LedgerCopy(id: Id) | Other(key: string)

  const MANIFEST_NAME := "manifest.age"
  const TESTED_NAME := "restore-tested.json"
  const FAILED_NAME := "backup-failed"

  function NamesOf(objects: set<Key>, id: Id): set<string> {
    set k | k in objects && k.Part? && k.id == id :: k.name
  }

  /** Offered for a restore: a listed backup with its manifest and no failure marker. */
  predicate IsValid(objects: set<Key>, id: Id) {
    ValidId(id) && Part(id, MANIFEST_NAME) in objects && Part(id, FAILED_NAME) !in objects
  }

  function Listed(objects: set<Key>): set<Id> {
    set k | k in objects && k.Part? && ValidId(k.id) :: k.id
  }

  function ValidIds(objects: set<Key>): (ids: set<Id>)
    ensures forall id :: id in ids <==> IsValid(objects, id)
  {
    var ids := set id | id in Listed(objects) && IsValid(objects, id);
    assert forall id :: IsValid(objects, id) ==> Part(id, MANIFEST_NAME) in objects && id in Listed(objects);
    ids
  }

  function TestedIds(objects: set<Key>): set<Id> {
    set id | id in ValidIds(objects) && Part(id, TESTED_NAME) in objects
  }

  function Kept(objects: set<Key>, now: int): set<Id> {
    Keep(ValidIds(objects), TestedIds(objects), now).Keys
  }

  /** Valid backups the plan drops, and incomplete ones past their grace. */
  predicate Doomed(objects: set<Key>, now: int, id: Id) {
    id in Listed(objects) &&
    if IsValid(objects, id) then id !in Kept(objects, now) else FailedExpired(id, now)
  }

  /** A ledger copy no retained backup could need, past its retention. */
  predicate LedgerDoomed(objects: set<Key>, now: int, id: Id) {
    Kept(objects, now) != {} && (forall k :: k in Kept(objects, now) ==> id < k) && LedgerExpired(id, now)
  }

  predicate Goes(objects: set<Key>, now: int, k: Key) {
    match k
    case Part(id, _) => Doomed(objects, now, id)
    case LedgerCopy(id) => LedgerDoomed(objects, now, id)
    case Other(_) => false
  }

  /** Whole backups: a proper id, the manifest there, no failure marker. */
  predicate Whole(objects: set<Key>, id: Id) {
    ValidId(id) && Part(id, "manifest.age") in objects && Part(id, "backup-failed") !in objects
  }

  /** What a prune keeps: the whole backups that have a reason among the whole ones. */
  lemma KeptAre(objects: set<Key>, now: int, id: Id)
    ensures id in ValidIds(objects) <==> Whole(objects, id)
    ensures id in TestedIds(objects) <==> Whole(objects, id) && Part(id, "restore-tested.json") in objects
    ensures id in Kept(objects, now) <==>
      Whole(objects, id) && Reasons(ValidIds(objects), TestedIds(objects), now, id) != {}
  {
    hide Reasons, ValidId;
  }

  /**
   * What a prune removes: the objects of whole backups without a reason, those of incomplete ones
   * after two days, and the ledger copies older than every backup kept after 193 days, if any is.
   */
  lemma GoesAre(objects: set<Key>, now: int, k: Key)
    requires k in objects
    ensures Goes(objects, now, k) <==>
      match k
      case Part(id, _) =>
        if Whole(objects, id) then id !in Kept(objects, now)
        else ValidId(id) && now - Time(id) > 2 * 86400000
      case LedgerCopy(id) =>
        && Kept(objects, now) != {} && (forall x :: x in Kept(objects, now) ==> id < x)
        && ValidId(id) && now - Time(id) > 193 * 86400000
      case Other(_) => false
  {
    hide Kept, Time, ValidId;
  }

  ghost predicate IsLatest(objects: set<Key>, id: Id) {
    IsValid(objects, id) && forall x: Id :: IsValid(objects, x) ==> x <= id
  }

  /** What holds after any number of deletions, wherever the process stopped. */
  ghost predicate CrashSafe(before: set<Key>, after: set<Key>, now: int) {
    && after <= before
    && (forall id :: IsValid(after, id) ==> IsValid(before, id) && NamesOf(after, id) == NamesOf(before, id))
    && (forall id :: IsLatest(after, id) <==> IsLatest(before, id))
    && (forall id :: id in Kept(before, now) ==> IsValid(after, id))
    && (forall l :: LedgerCopy(l) in before && LedgerNeeded(before, now, l) ==> LedgerCopy(l) in after)
  }

  /** Some retained backup is no newer than the copy, or no backup is left to tell. */
  predicate LedgerNeeded(objects: set<Key>, now: int, l: Id) {
    Kept(objects, now) == {} || exists k :: k in Kept(objects, now) && k <= l
  }

  /** Deletions only of what goes, each backup's manifest before its other parts. */
  ghost predicate InOrder(before: set<Key>, after: set<Key>, now: int) {
    && after <= before
    && (forall k :: k in before && k !in after ==> Goes(before, now, k))
    && (forall k :: k in before && k !in after && k.Part? ==> Part(k.id, MANIFEST_NAME) !in after)
  }

  lemma ValidMeansUntouched(before: set<Key>, after: set<Key>, now: int, id: Id)
    requires InOrder(before, after, now) && IsValid(after, id)
    ensures IsValid(before, id) && NamesOf(after, id) == NamesOf(before, id)
  {
    hide Goes;
    forall k | k in before && k.Part? && k.id == id
      ensures k in after
    {
    }
  }

  lemma KeptStay(before: set<Key>, after: set<Key>, now: int, id: Id)
    requires InOrder(before, after, now) && id in Kept(before, now)
    ensures IsValid(after, id)
  {
    hide Keep;
    assert id in ValidIds(before);
    assert !Goes(before, now, Part(id, MANIFEST_NAME));
  }

  lemma LatestIsKept(before: set<Key>, now: int, id: Id)
    requires IsLatest(before, id)
    ensures id in Kept(before, now)
  {
    hide Keep, IsValid;
    NewestIsKept(ValidIds(before), TestedIds(before), now, id);
  }

  lemma LatestStays(before: set<Key>, after: set<Key>, now: int, id: Id)
    requires InOrder(before, after, now)
    ensures IsLatest(after, id) <==> IsLatest(before, id)
  {
    forall x | IsValid(after, x) ensures IsValid(before, x) {
      ValidMeansUntouched(before, after, now, x);
    }
    var ids := ValidIds(before);
    if ids != {} {
      var m := GreatestExists(ids);
      assert IsLatest(before, m) by {
        hide IsValid;
      }
      LatestIsKept(before, now, m);
      KeptStay(before, after, now, m);
      hide IsValid, InOrder;
      assert IsLatest(after, m);
    } else {
      hide IsValid, InOrder;
      assert forall x :: IsValid(before, x) ==> x in ids;
    }
  }

  /** Any prefix of an orderly run of deletions is safe to stop at. */
  lemma OrderlyIsCrashSafe(before: set<Key>, after: set<Key>, now: int)
    requires InOrder(before, after, now)
    ensures CrashSafe(before, after, now)
  {
    forall id | IsValid(after, id)
      ensures IsValid(before, id) && NamesOf(after, id) == NamesOf(before, id)
    {
      ValidMeansUntouched(before, after, now, id);
    }
    forall id
      ensures IsLatest(after, id) <==> IsLatest(before, id)
    {
      LatestStays(before, after, now, id);
    }
    forall id | id in Kept(before, now)
      ensures IsValid(after, id)
    {
      KeptStay(before, after, now, id);
    }
    hide Kept, NamesOf, IsValid;
  }

  class Bucket {
    var objects: set<Key>
    ghost var log: seq<Key>
    ghost var earlier: seq<Key>

    constructor (o: set<Key>)
      ensures objects == o && log == [] && earlier == []
    {
      objects, log, earlier := o, [], [];
    }

    method DeleteObject(k: Key)
      modifies this`objects, this`log
      ensures objects == old(objects) - {k} && log == old(log) + [k]
    {
      objects := objects - {k};
      log := log + [k];
    }

    /** Every moment since `before` was safe to crash at. */
    ghost predicate Safely(before: set<Key>, now: int)
      reads this`objects, this`log
    {
      objects == before - Keys(log) && SafeLog(before, log, now)
    }

    /** Delete a key, or nothing on a dry run. */
    method Remove(k: Key, dryRun: bool, ghost before: set<Key>, ghost now: int)
      requires Safely(before, now) && Goes(before, now, k)
      requires dryRun || MayGo(objects, k)
      modifies this`objects, this`log
      ensures Safely(before, now)
      ensures objects == if dryRun then old(objects) else old(objects) - {k}
      ensures log == if dryRun then old(log) else old(log) + [k]
    {
      hide SafeLog, Goes, MayGo;
      if !dryRun {
        DeletionIsSafe(before, log, k, now);
        KeysAppend(log, k);
        DeleteObject(k);
      }
    }

    /** Objects of a backup whose manifest is gone, in any order. */
    method DeleteParts(id: Id, names: set<string>, dryRun: bool, ghost before: set<Key>, ghost now: int)
      returns (deleted: nat, ghost gone: set<Key>)
      requires Safely(before, now) && Doomed(before, now, id)
      requires dryRun || Part(id, MANIFEST_NAME) !in objects
      modifies this`objects, this`log
      ensures Safely(before, now)
      ensures gone == PartsNamed(id, names) && deleted == |gone|
      ensures objects == if dryRun then old(objects) else old(objects) - gone
      ensures dryRun ==> log == old(log)
    {
      hide *;
      var rest := names;
      assert names - rest == {};
      NamedNone(id);
      deleted, gone := 0, {};
      while rest != {}
        invariant Safely(before, now) && rest <= names
        invariant dryRun || Part(id, MANIFEST_NAME) !in objects
        invariant gone == PartsNamed(id, names - rest) && deleted == |gone|
        invariant objects == if dryRun then old(objects) else old(objects) - gone
        invariant dryRun ==> log == old(log)
        decreases |rest|
      {
        var name :| name in rest;
        PartMayGo(before, objects, now, id, name);
        Remove(Part(id, name), dryRun, before, now);
        NamedNext(id, names, rest, name);
        LessOneMore(old(objects), gone, Part(id, name));
        deleted, gone := deleted + 1, gone + {Part(id, name)};
        rest := rest - {name};
      }
      assert names - rest == names;
    }

    /** One doomed backup: its manifest first, then its other objects. */
    method DeleteBackup(id: Id, names: set<string>, dryRun: bool, ghost before: set<Key>, ghost now: int)
      returns (deleted: nat, ghost gone: set<Key>)
      requires Safely(before, now) && Doomed(before, now, id) && names == NamesOf(before, id)
      requires objects <= before
      modifies this`objects, this`log
      ensures Safely(before, now)
      ensures gone == PartsOf(before, id) && deleted == |gone|
      ensures objects == if dryRun then old(objects) else old(objects) - gone
      ensures dryRun ==> log == old(log)
    {
      hide Safely, Doomed, NamesOf, PartsNamed, PartsOf;
      PartsByName(before, id);
      if MANIFEST_NAME in names {
        NamedFirst(id, names);
        Remove(Part(id, MANIFEST_NAME), dryRun, before, now);
        var n, others := DeleteParts(id, names - {MANIFEST_NAME}, dryRun, before, now);
        deleted, gone := n + 1, {Part(id, MANIFEST_NAME)} + others;
      } else {
        deleted, gone := DeleteParts(id, names, dryRun, before, now);
      }
    }

    /** The doomed backups, oldest first. */
    method DeleteBackups(doomed: seq<Id>, dryRun: bool, ghost before: set<Key>, ghost now: int)
      returns (deleted: nat, ghost gone: set<Key>)
      requires objects == before && log == [] && Ascending(doomed)
      requires forall id :: id in doomed ==> Doomed(before, now, id)
      modifies this`objects, this`log
      ensures Safely(before, now)
      ensures gone == PartsAmong(before, doomed) && deleted == |gone|
      ensures objects == if dryRun then before else before - gone
      ensures dryRun ==> log == []
    {
      hide SafeLog, Doomed, Keys;
      var listing := objects;
      NothingDeleted(before, now);
      deleted, gone := 0, {};
      for i := 0 to |doomed|
        invariant Safely(before, now)
        invariant gone == PartsAmong(before, doomed[..i]) && deleted == |gone|
        invariant objects == if dryRun then before else before - gone
        invariant dryRun ==> log == []
      {
        var id := doomed[i];
        var n, g := DeleteBackup(id, NamesOf(listing, id), dryRun, before, now);
        assert doomed[..i + 1] == doomed[..i] + [id];
        assert gone * g == {};
        deleted := deleted + n;
        gone := gone + g;
      }
      assert doomed[..|doomed|] == doomed;
    }

    /** The ledger copies no retained backup could need; with nothing kept, every copy stays. */
    method DeleteLedgerCopies(kept: set<Id>, now: int, dryRun: bool, ghost before: set<Key>)
      returns (deleted: nat, ghost gone: set<Key>)
      requires Safely(before, now) && kept == Kept(before, now)
      requires CopiesIn(objects) == CopiesIn(before)
      modifies this`objects, this`log
      ensures Safely(before, now)
      ensures gone == LedgerGoing(before, now) && deleted == |gone|
      ensures objects == if dryRun then old(objects) else old(objects) - gone
      ensures dryRun ==> log == old(log)
    {
      hide Safely, Kept, CopiesIn, LedgerGoing, LedgerExpired, Elements, Ascending, GoingAmong;
      deleted, gone := 0, {};
      if kept == {} {
        NothingKept(before, now);
        return;
      }
      var oldestKept := Least(kept);
      var copies: seq<Id> := Sorted(CopiesIn(objects));
      GoingStart(before, now, copies);
      for i := 0 to |copies|
        invariant Safely(before, now)
        invariant gone == GoingAmong(before, now, copies[..i]) && deleted == |gone|
        invariant objects == if dryRun then old(objects) else old(objects) - gone
        invariant dryRun ==> log == old(log)
      {
        var id := copies[i];
        GoingStep(before, now, copies, i);
        assert LedgerDoomed(before, now, id) <==> id < oldestKept && LedgerExpired(id, now);
        if id < oldestKept && LedgerExpired(id, now) {
          Remove(LedgerCopy(id), dryRun, before, now);
          deleted := deleted + 1;
          gone := gone + {LedgerCopy(id)};
        }
      }
      GoingEnd(before, now, copies);
    }

    /** What a prune as of `now` keeps and what it removes. */
    method Decide(now: int) returns (prunedIds: seq<Id>, keptIds: set<Id>)
      ensures keptIds == Kept(objects, now) && Ascending(prunedIds)
      ensures forall id :: id in prunedIds <==> Doomed(objects, now, id)
    {
      hide Keep, Ascending, Elements, IsValid, Doomed, TestedIds, FailedExpired, Valid;
      var valid := Sorted(ValidIds(objects));
      ValidAgain(objects, valid);
      var keep, prune := PlanRetention(valid, TestedIds(objects), now);
      keptIds := keep.Keys;
      var failed := set id | id in Listed(objects) && !IsValid(objects, id) && FailedExpired(id, now);
      prunedIds := Sorted((set id | id in prune) + failed);
      DoomedIs(objects, now, prune, prunedIds);
    }

    /**
     * Applies the retention policy as of `now`. Exactly what goes is deleted, and it is safe to
     * crash after any number of the deletions; a dry run deletes nothing and counts the same. The
     * log is of this prune; those of earlier ones are kept apart.
     */
    method Prune(now: int, dryRun: bool) returns (prunedIds: seq<Id>, keptIds: set<Id>, deleted: nat)
      modifies this
      ensures earlier == old(earlier + log)
      ensures forall i :: 0 <= i <= |log| ==> CrashSafe(old(objects), old(objects) - Keys(log[..i]), now)
      ensures objects == old(objects) - Keys(log)
      ensures objects == if dryRun then old(objects) else old(objects) - Going(old(objects), now)
      ensures dryRun ==> log == []
      ensures deleted == |Going(old(objects), now)|
      ensures keptIds == Kept(old(objects), now)
      ensures Ascending(prunedIds) && forall id :: id in prunedIds <==> Doomed(old(objects), now, id)
    {
      hide SafeLog, Keys, Kept, Ascending, CrashSafe, LedgerGoing, Doomed, PartsAmong, Going, CopiesIn;
      ghost var before := objects;
      earlier, log := earlier + log, [];
      prunedIds, keptIds := Decide(now);
      var n, parts := DeleteBackups(prunedIds, dryRun, before, now);
      PartsAreNotCopies(before, now, prunedIds);
      var m, copies := DeleteLedgerCopies(keptIds, now, dryRun, before);
      deleted := n + m;
      GoingIs(before, now, prunedIds);
      assert |parts + copies| == |parts| + |copies|;
      SafeLogIsCrashSafe(before, log, now);
    }
  }

  function Keys(log: seq<Key>): set<Key> {
    set k | k in log
  }

  lemma KeysAppend(log: seq<Key>, k: Key)
    ensures Keys(log + [k]) == Keys(log) + {k}
  {
  }

  /** The deletions so far were orderly, at every prefix. */
  ghost predicate SafeLog(before: set<Key>, log: seq<Key>, now: int) {
    forall i :: 0 <= i <= |log| ==> InOrder(before, before - Keys(log[..i]), now)
  }

  /** A backup's other parts go only after its manifest. */
  predicate MayGo(objects: set<Key>, k: Key) {
    k.Part? && k.name != MANIFEST_NAME ==> Part(k.id, MANIFEST_NAME) !in objects
  }

  lemma PartMayGo(before: set<Key>, objects: set<Key>, now: int, id: Id, name: string)
    requires Doomed(before, now, id)
    ensures Goes(before, now, Part(id, name))
    ensures Part(id, MANIFEST_NAME) !in objects ==> MayGo(objects, Part(id, name))
  {
    hide Doomed;
  }

  lemma DeletionIsSafe(before: set<Key>, log: seq<Key>, k: Key, now: int)
    requires SafeLog(before, log, now) && Goes(before, now, k) && MayGo(before - Keys(log), k)
    ensures SafeLog(before, log + [k], now)
  {
    hide Goes;
    KeysAppend(log, k);
    forall i | 0 <= i <= |log| + 1
      ensures InOrder(before, before - Keys((log + [k])[..i]), now)
    {
      if i <= |log| {
        assert (log + [k])[..i] == log[..i];
      } else {
        assert (log + [k])[..i] == log + [k] && log[..|log|] == log;
        OneMore(before, before - Keys(log), k, now);
        assert before - Keys(log + [k]) == before - Keys(log) - {k};
      }
    }
  }

  lemma OneMore(before: set<Key>, after: set<Key>, k: Key, now: int)
    requires InOrder(before, after, now) && Goes(before, now, k) && MayGo(after, k)
    ensures InOrder(before, after - {k}, now)
  {
    hide Goes;
  }

  lemma NothingDeleted(before: set<Key>, now: int)
    ensures SafeLog(before, [], now) && Keys([]) == {}
  {
    assert before - Keys([]) == before;
  }

  lemma SafeLogIsCrashSafe(before: set<Key>, log: seq<Key>, now: int)
    requires SafeLog(before, log, now)
    ensures forall i :: 0 <= i <= |log| ==> CrashSafe(before, before - Keys(log[..i]), now)
  {
    hide InOrder, CrashSafe;
    forall i | 0 <= i <= |log|
      ensures CrashSafe(before, before - Keys(log[..i]), now)
    {
      OrderlyIsCrashSafe(before, before - Keys(log[..i]), now);
    }
  }

  function PartsOf(objects: set<Key>, id: Id): set<Key> {
    set k | k in objects && k.Part? && k.id == id
  }

  function PartsAmong(objects: set<Key>, ids: seq<Id>): set<Key> {
    set k | k in objects && k.Part? && k.id in ids
  }

  function LedgerGoing(objects: set<Key>, now: int): set<Key> {
    set k | k in objects && k.LedgerCopy? && LedgerDoomed(objects, now, k.id)
  }

  function Going(objects: set<Key>, now: int): set<Key> {
    set k | k in objects && Goes(objects, now, k)
  }

  lemma GoingIs(before: set<Key>, now: int, doomed: seq<Id>)
    requires forall id :: id in doomed <==> Doomed(before, now, id)
    ensures Going(before, now) == PartsAmong(before, doomed) + LedgerGoing(before, now)
  {
    hide Doomed, LedgerDoomed;
  }

  /** The parts of a backup with these names. */
  function PartsNamed(id: Id, names: set<string>): set<Key> {
    set n | n in names :: Part(id, n)
  }

  lemma NamedNone(id: Id)
    ensures PartsNamed(id, {}) == {}
  {
  }

  lemma NamedAppend(id: Id, names: set<string>, n: string)
    requires n !in names
    ensures PartsNamed(id, names + {n}) == PartsNamed(id, names) + {Part(id, n)}
    ensures |PartsNamed(id, names + {n})| == |PartsNamed(id, names)| + 1
  {
    assert PartsNamed(id, names + {n}) == PartsNamed(id, names) + {Part(id, n)};
  }

  lemma NamedNext(id: Id, names: set<string>, rest: set<string>, n: string)
    requires rest <= names && n in rest
    ensures PartsNamed(id, names - (rest - {n})) == PartsNamed(id, names - rest) + {Part(id, n)}
    ensures |PartsNamed(id, names - (rest - {n}))| == |PartsNamed(id, names - rest)| + 1
  {
    NamedAppend(id, names - rest, n);
    assert names - (rest - {n}) == names - rest + {n};
  }

  lemma LessOneMore(objects: set<Key>, gone: set<Key>, k: Key)
    ensures objects - gone - {k} == objects - (gone + {k})
  {
  }

  lemma NamedFirst(id: Id, names: set<string>)
    requires MANIFEST_NAME in names
    ensures PartsNamed(id, names) == {Part(id, MANIFEST_NAME)} + PartsNamed(id, names - {MANIFEST_NAME})
    ensures |PartsNamed(id, names)| == 1 + |PartsNamed(id, names - {MANIFEST_NAME})|
  {
    NamedAppend(id, names - {MANIFEST_NAME}, MANIFEST_NAME);
    assert names - {MANIFEST_NAME} + {MANIFEST_NAME} == names;
  }

  lemma PartsByName(objects: set<Key>, id: Id)
    ensures PartsNamed(id, NamesOf(objects, id)) == PartsOf(objects, id)
    ensures MANIFEST_NAME !in NamesOf(objects, id) ==> Part(id, MANIFEST_NAME) !in objects
  {
    forall k
      ensures k in PartsNamed(id, NamesOf(objects, id)) <==> k in PartsOf(objects, id)
    {
      if k in PartsOf(objects, id) {
        assert k.name in NamesOf(objects, id) && k == Part(id, k.name);
      }
    }
  }

  function CopiesIn(objects: set<Key>): set<Id> {
    set k | k in objects && k.LedgerCopy? :: k.id
  }

  function GoingAmong(objects: set<Key>, now: int, ids: seq<Id>): set<Key> {
    set k | k in LedgerGoing(objects, now) && k.id in ids
  }

  lemma NothingKept(objects: set<Key>, now: int)
    requires Kept(objects, now) == {}
    ensures LedgerGoing(objects, now) == {}
  {
  }

  lemma GoingStart(objects: set<Key>, now: int, ids: seq<Id>)
    ensures GoingAmong(objects, now, ids[..0]) == {}
  {
  }

  lemma GoingStep(objects: set<Key>, now: int, ids: seq<Id>, i: nat)
    requires Ascending(ids) && Elements(ids) == CopiesIn(objects) && i < |ids|
    ensures var done, next := GoingAmong(objects, now, ids[..i]), GoingAmong(objects, now, ids[..i + 1]);
      if LedgerDoomed(objects, now, ids[i]) then LedgerCopy(ids[i]) !in done && next == done + {LedgerCopy(ids[i])}
      else next == done
  {
    hide LedgerDoomed;
    assert ids[..i + 1] == ids[..i] + [ids[i]];
    assert ids[i] in Elements(ids);
    assert LedgerCopy(ids[i]) in objects;
    assert ids[i] !in ids[..i];
  }

  lemma GoingEnd(objects: set<Key>, now: int, ids: seq<Id>)
    requires Elements(ids) == CopiesIn(objects)
    ensures GoingAmong(objects, now, ids[..|ids|]) == LedgerGoing(objects, now)
  {
    assert ids[..|ids|] == ids;
    forall k | k in LedgerGoing(objects, now)
      ensures k.id in ids
    {
      assert k.id in CopiesIn(objects) && k.id in Elements(ids);
    }
  }

  lemma PartsAreNotCopies(objects: set<Key>, now: int, ids: seq<Id>)
    ensures PartsAmong(objects, ids) * LedgerGoing(objects, now) == {}
    ensures CopiesIn(objects - PartsAmong(objects, ids)) == CopiesIn(objects)
  {
    forall l
      ensures l in CopiesIn(objects - PartsAmong(objects, ids)) <==> l in CopiesIn(objects)
    {
      assert LedgerCopy(l) !in PartsAmong(objects, ids);
      if l in CopiesIn(objects) {
        assert LedgerCopy(l) in objects - PartsAmong(objects, ids);
      }
    }
  }

  lemma ValidAgain(objects: set<Key>, valid: seq<Id>)
    requires Elements(valid) == ValidIds(objects)
    ensures Valid(valid) == ValidIds(objects)
  {
    assert forall id :: id in valid <==> id in Elements(valid);
    hide ValidId;
  }

  lemma DoomedIs(objects: set<Key>, now: int, prune: seq<Id>, doomed: seq<Id>)
    requires Elements(prune) == ValidIds(objects) - Kept(objects, now)
    requires Elements(doomed) == (set id | id in prune)
                                 + (set id | id in Listed(objects) && !IsValid(objects, id) && FailedExpired(id, now))
    ensures forall id :: id in doomed <==> Doomed(objects, now, id)
  {
    hide Kept, FailedExpired;
    forall id: Id
      ensures id in doomed <==> Doomed(objects, now, id)
    {
      assert id in doomed <==> id in Elements(doomed);
      assert id in prune <==> id in Elements(prune);
      if IsValid(objects, id) {
        assert Part(id, MANIFEST_NAME) in objects;
      }
    }
  }

  /** Only the markers of listed backups matter. */
  lemma KeepIgnoresOtherMarkers(ids: set<Id>, t1: set<Id>, t2: set<Id>, now: int)
    requires t1 * ids == t2 * ids
    ensures Keep(ids, t1, now) == Keep(ids, t2, now)
  {
    hide Time, DayOf, TopDays, NewestOfDay;
    forall id | id in ids
      ensures Reasons(ids, t1, now, id) == Reasons(ids, t2, now, id)
    {
      SameMarkers(ids, t1, t2);
      forall r: Reason ensures Earns(r, ids, t1, now, id) <==> Earns(r, ids, t2, now, id) {
      }
    }
    hide Reasons;
  }

  lemma SameMarkers(ids: set<Id>, t1: set<Id>, t2: set<Id>)
    requires t1 * ids == t2 * ids
    ensures forall id :: NewestTested(ids, t1, id) <==> NewestTested(ids, t2, id)
  {
    forall id | id in ids
      ensures id in t1 <==> id in t2
    {
      assert id in t1 * ids <==> id in t2 * ids;
    }
  }

  /** A prune after one that stopped anywhere, or ran to its end, keeps what it would have anyway. */
  lemma PruneAfterCrash(before: set<Key>, after: set<Key>, now1: int, now2: int)
    requires InOrder(before, after, now1) && now1 <= now2
    ensures Kept(after, now2) == Kept(before, now2)
  {
    assert after + {} == after && before + {} == before;
    LaterPruneKeepsTheSame(before, after, {}, now1, now2);
  }

  /**
   * New objects since a prune: ledger copies and other keys at will, new backups, more objects of
   * backups it has not touched, and for those that were valid only their restore-test marker.
   */
  ghost predicate Additions(before: set<Key>, after: set<Key>, added: set<Key>) {
    forall k :: k in added && k.Part? ==>
      && NamesOf(after, k.id) == NamesOf(before, k.id)
      && (IsValid(before, k.id) ==> k.name == TESTED_NAME)
  }

  lemma PartOf(objects: set<Key>, id: Id, name: string)
    ensures Part(id, name) in objects <==> name in NamesOf(objects, id)
  {
    assert Part(id, name) in objects ==> Part(id, name).name == name;
  }

  /** What a backup is worth after the additions: the same in the pruned and the unpruned bucket. */
  lemma AdditionsTo(before: set<Key>, after: set<Key>, added: set<Key>, now: int, id: Id)
    requires InOrder(before, after, now) && Additions(before, after, added)
    ensures IsValid(before, id) ==> IsValid(before + added, id) && (IsValid(after + added, id) <==> IsValid(after, id))
    ensures !IsValid(before, id) ==> (IsValid(after + added, id) <==> IsValid(before + added, id))
    ensures IsValid(after, id) ==> IsValid(before, id)
    ensures IsValid(after + added, id) ==>
      (Part(id, TESTED_NAME) in before + added <==> Part(id, TESTED_NAME) in after + added)
    ensures IsValid(before, id) && Part(id, TESTED_NAME) in added && Part(id, TESTED_NAME) !in before ==>
      IsValid(after, id)
  {
    if IsValid(after, id) {
      ValidMeansUntouched(before, after, now, id);
    }
    PartOf(before, id, MANIFEST_NAME);
    PartOf(after, id, MANIFEST_NAME);
    PartOf(before, id, FAILED_NAME);
    PartOf(after, id, FAILED_NAME);
    PartOf(before, id, TESTED_NAME);
    PartOf(after, id, TESTED_NAME);
    hide NamesOf, InOrder;
    assert after <= before;
    NamesDiffer();
    if !IsValid(before, id) && !IsValid(after, id) && !(exists k :: k in added && k.Part? && k.id == id) {
      assert Part(id, MANIFEST_NAME) !in added && Part(id, FAILED_NAME) !in added;
      NotRevived(before, after, now, id);
    }
  }

  lemma NamesDiffer()
    ensures MANIFEST_NAME != TESTED_NAME && FAILED_NAME != TESTED_NAME && MANIFEST_NAME != FAILED_NAME
  {
    assert MANIFEST_NAME[0] != TESTED_NAME[0] && FAILED_NAME[0] != TESTED_NAME[0];
  }

  lemma NotRevived(before: set<Key>, after: set<Key>, now: int, id: Id)
    requires InOrder(before, after, now) && !IsValid(before, id)
    ensures !IsValid(after, id)
  {
    if IsValid(after, id) {
      ValidMeansUntouched(before, after, now, id);
    }
  }

  /**
   * Whatever was added since, a prune after one that stopped anywhere, or ran to its end, keeps
   * what it would have kept had there been no earlier prune.
   */
  lemma LaterPruneKeepsTheSame(before: set<Key>, after: set<Key>, added: set<Key>, now1: int, now2: int)
    requires InOrder(before, after, now1) && Additions(before, after, added) && now1 <= now2
    ensures Kept(after + added, now2) == Kept(before + added, now2)
  {
    var s, n := ValidIds(before), ValidIds(after + added);
    var t1, t2 := TestedIds(before), TestedIds(before + added);
    forall id
      ensures IsValid(before + added, id) <==> id in s + n
      ensures id in Kept(before, now1) ==> id in n
      ensures id in t1 ==> id in t2
      ensures id in t2 && id in s ==> id in t1 || id in n
      ensures id in n ==> (id in t2 <==> id in TestedIds(after + added))
    {
      AdditionsTo(before, after, added, now1, id);
      if id in Kept(before, now1) {
        KeptStay(before, after, now1, id);
      }
    }
    hide TestedIds, Keep, IsValid, InOrder, Additions;
    assert ValidIds(before + added) == s + n;
    assert Kept(before, now1) + n == n;
    assert t2 * s <= t1 + Kept(before, now1) + n;
    PruningIsHistoryIndependent(s, n, t1, t2, now1, now2);
    assert t2 * n == TestedIds(after + added) * n;
    KeepIgnoresOtherMarkers(n, t2, TestedIds(after + added), now2);
  }
}
