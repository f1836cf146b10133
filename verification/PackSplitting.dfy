/**
 * Splitting a question set into packs whose complete answer fits the output cap: greedy, in key
 * order. Questions are any type and the size estimate any function of a pack.
 */
module PackSplitting {
  import opened Prelude

  function Flatten<T>(packs: seq<seq<T>>): seq<T> {
    if packs == [] then [] else Flatten(packs[..|packs| - 1]) + packs[|packs| - 1]
  }

  /** How many questions the first `j` packs hold. */
  function Cut<T>(packs: seq<seq<T>>, j: nat): nat
    requires j <= |packs|
  {
    |Flatten(packs[..j])|
  }

  predicate Fits<T>(est: seq<T> -> int, max: int, pack: seq<T>) {
    est(pack) <= max
  }

  /** Every pack fits. */
  ghost predicate AllFit<T>(packs: seq<seq<T>>, est: seq<T> -> int, max: int) {
    forall i :: 0 <= i < |packs| ==> Fits(est, max, packs[i])
  }

  /** An order-preserving contiguous split of `qs` into packs that fit. */
  ghost predicate IsSplit<T>(packs: seq<seq<T>>, qs: seq<T>, est: seq<T> -> int, max: int) {
    Flatten(packs) == qs && AllFit(packs, est, max)
  }

  /** Adding questions on either side never lowers the estimate. */
  ghost predicate Monotone<T(!new)>(est: seq<T> -> int) {
    forall whole, i, j {:trigger est(whole[i..j])} ::
      0 <= i <= j <= |whole| ==> est(whole[i..j]) <= est(whole)
  }

  /** Every pack is nonempty, and no pack but the last had room for the next question. */
  ghost predicate Tight<T>(packs: seq<seq<T>>, est: seq<T> -> int, max: int) {
    forall i :: 0 <= i < |packs| ==>
      packs[i] != [] && (i > 0 ==> !Fits(est, max, packs[i - 1] + [packs[i][0]]))
  }

  lemma CutEnds<T>(packs: seq<seq<T>>)
    ensures Cut(packs, 0) == 0 && Cut(packs, |packs|) == |Flatten(packs)|
  {
    assert packs[..|packs|] == packs;
  }

  lemma {:induction false} PackIsASlice<T>(packs: seq<seq<T>>, j: nat)
    requires j < |packs|
    ensures Cut(packs, j + 1) == Cut(packs, j) + |packs[j]| <= |Flatten(packs)|
    ensures Flatten(packs)[Cut(packs, j)..Cut(packs, j + 1)] == packs[j]
  {
    var n := |packs| - 1;
    assert packs[..j + 1][..j] == packs[..j];
    if j < n {
      PackIsASlice(packs[..n], j);
      assert packs[..n][..j] == packs[..j] && packs[..n][..j + 1] == packs[..j + 1];
    } else {
      assert packs[..j + 1] == packs;
    }
  }

  /** The first question of pack `j` follows pack `j - 1` in the question list. */
  lemma NextSlice<T>(packs: seq<seq<T>>, j: nat)
    requires 0 < j < |packs| && packs[j] != []
    ensures Cut(packs, j - 1) <= Cut(packs, j) < |Flatten(packs)|
    ensures Flatten(packs)[Cut(packs, j - 1)..Cut(packs, j) + 1] == packs[j - 1] + [packs[j][0]]
  {
    PackIsASlice(packs, j - 1);
    NextQuestion(packs, j);
    var qs, a, b := Flatten(packs), Cut(packs, j - 1), Cut(packs, j);
    assert qs[a..b + 1] == qs[a..b] + [qs[b]];
  }

  /** A slice of a slice costs no more than the slice. */
  lemma InnerSlice<T(!new)>(est: seq<T> -> int, qs: seq<T>, c: nat, a: nat, b: nat, d: nat)
    requires Monotone(est) && c <= a <= b <= d <= |qs|
    ensures est(qs[a..b]) <= est(qs[c..d])
  {
    var whole := qs[c..d];
    var inner := whole[a - c..b - c];
    assert forall k :: 0 <= k < b - a ==> inner[k] == whole[a - c + k] == qs[a + k];
    assert inner == qs[a..b];
  }

  /** The greedy split stays ahead: any other split has covered no more after as many packs. */
  lemma {:induction false} GreedyStaysAhead<T(!new)>(
    packs: seq<seq<T>>, other: seq<seq<T>>, est: seq<T> -> int, max: int, j: nat)
    requires Monotone(est) && Tight(packs, est, max)
    requires IsSplit(other, Flatten(packs), est, max)
    requires j <= |packs| && j <= |other|
    ensures Cut(other, j) <= Cut(packs, j)
  {
    if j > 0 {
      GreedyStaysAhead(packs, other, est, max, j - 1);
      PackIsASlice(other, j - 1);
      if j == |packs| {
        assert packs[..j] == packs;
      } else if Cut(other, j) > Cut(packs, j) {
        NextSlice(packs, j);
        InnerSlice(est, Flatten(packs), Cut(other, j - 1), Cut(packs, j - 1), Cut(packs, j) + 1, Cut(other, j));
        hide Flatten, Cut, Monotone;
        assert false;
      }
    }
  }

  lemma NextQuestion<T>(packs: seq<seq<T>>, j: nat)
    requires j < |packs| && packs[j] != []
    ensures Cut(packs, j) < |Flatten(packs)| && Flatten(packs)[Cut(packs, j)] == packs[j][0]
  {
    PackIsASlice(packs, j);
    var qs := Flatten(packs);
    assert packs[j][0] == qs[Cut(packs, j)..Cut(packs, j + 1)][0];
  }

  /** A tight split is as short as any. */
  lemma TightIsMinimal<T(!new)>(packs: seq<seq<T>>, other: seq<seq<T>>, est: seq<T> -> int, max: int)
    requires Monotone(est) && Tight(packs, est, max)
    requires IsSplit(other, Flatten(packs), est, max)
    ensures |packs| <= |other|
  {
    var m := |other|;
    if m < |packs| {
      GreedyStaysAhead(packs, other, est, max, m);
      assert other[..m] == other;
      NextQuestion(packs, m);
      assert false;
    }
  }

  lemma FlattenAppend<T>(packs: seq<seq<T>>, p: seq<T>)
    ensures Flatten(packs + [p]) == Flatten(packs) + p
  {
    assert (packs + [p])[..|packs|] == packs;
  }

  lemma TightAppend<T>(packs: seq<seq<T>>, p: seq<T>, est: seq<T> -> int, max: int)
    requires Tight(packs, est, max) && AllFit(packs, est, max) && p != [] && Fits(est, max, p)
    requires packs != [] ==> !Fits(est, max, packs[|packs| - 1] + [p[0]])
    ensures Tight(packs + [p], est, max) && AllFit(packs + [p], est, max)
  {
  }

  /**
   * Null exactly when some single question does not fit; otherwise nonempty packs that concatenate
   * to the input in order, each fitting, and as few as any contiguous split can use.
   */
  method SplitQuestions<T(!new)>(qs: seq<T>, maxOutputTokens: int, est: seq<T> -> int)
    returns (r: Option<seq<seq<T>>>)
    ensures r.None? <==> exists i :: 0 <= i < |qs| && !Fits(est, maxOutputTokens, [qs[i]])
    ensures r.Some? ==> IsSplit(r.value, qs, est, maxOutputTokens)
    ensures r.Some? ==> Tight(r.value, est, maxOutputTokens)
    ensures r.None? && Monotone(est) ==> NoSplit(qs, est, maxOutputTokens)
    ensures r.Some? && Monotone(est) ==> Fewest(r.value, qs, est, maxOutputTokens)
  {
    hide Tight, AllFit, Fewest, NoSplit, Flatten, Monotone;
    var packs: seq<seq<T>> := [];
    var current: seq<T> := [];
    EmptySplit(est, maxOutputTokens);
    var i := 0;
    while i < |qs|
      invariant 0 <= i <= |qs|
      invariant Flatten(packs) + current == qs[..i]
      invariant Tight(packs, est, maxOutputTokens) && AllFit(packs, est, maxOutputTokens)
      invariant current != [] ==> Fits(est, maxOutputTokens, current)
      invariant i > 0 ==> current != []
      invariant current == [] ==> packs == []
      invariant packs != [] ==> !Fits(est, maxOutputTokens, packs[|packs| - 1] + [current[0]])
      invariant forall k :: 0 <= k < i ==> Fits(est, maxOutputTokens, [qs[k]])
    {
      var entry := qs[i];
      if est([entry]) > maxOutputTokens {
        assert !Fits(est, maxOutputTokens, [qs[i]]);
        if Monotone(est) {
          OversizedMeansNoSplit(qs, i, est, maxOutputTokens);
        }
        return None;
      }
      var candidate := current + [entry];
      assert qs[..i + 1] == qs[..i] + [entry];
      if |current| > 0 && est(candidate) > maxOutputTokens {
        FlattenAppend(packs, current);
        TightAppend(packs, current, est, maxOutputTokens);
        packs := packs + [current];
        current := [entry];
      } else {
        assert current == [] ==> candidate == [entry];
        current := candidate;
      }
      i := i + 1;
    }
    assert qs[..i] == qs;
    if |current| > 0 {
      FlattenAppend(packs, current);
      TightAppend(packs, current, est, maxOutputTokens);
      packs := packs + [current];
    }
    r := Some(packs);
    if Monotone(est) {
      TightIsFewest(packs, est, maxOutputTokens);
    }
  }

  lemma EmptySplit<T>(est: seq<T> -> int, max: int)
    ensures Flatten<T>([]) == [] && Tight([], est, max) && AllFit([], est, max)
  {
  }

  lemma {:induction false} NoMorePacksThanQuestions<T>(packs: seq<seq<T>>)
    requires forall i :: 0 <= i < |packs| ==> packs[i] != []
    ensures |packs| <= |Flatten(packs)|
  {
    if packs != [] {
      NoMorePacksThanQuestions(packs[..|packs| - 1]);
    }
  }

  lemma {:induction false} QuestionIsInAPack<T>(packs: seq<seq<T>>, i: nat) returns (j: nat, k: nat)
    requires i < |Flatten(packs)|
    ensures j < |packs| && k < |packs[j]| && packs[j][k] == Flatten(packs)[i]
  {
    var n := |packs| - 1;
    if i < |Flatten(packs[..n])| {
      j, k := QuestionIsInAPack(packs[..n], i);
    } else {
      j, k := n, i - |Flatten(packs[..n])|;
    }
  }

  /** A question too large alone is too large in any pack, so a refusal is never premature. */
  lemma OversizedMeansNoSplit<T(!new)>(qs: seq<T>, i: nat, est: seq<T> -> int, max: int)
    requires Monotone(est) && i < |qs| && !Fits(est, max, [qs[i]])
    ensures NoSplit(qs, est, max)
  {
    forall other: seq<seq<T>> | Flatten(other) == qs
      ensures !AllFit(other, est, max)
    {
      var j, k := QuestionIsInAPack(other, i);
      assert other[j][k..k + 1] == [qs[i]];
      assert !Fits(est, max, other[j]);
    }
  }

  /** The questions cannot be split at all. */
  ghost predicate NoSplit<T(!new)>(qs: seq<T>, est: seq<T> -> int, max: int) {
    forall packs :: !IsSplit(packs, qs, est, max)
  }

  /** No contiguous split into packs that fit uses fewer packs. */
  ghost predicate Fewest<T(!new)>(packs: seq<seq<T>>, qs: seq<T>, est: seq<T> -> int, max: int) {
    forall other :: IsSplit(other, qs, est, max) ==> |packs| <= |other|
  }

  lemma TightIsFewest<T(!new)>(packs: seq<seq<T>>, est: seq<T> -> int, max: int)
    requires Monotone(est) && Tight(packs, est, max)
    ensures Fewest(packs, Flatten(packs), est, max)
  {
    forall other | IsSplit(other, Flatten(packs), est, max)
      ensures |packs| <= |other|
    {
      TightIsMinimal(packs, other, est, max);
    }
  }

  // ----- The router's own estimate -----

  // Output characters per token are 2.5: dividing by it is multiplying by 2 and dividing by 5.
  const REQUEST_OVERHEAD_TOKENS := 20

  /** Length of the pretty-printed JSON object whose entries have these lengths. */
  function JsonLength(entries: seq<nat>): nat {
    if entries == [] then 2 else Total(entries) + 2 * (|entries| - 1) + 4
  }

  function Total(ns: seq<nat>): nat {
    if ns == [] then 0 else Total(ns[..|ns| - 1]) + ns[|ns| - 1]
  }

  /** Output tokens of an answer, from the lengths of its entries: the characters over 2.5, rounded up. */
  function OutputTokens(entries: seq<nat>): int {
    (2 * JsonLength(entries) + 4) / 5 + REQUEST_OVERHEAD_TOKENS
  }

  lemma {:induction false} TotalOfConcat(a: seq<nat>, b: seq<nat>)
    ensures Total(a + b) == Total(a) + Total(b)
  {
    if b == [] {
      assert a + b == a;
    } else {
      TotalOfConcat(a, b[..|b| - 1]);
      assert (a + b)[..|a + b| - 1] == a + b[..|b| - 1];
    }
  }

  /** The estimate the router splits by is monotone, so its packs are as few as possible. */
  lemma OutputEstimateIsMonotone()
    ensures Monotone(OutputTokens)
  {
    forall whole: seq<nat>, i, j | 0 <= i <= j <= |whole|
      ensures OutputTokens(whole[i..j]) <= OutputTokens(whole)
    {
      TotalOfConcat(whole[..i], whole[i..j]);
      TotalOfConcat(whole[..j], whole[j..]);
      assert whole[..i] + whole[i..j] == whole[..j] && whole[..j] + whole[j..] == whole;
      hide Total;
      assert JsonLength(whole[i..j]) <= JsonLength(whole);
    }
  }

  // ----- The estimate, by the text itself -----

  /** The pretty-printed object: each entry on its own lines, which its text includes. */
  function Pretty(entries: seq<string>): string {
    if entries == [] then "{}" else "{\n" + Lines(entries) + "\n}"
  }

  function Lines(entries: seq<string>): string
    requires entries != []
  {
    var n := |entries| - 1;
    if n == 0 then entries[0] else Lines(entries[..n]) + ",\n" + entries[n]
  }

  function Lengths(entries: seq<string>): seq<nat> {
    seq(|entries|, i requires 0 <= i < |entries| => |entries[i]|)
  }

  lemma {:induction false} LinesLength(entries: seq<string>)
    requires entries != []
    ensures |Lines(entries)| == Total(Lengths(entries)) + 2 * (|entries| - 1)
  {
    var n := |entries| - 1;
    assert Lengths(entries)[..n] == Lengths(entries[..n]);
    if n > 0 {
      LinesLength(entries[..n]);
    } else {
      assert Lengths(entries)[..0] == [];
    }
  }

  /** Twenty tokens and one for every two and a half characters, a part of one counting whole. */
  lemma EstimateIsOfTheText(entries: seq<string>)
    ensures JsonLength(Lengths(entries)) == |Pretty(entries)|
    ensures var tokens := OutputTokens(Lengths(entries)) - 20;
      5 * (tokens - 1) < 2 * |Pretty(entries)| <= 5 * tokens
  {
    if entries != [] {
      LinesLength(entries);
    }
    hide Total, Lines;
  }
}
