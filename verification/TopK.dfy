/**
 * Keeping only the k highest-ranked elements of a set (a sort, reversed and sliced), and why
 * doing so early loses nothing: what was cut can never come back.
 */
module TopK {
  import opened Prelude

  function Above<T>(s: set<T>, rank: T -> int, x: T): set<T> {
    set y | y in s && rank(y) > rank(x)
  }

  /** The elements with fewer than `k` elements ranked above them. */
  function Top<T>(s: set<T>, k: nat, rank: T -> int): set<T> {
    set x | x in s && |Above(s, rank, x)| < k
  }

  lemma {:induction false} TopIsLarge<T>(s: set<T>, k: nat, rank: T -> int)
    ensures |Top(s, k, rank)| >= MinI(k, |s|)
    decreases |s|
  {
    if |s| <= k {
      forall x | x in s ensures x in Top(s, k, rank) {
        SubsetCardinality(Above(s, rank, x), s - {x});
      }
      assert Top(s, k, rank) == s;
    } else {
      var m := LeastExists(s, rank);
      var rest := s - {m};
      TopIsLarge(rest, k, rank);
      forall x | x in Top(rest, k, rank) ensures x in Top(s, k, rank) {
        assert Above(s, rank, x) == Above(rest, rank, x);
      }
      SubsetCardinality(Top(rest, k, rank), Top(s, k, rank));
    }
  }

  /** An element that was cut has at least `k` kept elements above it. */
  lemma CutIsDominated<T>(s: set<T>, k: nat, rank: T -> int, y: T)
    requires |Above(s, rank, y)| >= k
    ensures |Above(Top(s, k, rank), rank, y)| >= k
  {
    var u := Above(s, rank, y);
    TopIsLarge(u, k, rank);
    forall x | x in Top(u, k, rank) ensures x in Above(Top(s, k, rank), rank, y) {
      assert Above(s, rank, x) == Above(u, rank, x);
    }
    SubsetCardinality(Top(u, k, rank), Above(Top(s, k, rank), rank, y));
  }

  /**
   * Top-k absorbs an earlier top-k: if at least the top k of `s` survived in `c`, then adding
   * newcomers and cutting again gives what the whole history would have given.
   */
  lemma TopAbsorbs<T>(s: set<T>, c: set<T>, n: set<T>, k: nat, rank: T -> int)
    requires Top(s, k, rank) <= c <= s
    ensures Top(c + n, k, rank) == Top(s + n, k, rank)
  {
    forall x | x in s + n
      ensures x in Top(c + n, k, rank) <==> x in Top(s + n, k, rank)
    {
      var few, all := Above(c + n, rank, x), Above(s + n, rank, x);
      SubsetCardinality(few, all);
      if x !in c + n {
        SubsetCardinality(Above(s, rank, x), all);
      } else if |all| >= k > |few| {
        assert exists y :: y in all && y !in few by {
          if all <= few {
            SubsetCardinality(all, few);
          }
        }
        var y :| y in all && y !in few;
        CutIsDominated(s, k, rank, y);
        SubsetCardinality(Above(Top(s, k, rank), rank, y), few);
      }
    }
  }
}
