/**
 * The option generation shared by the two quiz games: wrong options are
 * drawn at random and rejected when they equal the right answer or repeat
 * an earlier one; the answer and the wrong options are then shuffled by a
 * sort with a random comparator. Random draws are supplied by the caller,
 * and the shuffle is a caller-chosen sequence of adjacent swaps, which can
 * reach every ordering.
 */
module Quiz {
  import opened Common

  /** The distinct values among `draws` other than `exclude`. */
  function Others<T(==)>(draws: seq<T>, exclude: T): set<T> {
    set x | x in draws && x != exclude
  }

  /**
   * Rejection sampling: takes draws in order until `need` distinct values
   * other than `exclude` have been accepted, or the draws run out. `used`
   * is how many draws were taken. It falls short of `need` exactly when the
   * draws hold fewer than `need` values other than `exclude`.
   */
  method SampleDistinct<T(==)>(exclude: T, draws: seq<T>, need: nat) returns (wrong: seq<T>, used: nat)
    ensures used <= |draws|
    ensures |wrong| <= need && NoDup(wrong)
    ensures forall x :: x in wrong <==> x in draws[..used] && x != exclude
    ensures |wrong| == need || used == |draws|
    ensures |wrong| == Min(need, |Others(draws, exclude)|)
  {
    wrong := [];
    used := 0;
    while |wrong| < need && used < |draws|
      invariant used <= |draws|
      invariant |wrong| <= need && NoDup(wrong)
      invariant forall x :: x in wrong <==> x in draws[..used] && x != exclude
    {
      var candidate := draws[used];
      assert draws[..used + 1] == draws[..used] + [candidate];
      used := used + 1;
      if candidate != exclude && candidate !in wrong {
        wrong := wrong + [candidate];
      }
    }
    NoDupCard(wrong);
    var taken := set x | x in wrong;
    assert taken <= Others(draws, exclude);
    if |wrong| < need {
      assert draws[..used] == draws;
      assert taken == Others(draws, exclude);
    } else {
      SubsetCard(taken, Others(draws, exclude));
    }
  }

  lemma SubsetCard<T>(a: set<T>, b: set<T>)
    requires a <= b
    ensures |a| <= |b|
  {
    assert b == a + (b - a);
  }

  /** Swaps positions i and i + 1, when both exist. */
  function SwapAdjacent<T>(s: seq<T>, i: nat): (r: seq<T>)
    ensures |r| == |s| && multiset(r) == multiset(s)
  {
    if i + 1 < |s| then
      assert s == s[..i] + [s[i], s[i + 1]] + s[i + 2..];
      assert multiset([s[i + 1], s[i]]) == multiset([s[i], s[i + 1]]);
      s[..i] + [s[i + 1], s[i]] + s[i + 2..]
    else s
  }

  /** The shuffle: the swaps applied left to right. */
  function Shuffle<T>(s: seq<T>, swaps: seq<nat>): (r: seq<T>)
    ensures |r| == |s| && multiset(r) == multiset(s)
    decreases |swaps|
  {
    if swaps == [] then s else Shuffle(SwapAdjacent(s, swaps[0]), swaps[1..])
  }

  /** A sequence has no repeats exactly when no element occurs more than once in its multiset. */
  lemma {:induction false} NoDupMultiplicity<T>(s: seq<T>)
    ensures NoDup(s) <==> forall x :: multiset(s)[x] <= 1
  {
    if s != [] {
      var rest := s[1..];
      assert s == [s[0]] + rest;
      NoDupMultiplicity(rest);
      if NoDup(s) {
        assert NoDup(rest) by {
          forall i, j | 0 <= i < j < |rest| ensures rest[i] != rest[j] {
            assert rest[i] == s[i + 1] && rest[j] == s[j + 1];
          }
        }
        assert s[0] !in rest by {
          forall k | 0 <= k < |rest| ensures rest[k] != s[0] {
            assert rest[k] == s[k + 1];
          }
        }
      } else {
        var i, j :| 0 <= i < j < |s| && s[i] == s[j];
        assert s[j] == rest[j - 1];
        if i == 0 {
          assert multiset(s)[s[0]] == 1 + multiset(rest)[s[0]];
        } else {
          assert s[i] == rest[i - 1];
          assert !NoDup(rest);
          var x :| multiset(rest)[x] > 1;
          assert multiset(s)[x] >= multiset(rest)[x];
        }
      }
    }
  }

  /** Reordering keeps a sequence free of repeats. */
  lemma PermutationKeepsNoDup<T>(s: seq<T>, r: seq<T>)
    requires multiset(r) == multiset(s) && NoDup(s)
    ensures NoDup(r)
  {
    NoDupMultiplicity(s);
    NoDupMultiplicity(r);
  }

  /**
   * The options built from an answer and distinct wrong values different
   * from it, after any shuffle: distinct, one more than the wrong values,
   * containing the answer, and nothing but the answer and the wrong values.
   */
  lemma ShuffledOptions<T>(answer: T, wrong: seq<T>, swaps: seq<nat>)
    requires NoDup(wrong) && answer !in wrong
    ensures var options := Shuffle([answer] + wrong, swaps);
      |options| == |wrong| + 1 && NoDup(options) && answer in options &&
      forall x :: x in options <==> x == answer || x in wrong
  {
    var s := [answer] + wrong;
    var options := Shuffle(s, swaps);
    ConsNoDup(answer, wrong);
    PermutationKeepsNoDup(s, options);
    forall x ensures x in options <==> x == answer || x in wrong {
      calc {
        x in options;
        x in multiset(options);
        x in multiset(s);
        x in s;
      }
    }
  }

  lemma ConsNoDup<T>(answer: T, wrong: seq<T>)
    requires NoDup(wrong) && answer !in wrong
    ensures NoDup([answer] + wrong)
  {
    var s := [answer] + wrong;
    forall i, j | 0 <= i < j < |s| ensures s[i] != s[j] {
      assert s[j] == wrong[j - 1];
      if i > 0 {
        assert s[i] == wrong[i - 1];
      }
    }
  }
}
