/**
 * Waiting for the transcript to stop growing: its size is read up to ten
 * times, with a 200 ms sleep after every reading that differs from the one
 * before.
 */
module Poller {
  import opened Wrappers

  /** The bound on size checks. */
  const MaxChecks: nat := 10

  /** The size a check sees: a failed `statSync` reads as size 0. */
  function ObservedSize(stat: Option<nat>): (size: nat)
    ensures stat.Some? ==> size == stat.value
    ensures stat.None? ==> size == 0
  {
    stat.GetOr(0)
  }

  /**
   * Check `j` (counting from 0) sees the same size as check `j - 1`.
   * The first check has nothing before it: the previous size starts at -1,
   * which no size equals.
   */
  predicate RepeatsAt(stat: nat -> Option<nat>, j: nat) {
    0 < j && ObservedSize(stat(j)) == ObservedSize(stat(j - 1))
  }

  /**
   * What the poll loop does when the `j`-th `statSync` gives `stat(j)`: it
   * performs `checks` checks, stopping at the first repeated size or after
   * `MaxChecks`, and sleeps once after every check that did not stop it.
   */
  predicate Settled(stat: nat -> Option<nat>, checks: nat, sleeps: nat) {
    && 1 <= checks <= MaxChecks
    && (forall j :: 0 <= j < checks - 1 ==> !RepeatsAt(stat, j))
    && (if RepeatsAt(stat, checks - 1) then sleeps == checks - 1
        else checks == MaxChecks && sleeps == MaxChecks)
  }

  /** The poll loop, with `stat(i)` standing for the result of the `i`-th `statSync`. */
  method PollUntilStable(stat: nat -> Option<nat>) returns (checks: nat, sleeps: nat)
    ensures Settled(stat, checks, sleeps)
  {
    var prevSize: int := -1;
    checks, sleeps := 0, 0;
    var i := 0;
    while i < MaxChecks
      invariant 0 <= i <= MaxChecks
      invariant checks == i && sleeps == i
      invariant forall j :: 0 <= j < i ==> !RepeatsAt(stat, j)
      invariant prevSize == if i == 0 then -1 else ObservedSize(stat(i - 1)) as int
    {
      var currSize := 0;
      match stat(i) {
        case Some(n) => currSize := n;
        case None =>
      }
      checks := checks + 1;
      if currSize == prevSize {
        break;
      }
      prevSize := currSize;
      sleeps := sleeps + 1;
      i := i + 1;
    }
  }

  /** The observed sizes determine the number of checks and sleeps. */
  lemma SettledUnique(stat: nat -> Option<nat>, c1: nat, s1: nat, c2: nat, s2: nat)
    requires Settled(stat, c1, s1) && Settled(stat, c2, s2)
    ensures c1 == c2 && s1 == s2
  {
  }

  /** The first check never ends the wait, and every check that does not end it is followed by one sleep. */
  lemma SettledSleeps(stat: nat -> Option<nat>, checks: nat, sleeps: nat)
    requires Settled(stat, checks, sleeps)
    ensures 1 <= sleeps <= checks
    ensures sleeps == checks <==> !RepeatsAt(stat, checks - 1)
  {
  }

  /** A size that repeats before the bound ends the wait at its first repetition, early. */
  lemma SettledStopsAtFirstRepeat(stat: nat -> Option<nat>, k: nat, checks: nat, sleeps: nat)
    requires 0 < k < MaxChecks && RepeatsAt(stat, k)
    requires forall j :: 0 <= j < k ==> !RepeatsAt(stat, j)
    requires Settled(stat, checks, sleeps)
    ensures checks == k + 1 < MaxChecks + 1 && sleeps == k
  {
  }

  /** Sizes that never repeat within the bound use up all ten checks and ten sleeps. */
  lemma SettledNeverStable(stat: nat -> Option<nat>, checks: nat, sleeps: nat)
    requires forall j :: 0 <= j < MaxChecks ==> !RepeatsAt(stat, j)
    requires Settled(stat, checks, sleeps)
    ensures checks == MaxChecks && sleeps == MaxChecks
  {
  }
}
