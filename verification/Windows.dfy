/** Event times against sliding windows. */
module Windows {
  import opened Common

  predicate Nondecreasing(times: seq<nat>) {
    forall i, j | 0 <= i < j < |times| :: times[i] <= times[j]
  }

  /** The event `gap` places later lies at least a whole window later. */
  predicate Spaced(times: seq<nat>, gap: nat, width: nat) {
    forall i, j | 0 <= i && i + gap <= j < |times| :: times[i] + width <= times[j]
  }

  /** Indices of the events inside the half-open window beginning at `from`. */
  function InWindow(times: seq<nat>, from: nat, width: nat): set<nat> {
    set i: nat | i < |times| && from <= times[i] < from + width
  }

  function Range(first: nat, n: nat): (r: set<nat>)
    ensures forall i :: i in r <==> first <= i < first + n
    ensures |r| == n
  {
    if n == 0 then {} else Range(first, n - 1) + {first + n - 1}
  }

  /** No window holds more than `gap` spaced events. */
  lemma SpacedWindow(times: seq<nat>, gap: nat, width: nat, from: nat)
    requires Nondecreasing(times) && Spaced(times, gap, width)
    ensures |InWindow(times, from, width)| <= gap
  {
    var inside := InWindow(times, from, width);
    if inside != {} {
      LeastExists(inside);
      var first: nat :| IsLeast(first, inside);
      forall i | i in inside ensures i in Range(first, gap) {
        assert first <= i;
      }
      SubsetCard(inside, Range(first, gap));
    }
  }
}
