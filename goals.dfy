/**
 * The goal record shared by the popup, the statistics page and the service
 * worker. The popup stores `createdAt` as an ISO timestamp and `deadline` as
 * the date text entered by the user; the model keeps what the code derives
 * from them: the date key of `createdAt` and the instant `new Date(deadline)`.
 */
module Goals {
  import opened Wrappers

  datatype Goal = Goal(
    text: string,
    completed: bool,
    /** `new Date(createdAt).toDateString()`; none when `createdAt` is missing. */
    createdDay: Option<string>,
    /** `new Date(deadline)` in ms; none when there is no deadline or it does not parse. */
    deadline: Option<int>)

  /** The goals of `goals` satisfying `keep`, in their original order (`Array.prototype.filter`). */
  function Filter(goals: seq<Goal>, keep: Goal -> bool): (r: seq<Goal>)
    ensures |r| <= |goals|
    ensures forall i :: 0 <= i < |r| ==> keep(r[i]) && r[i] in goals
    ensures forall g :: g in goals && keep(g) ==> g in r
    ensures (forall i :: 0 <= i < |goals| ==> keep(goals[i])) ==> r == goals
  {
    if goals == [] then []
    else (if keep(goals[0]) then [goals[0]] else []) + Filter(goals[1..], keep)
  }

  /** Filtering keeps the survivors' relative order: it distributes over concatenation. */
  lemma {:induction false} FilterConcat(a: seq<Goal>, b: seq<Goal>, keep: Goal -> bool)
    ensures Filter(a + b, keep) == Filter(a, keep) + Filter(b, keep)
  {
    if a == [] {
      assert a + b == b;
    } else {
      var head := if keep(a[0]) then [a[0]] else [];
      calc {
        Filter(a + b, keep);
        == { assert (a + b)[0] == a[0] && (a + b)[1..] == a[1..] + b; }
        head + Filter(a[1..] + b, keep);
        == { FilterConcat(a[1..], b, keep); }
        head + (Filter(a[1..], keep) + Filter(b, keep));
      }
    }
  }

  /** A goal that `keep` refuses makes the result shorter. */
  lemma {:induction false} FilterDrops(goals: seq<Goal>, keep: Goal -> bool, i: nat)
    requires i < |goals| && !keep(goals[i])
    ensures |Filter(goals, keep)| < |goals|
  {
    if i > 0 {
      FilterDrops(goals[1..], keep, i - 1);
    }
  }
}
