/**
 Putting the rows of a list in a requested order with as few moves as possible: rows on a longest
 increasing run of positions stay, every other row is placed in front of its successor.
 */
module StatusPaint {

  // ----- increasing runs -----

  /** Indices, in order, of known positions that strictly increase. */
  ghost predicate IsRun(positions: seq<int>, run: seq<int>) {
    run == [] ||
      var n := |run| - 1;
      && 0 <= run[n] < |positions| && positions[run[n]] >= 0
      && IsRun(positions, run[..n])
      && (n > 0 ==> run[n - 1] < run[n] && positions[run[n - 1]] < positions[run[n]])
  }

  /** Not only neighbours increase. */
  lemma {:induction false} RunIncreases(positions: seq<int>, run: seq<int>, j: nat, k: nat)
    requires IsRun(positions, run) && j < k < |run|
    ensures 0 <= run[j] < run[k] < |positions| && 0 <= positions[run[j]] < positions[run[k]]
    decreases |run|
  {
    var n := |run| - 1;
    if k < n {
      RunIncreases(positions, run[..n], j, k);
    } else if j < n - 1 {
      RunIncreases(positions, run[..n], j, n - 1);
    }
  }

  /** The indices met by following the back pointers from `index`, oldest first. */
  function Chain(previous: seq<int>, index: int): seq<int>
    requires index < |previous|
    requires forall j :: 0 <= j < |previous| ==> -1 <= previous[j] < j
    decreases index
  {
    if index < 0 then [] else Chain(previous, previous[index]) + [index]
  }

  /** How many indices the back pointers lead through. */
  function ChainLength(previous: seq<int>, index: int): nat
    requires index < |previous|
    requires forall j :: 0 <= j < |previous| ==> -1 <= previous[j] < j
    decreases index
  {
    if index < 0 then 0 else ChainLength(previous, previous[index]) + 1
  }

  lemma {:induction false} ChainHasLength(previous: seq<int>, index: int)
    requires index < |previous|
    requires forall j :: 0 <= j < |previous| ==> -1 <= previous[j] < j
    ensures |Chain(previous, index)| == ChainLength(previous, index)
    decreases index
  {
    if index >= 0 {
      ChainHasLength(previous, previous[index]);
    }
  }

  lemma {:induction false} RunExtended(positions: seq<int>, run: seq<int>, index: int)
    requires IsRun(positions, run) && 0 <= index < |positions| && positions[index] >= 0
    requires run != [] ==> run[|run| - 1] < index && positions[run[|run| - 1]] < positions[index]
    ensures IsRun(positions, run + [index])
  {
    assert (run + [index])[..|run|] == run;
  }

  lemma {:induction false} ChainIsRun(positions: seq<int>, previous: seq<int>, index: int)
    requires BackPointers(positions, previous)
    requires 0 <= index < |previous| && positions[index] >= 0
    ensures IsRun(positions, Chain(previous, index))
    ensures Chain(previous, index) != [] && Chain(previous, index)[|Chain(previous, index)| - 1] == index
    decreases index
  {
    if previous[index] >= 0 {
      ChainIsRun(positions, previous, previous[index]);
    }
    RunExtended(positions, Chain(previous, previous[index]), index);
  }

  lemma {:induction false} ChainOfLonger(previous: seq<int>, last: int, index: int)
    requires index < |previous| && -1 <= last < |previous|
    requires forall j :: 0 <= j < |previous| ==> -1 <= previous[j] < j
    ensures ChainLength(previous + [last], index) == ChainLength(previous, index)
    decreases index
  {
    if index >= 0 {
      ChainOfLonger(previous, last, previous[index]);
    }
  }

  ghost predicate BackPointers(positions: seq<int>, previous: seq<int>) {
    && |previous| <= |positions|
    && (forall j :: 0 <= j < |previous| ==> -1 <= previous[j] < j)
    && (forall j {:trigger previous[j]} :: 0 <= j < |previous| && previous[j] >= 0 ==>
          positions[previous[j]] >= 0 && positions[previous[j]] < positions[j])
  }

  /** A run, not empty, of which every index is below `count`. */
  ghost predicate RunBelow(positions: seq<int>, count: nat, run: seq<int>) {
    IsRun(positions, run) && run != [] && run[|run| - 1] < count
  }

  /** `tails[l]` ends a run of length `l + 1` among the first `count` positions... */
  ghost predicate TailsEndRuns(positions: seq<int>, count: nat, previous: seq<int>, tails: seq<int>) {
    && count == |previous| && BackPointers(positions, previous)
    && (forall l :: 0 <= l < |tails| ==>
          0 <= tails[l] < count && positions[tails[l]] >= 0 && ChainLength(previous, tails[l]) == l + 1)
    && (forall l, m :: 0 <= l < m < |tails| ==> positions[tails[l]] < positions[tails[m]])
  }

  /** ... and there no run of that length ends lower, and none is longer. */
  ghost predicate NoRunEndsLower(positions: seq<int>, count: nat, tails: seq<int>)
    requires forall l :: 0 <= l < |tails| ==> 0 <= tails[l] < |positions|
  {
    forall run :: RunBelow(positions, count, run) ==>
      |run| <= |tails| && positions[tails[|run| - 1]] <= positions[run[|run| - 1]]
  }

  ghost predicate Tails(positions: seq<int>, count: nat, previous: seq<int>, tails: seq<int>) {
    TailsEndRuns(positions, count, previous, tails) && NoRunEndsLower(positions, count, tails)
  }

  lemma {:induction false} ShorterRun(positions: seq<int>, run: seq<int>)
    requires IsRun(positions, run) && |run| > 1
    ensures RunBelow(positions, run[|run| - 1], run[..|run| - 1])
    ensures positions[run[|run| - 2]] < positions[run[|run| - 1]]
  {
  }

  lemma {:induction false} ChainsAfterSkipping(positions: seq<int>, count: nat, previous: seq<int>, tails: seq<int>)
    requires count < |positions|
    requires TailsEndRuns(positions, count, previous, tails)
    ensures TailsEndRuns(positions, count + 1, previous + [-1], tails)
  {
    forall l | 0 <= l < |tails|
      ensures ChainLength(previous + [-1], tails[l]) == l + 1
    {
      ChainOfLonger(previous, -1, tails[l]);
    }
  }

  lemma {:induction false} TailsSkip(positions: seq<int>, count: nat, previous: seq<int>, tails: seq<int>)
    requires count < |positions| && positions[count] < 0
    requires Tails(positions, count, previous, tails)
    ensures Tails(positions, count + 1, previous + [-1], tails)
  {
    ChainsAfterSkipping(positions, count, previous, tails);
    forall run | RunBelow(positions, count + 1, run)
      ensures RunBelow(positions, count, run)
    {
      assert positions[run[|run| - 1]] >= 0;
    }
  }

  /** Where the binary search ends: the number of tails below the new position. */
  ghost predicate InsertionPoint(positions: seq<int>, tails: seq<int>, position: int, low: nat)
    requires forall l :: 0 <= l < |tails| ==> 0 <= tails[l] < |positions|
  {
    && low <= |tails|
    && (forall l :: 0 <= l < low ==> positions[tails[l]] < position)
    && (forall l :: low <= l < |tails| ==> positions[tails[l]] >= position)
  }

  function WithTail(tails: seq<int>, low: nat, index: int): seq<int>
    requires low <= |tails|
  {
    if low < |tails| then tails[low := index] else tails + [index]
  }

  lemma {:induction false} RunsAfterPlacing(positions: seq<int>, count: nat, tails: seq<int>, low: nat, run: seq<int>)
    requires count < |positions| && positions[count] >= 0
    requires forall l :: 0 <= l < |tails| ==> 0 <= tails[l] < count
    requires NoRunEndsLower(positions, count, tails)
    requires InsertionPoint(positions, tails, positions[count], low)
    requires RunBelow(positions, count + 1, run)
    ensures
      var tails' := WithTail(tails, low, count);
      |run| <= |tails'| && positions[tails'[|run| - 1]] <= positions[run[|run| - 1]]
  {
    var n := |run| - 1;
    if run[n] < count {
      assert RunBelow(positions, count, run);
    } else {
      if n > 0 {
        ShorterRun(positions, run);
        assert RunBelow(positions, count, run[..n]);
        assert positions[tails[n - 1]] < positions[count];
      }
      assert n <= low;
      assert WithTail(tails, low, count)[n] == if n < low then tails[n] else count;
    }
  }

  lemma {:induction false} ChainsAfterPlacing(
    positions: seq<int>, count: nat, previous: seq<int>, tails: seq<int>, low: nat)
    requires count < |positions| && positions[count] >= 0
    requires TailsEndRuns(positions, count, previous, tails)
    requires InsertionPoint(positions, tails, positions[count], low)
    ensures
      var before := if low > 0 then tails[low - 1] else -1;
      TailsEndRuns(positions, count + 1, previous + [before], WithTail(tails, low, count))
  {
    var last := if low > 0 then tails[low - 1] else -1;
    var previous', tails' := previous + [last], WithTail(tails, low, count);
    forall l | 0 <= l < |tails'|
      ensures ChainLength(previous', tails'[l]) == l + 1
    {
      ChainOfLonger(previous, last, if l == low then last else tails[l]);
    }
    forall l, m | 0 <= l < m < |tails'|
      ensures positions[tails'[l]] < positions[tails'[m]]
    {
      if l == low {
        assert positions[tails[low]] < positions[tails[m]];
      } else if m != low {
        assert positions[tails[l]] < positions[tails[m]];
      }
    }
  }

  lemma {:induction false} TailsPlace(positions: seq<int>, count: nat, previous: seq<int>, tails: seq<int>, low: nat)
    requires count < |positions| && positions[count] >= 0
    requires Tails(positions, count, previous, tails)
    requires InsertionPoint(positions, tails, positions[count], low)
    ensures
      var before := if low > 0 then tails[low - 1] else -1;
      Tails(positions, count + 1, previous + [before], WithTail(tails, low, count))
  {
    ChainsAfterPlacing(positions, count, previous, tails, low);
    var tails' := WithTail(tails, low, count);
    forall run | RunBelow(positions, count + 1, run)
      ensures |run| <= |tails'| && positions[tails'[|run| - 1]] <= positions[run[|run| - 1]]
    {
      RunsAfterPlacing(positions, count, tails, low, run);
    }
  }

  lemma {:induction false} RunElements(positions: seq<int>, run: seq<int>)
    requires IsRun(positions, run)
    ensures |set k | 0 <= k < |run| :: run[k]| == |run|
  {
    var elements := set k | 0 <= k < |run| :: run[k];
    if run != [] {
      var n := |run| - 1;
      RunElements(positions, run[..n]);
      var fewer := set k | 0 <= k < n :: run[..n][k];
      forall k | 0 <= k < n
        ensures run[..n][k] != run[n]
      {
        RunIncreases(positions, run, k, n);
      }
      assert elements == fewer + {run[n]};
    }
  }

  /** The binary search for the first tail that is not below a position. */
  method FindTail(positions: seq<int>, ghost count: nat, ghost previous: seq<int>, tails: seq<int>, position: int)
    returns (low: nat)
    requires TailsEndRuns(positions, count, previous, tails)
    ensures InsertionPoint(positions, tails, position, low)
  {
    low := 0;
    var high := |tails|;
    while low < high
      invariant 0 <= low <= high <= |tails|
      invariant forall l :: 0 <= l < low ==> positions[tails[l]] < position
      invariant forall l :: high <= l < |tails| ==> positions[tails[l]] >= position
    {
      var middle := (low + high) / 2;
      if positions[tails[middle]] < position {
        low := middle + 1;
      } else {
        high := middle;
      }
    }
  }

  /** The elements met by following the back pointers. */
  method FollowBackPointers(previousIndexOf: array<int>, start: int) returns (keptIndices: set<int>)
    requires -1 <= start < previousIndexOf.Length
    requires forall j :: 0 <= j < previousIndexOf.Length ==> -1 <= previousIndexOf[j] < j
    ensures var run := Chain(previousIndexOf[..], start); keptIndices == set k | 0 <= k < |run| :: run[k]
  {
    ghost var previous := previousIndexOf[..];
    ghost var run := Chain(previous, start);
    keptIndices := {};
    var index := start;
    while index >= 0
      invariant -1 <= index < |previous|
      invariant Chain(previous, index) <= run
      invariant keptIndices == set k | |Chain(previous, index)| <= k < |run| :: run[k]
      decreases index
    {
      assert run[|Chain(previous, index)| - 1] == index;
      keptIndices := keptIndices + {index};
      index := previousIndexOf[index];
    }
  }

  /** The pass over the positions: the tails of the best runs, and the pointers back through them. */
  method BuildTails(positions: seq<int>) returns (previousIndexOf: array<int>, tailIndexByLength: seq<int>)
    ensures fresh(previousIndexOf)
    ensures Tails(positions, |positions|, previousIndexOf[..], tailIndexByLength)
  {
    tailIndexByLength := [];
    previousIndexOf := new int[|positions|];
    ghost var previous: seq<int> := [];
    var i := 0;
    while i < |positions|
      invariant 0 <= i <= |positions| && previousIndexOf[..i] == previous
      invariant Tails(positions, i, previous, tailIndexByLength)
    {
      var last := -1;
      if positions[i] < 0 {
        TailsSkip(positions, i, previous, tailIndexByLength);
      } else {
        var low := FindTail(positions, i, previous, tailIndexByLength, positions[i]);
        TailsPlace(positions, i, previous, tailIndexByLength, low);
        last := if low > 0 then tailIndexByLength[low - 1] else -1;
        tailIndexByLength := WithTail(tailIndexByLength, low, i);
      }
      previousIndexOf[i] := last;
      previous := previous + [last];
      i := i + 1;
    }
    assert previousIndexOf[..] == previous;
  }

  /** A longest strictly increasing run of the positions that are not negative: returned are its
      indices, and no run has more. */
  method LongestIncreasingRunIndices(positions: seq<int>) returns (keptIndices: set<int>, ghost run: seq<int>)
    ensures IsRun(positions, run) && keptIndices == set k | 0 <= k < |run| :: run[k]
    ensures |keptIndices| == |run|
    ensures forall other :: IsRun(positions, other) ==> |other| <= |keptIndices|
  {
    var previousIndexOf, tailIndexByLength := BuildTails(positions);
    ghost var previous := previousIndexOf[..];
    TailsBoundRuns(positions, previous, tailIndexByLength);
    var index := if tailIndexByLength == [] then -1 else tailIndexByLength[|tailIndexByLength| - 1];
    run := Chain(previous, index);
    if index >= 0 {
      ChainIsRun(positions, previous, index);
    }
    ChainHasLength(previous, index);
    keptIndices := FollowBackPointers(previousIndexOf, index);
    RunElements(positions, run);
  }

  lemma {:induction false} TailsBoundRuns(positions: seq<int>, previous: seq<int>, tails: seq<int>)
    requires Tails(positions, |positions|, previous, tails)
    ensures forall run :: IsRun(positions, run) ==> |run| <= |tails|
  {
    forall run | IsRun(positions, run)
      ensures |run| <= |tails|
    {
      if run != [] {
        assert RunBelow(positions, |positions|, run);
      }
    }
  }
}
