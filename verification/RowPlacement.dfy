/**
 Placing rows in a requested order: what the list is afterwards, and that no shorter sequence of
 single-row moves reaches that order.
 */
module RowPlacement {
  import opened StatusPaint
  import opened Wrappers

  // ----- parts of a list -----

  ghost predicate Distinct<T>(s: seq<T>) {
    forall i, j :: 0 <= i < j < |s| ==> s[i] != s[j]
  }

  function Members<T>(s: seq<T>): set<T> {
    set x | x in s
  }

  /** The elements inside a set, or those outside it, in their order. */
  function Part<T(==)>(s: seq<T>, group: set<T>, inside: bool): seq<T> {
    if s == [] then []
    else if (s[0] in group) == inside then [s[0]] + Part(s[1..], group, inside)
    else Part(s[1..], group, inside)
  }

  function Kept<T(==)>(s: seq<T>, group: set<T>): seq<T> { Part(s, group, true) }
  function Others<T(==)>(s: seq<T>, group: set<T>): seq<T> { Part(s, group, false) }

  function IndexOf<T(==)>(s: seq<T>, x: T): (index: int)
    ensures -1 <= index < |s| && (index < 0 <==> x !in s)
    ensures index >= 0 ==> s[index] == x && x !in s[..index]
  {
    if s == [] then -1
    else if s[0] == x then 0
    else
      var rest := IndexOf(s[1..], x);
      if rest < 0 then -1
      else
        assert s[..rest + 1] == [s[0]] + s[1..][..rest];
        rest + 1
  }

  lemma {:induction false} PartConcat<T>(a: seq<T>, b: seq<T>, group: set<T>, inside: bool)
    ensures Part(a + b, group, inside) == Part(a, group, inside) + Part(b, group, inside)
  {
    if a == [] {
      assert a + b == b;
    } else {
      assert (a + b)[1..] == a[1..] + b;
      PartConcat(a[1..], b, group, inside);
    }
  }

  lemma {:induction false} PartMembers<T>(s: seq<T>, group: set<T>, inside: bool)
    ensures forall x :: x in Part(s, group, inside) <==> x in s && (x in group) == inside
  {
    if s != [] {
      PartMembers(s[1..], group, inside);
    }
  }

  lemma {:induction false} PartOfPart<T>(
    s: seq<T>, g1: set<T>, in1: bool, g2: set<T>, in2: bool, g: set<T>, inside: bool)
    requires forall x :: x in s ==> ((x in g1) == in1 && (x in g2) == in2 <==> (x in g) == inside)
    ensures Part(Part(s, g1, in1), g2, in2) == Part(s, g, inside)
  {
    if s != [] {
      PartOfPart(s[1..], g1, in1, g2, in2, g, inside);
    }
  }

  lemma {:induction false} SamePart<T>(s: seq<T>, g1: set<T>, g2: set<T>, inside: bool)
    requires forall x :: x in s ==> (x in g1 <==> x in g2)
    ensures Part(s, g1, inside) == Part(s, g2, inside)
  {
    if s != [] {
      SamePart(s[1..], g1, g2, inside);
    }
  }

  lemma {:induction false} EmptyPart<T>(s: seq<T>, group: set<T>)
    requires forall x :: x in s ==> x !in group
    ensures Kept(s, group) == []
  {
    if s != [] {
      EmptyPart(s[1..], group);
    }
  }

  lemma {:induction false} WholePart<T>(s: seq<T>, group: set<T>)
    requires forall x :: x in s ==> x in group
    ensures Kept(s, group) == s
  {
    if s != [] {
      WholePart(s[1..], group);
    }
  }

  // ----- placing one row -----

  /** What inserting a row in front of another does to the children: the row leaves its old place. */
  function InsertedBefore<T(==)>(children: seq<T>, row: T, next: Option<T>): seq<T> {
    var rest := Others(children, {row});
    match next
    case None => rest + [row]
    case Some(n) =>
      var k := IndexOf(rest, n);
      if k < 0 then rest + [row] else rest[..k] + ([row] + rest[k..])
  }

  /** The two sides of the first `n` in a list. */
  lemma {:induction false} SplitIsUnique<T>(a: seq<T>, b: seq<T>, c: seq<T>, d: seq<T>, n: T)
    requires a + [n] + b == c + [n] + d && n !in a && n !in c
    ensures a == c && b == d
  {
    var s := a + [n] + b;
    assert s[|a|] == n && s[|c|] == n;
    assert forall i :: 0 <= i < |a| ==> s[i] == a[i];
    assert forall i :: 0 <= i < |c| ==> s[i] == c[i];
    assert |a| == |c|;
    assert a == s[..|a|] == c;
    assert b == s[|a| + 1..] == d;
  }

  lemma {:induction false} RestHasNoRow<T>(children: seq<T>, row: T, group: set<T>)
    ensures forall x :: x in Others(children, {row}) ==> (x in group <==> x in group + {row})
  {
    PartMembers(children, {row}, false);
  }

  lemma {:induction false} KeptRowThenNext<T>(before: seq<T>, row: T, next: T, after: seq<T>, group: set<T>)
    requires row in group && next in group
    ensures Kept(before + ([row] + ([next] + after)), group) ==
        Kept(before, group) + ([row] + ([next] + Kept(after, group)))
  {
    PartConcat(before, [row] + ([next] + after), group, true);
    assert ([row] + ([next] + after))[1..] == [next] + after;
    assert ([next] + after)[1..] == after;
  }

  /** The two sides of a watched element hold the watched elements before and after it. */
  lemma {:induction false} KeptSides<T>(
    before: seq<T>, next: T, after: seq<T>, group: set<T>, front: seq<T>, back: seq<T>)
    requires next in group && next !in before && next !in front
    requires Kept(before + ([next] + after), group) == front + [next] + back
    ensures Kept(before, group) == front && Kept(after, group) == back
  {
    PartConcat(before, [next] + after, group, true);
    assert ([next] + after)[1..] == after;
    PartMembers(before, group, true);
    assert Kept(before, group) + [next] + Kept(after, group) == front + [next] + back;
    SplitIsUnique(Kept(before, group), Kept(after, group), front, back, next);
  }

  /** Where in the list the row lands. */
  lemma {:induction false} InsertionSides<T>(children: seq<T>, row: T, next: T)
    returns (before: seq<T>, after: seq<T>)
    requires next in Others(children, {row})
    ensures Others(children, {row}) == before + ([next] + after) && next !in before
    ensures InsertedBefore(children, row, Some(next)) == before + ([row] + ([next] + after))
  {
    var rest := Others(children, {row});
    var k := IndexOf(rest, next);
    before, after := rest[..k], rest[k + 1..];
    SplitAt(rest, k);
  }

  lemma {:induction false} SplitAt<T>(s: seq<T>, k: nat)
    requires k < |s|
    ensures s[k..] == [s[k]] + s[k + 1..] && s == s[..k] + s[k..]
  {
  }

  /** A row put in front of `next` comes, among the rows watched, right in front of it. */
  lemma {:induction false} InsertPutsBefore<T>(
    children: seq<T>, row: T, next: T, group: set<T>, front: seq<T>, back: seq<T>)
    requires row !in group && next in group && next !in front
    requires Kept(children, group) == front + [next] + back
    ensures Kept(InsertedBefore(children, row, Some(next)), group + {row}) == front + ([row] + ([next] + back))
  {
    var rest := Others(children, {row});
    PartOfPart(children, {row}, false, group, true, group, true);
    PartMembers(rest, group, true);
    assert next in front + [next] + back;
    var before, after := InsertionSides(children, row, next);
    KeptSides(before, next, after, group, front, back);
    RestHasNoRow(children, row, group);
    SamePart(before, group, group + {row}, true);
    SamePart(after, group, group + {row}, true);
    KeptRowThenNext(before, row, next, after, group + {row});
  }

  lemma {:induction false} InsertPutsLast<T>(children: seq<T>, row: T, group: set<T>)
    requires row !in group
    ensures Kept(InsertedBefore(children, row, None), group + {row}) == Kept(children, group) + [row]
  {
    var rest := Others(children, {row});
    PartOfPart(children, {row}, false, group, true, group, true);
    RestHasNoRow(children, row, group);
    SamePart(rest, group, group + {row}, true);
    PartConcat(rest, [row], group + {row}, true);
    assert [row][1..] == [];
  }

  lemma {:induction false} RowBetween<T>(a: seq<T>, b: seq<T>, row: T)
    ensures Others(a + ([row] + b), {row}) == Others(a + b, {row})
  {
    PartConcat(a, b, {row}, false);
    PartConcat(a, [row] + b, {row}, false);
    assert ([row] + b)[1..] == b;
  }

  /** Moving a row leaves the order of everything else. */
  lemma {:induction false} InsertLeavesOthers<T>(children: seq<T>, row: T, next: Option<T>)
    ensures Others(InsertedBefore(children, row, next), {row}) == Others(children, {row})
  {
    var rest := Others(children, {row});
    PartOfPart(children, {row}, false, {row}, false, {row}, false);
    var k := if next.Some? && IndexOf(rest, next.value) >= 0 then IndexOf(rest, next.value) else |rest|;
    assert rest[..k] + rest[k..] == rest;
    assert InsertedBefore(children, row, next) == rest[..k] + ([row] + rest[k..]);
    RowBetween(rest[..k], rest[k..], row);
  }

  /** The row stands in the list once: right in front of the first `next`, or last without one. */
  ghost predicate StandsBefore<T>(s: seq<T>, row: T, next: Option<T>) {
    exists at: nat :: StandsAt(s, at, row, next)
  }

  ghost predicate StandsAt<T>(s: seq<T>, at: nat, row: T, next: Option<T>) {
    && at < |s| && s[at] == row && row !in s[..at] && row !in s[at + 1..]
    && match next
       case None => at == |s| - 1
       case Some(n) => at + 1 < |s| && s[at + 1] == n && n !in s[..at]
  }

  lemma {:induction false} InsertedStandsBefore<T>(children: seq<T>, row: T, next: Option<T>)
    requires next.Some? ==> next.value in Others(children, {row})
    ensures StandsBefore(InsertedBefore(children, row, next), row, next)
  {
    var after := InsertedBefore(children, row, next);
    PartMembers(children, {row}, false);
    if next.Some? {
      var before, behind := InsertionSides(children, row, next.value);
      assert after[..|before|] == before && after[|before| + 1..] == [next.value] + behind;
      assert forall x :: x in before + ([next.value] + behind) ==> x != row;
      assert forall x :: x in before ==> x in before + ([next.value] + behind);
      assert forall x :: x in [next.value] + behind ==> x in before + ([next.value] + behind);
      assert StandsAt(after, |before|, row, next);
    } else {
      var rest := Others(children, {row});
      assert after[..|rest|] == rest && after[|rest| + 1..] == [];
      assert StandsAt(after, |rest|, row, next);
    }
  }

  lemma {:induction false} AroundRow<T>(s: seq<T>, at: nat)
    requires at < |s| && s[at] !in s[..at] && s[at] !in s[at + 1..]
    ensures s == s[..at] + ([s[at]] + s[at + 1..])
    ensures Others(s, {s[at]}) == s[..at] + s[at + 1..]
  {
    var front, back := s[..at], s[at + 1..];
    assert s == front + ([s[at]] + back);
    RowBetween(front, back, s[at]);
    NoneTaken(front + back, {s[at]});
  }

  lemma {:induction false} SidesAreUnique<T>(a: seq<T>, b: seq<T>, c: seq<T>, d: seq<T>, n: T)
    requires a + b == c + ([n] + d) && n !in a && n !in c && b != [] && b[0] == n
    ensures a == c && b == [n] + d
  {
    assert b == [n] + b[1..];
    assert a + [n] + b[1..] == a + ([n] + b[1..]);
    assert c + [n] + d == c + ([n] + d);
    SplitIsUnique(a, b[1..], c, d, n);
  }

  /** There is only one such list. */
  lemma {:induction false} InsertionIsUnique<T>(children: seq<T>, after: seq<T>, row: T, next: Option<T>)
    requires next.Some? ==> next.value in Others(children, {row})
    requires Others(after, {row}) == Others(children, {row}) && StandsBefore(after, row, next)
    ensures after == InsertedBefore(children, row, next)
  {
    var at: nat :| StandsAt(after, at, row, next);
    AroundRow(after, at);
    if next.Some? {
      var before, behind := InsertionSides(children, row, next.value);
      SidesAreUnique(after[..at], after[at + 1..], before, behind, next.value);
    } else {
      assert after[at + 1..] == [];
    }
  }

  lemma {:induction false} NoneTaken<T>(s: seq<T>, group: set<T>)
    requires forall x :: x in s ==> x !in group
    ensures Others(s, group) == s
  {
    if s != [] {
      NoneTaken(s[1..], group);
    }
  }

  lemma {:induction false} InsertLeavesOutside<T>(children: seq<T>, row: T, next: Option<T>, group: set<T>)
    requires row in group
    ensures Others(InsertedBefore(children, row, next), group) == Others(children, group)
  {
    var after := InsertedBefore(children, row, next);
    InsertLeavesOthers(children, row, next);
    PartOfPart(children, {row}, false, group, false, group, false);
    PartOfPart(after, {row}, false, group, false, group, false);
  }

  // ----- order in a list -----

  ghost predicate InOrder<T>(s: seq<T>, items: seq<T>) {
    && (forall k :: 0 <= k < |items| ==> items[k] in s)
    && (forall j, k :: 0 <= j < k < |items| ==> IndexOf(s, items[j]) < IndexOf(s, items[k]))
  }

  lemma {:induction false} IndexIsUnique<T>(s: seq<T>, i: nat)
    requires Distinct(s) && i < |s|
    ensures IndexOf(s, s[i]) == i
  {
  }

  lemma {:induction false} IndexInPrefix<T>(s: seq<T>, p: nat, x: T)
    requires p <= |s| && x in s && IndexOf(s, x) < p
    ensures IndexOf(s[..p], x) == IndexOf(s, x)
  {
    var i := IndexOf(s, x);
    assert s[..p][i] == x;
    var j := IndexOf(s[..p], x);
    assert s[..p][..j] == s[..j];
    assert forall q :: 0 <= q < i ==> s[q] in s[..i];
    assert forall q :: 0 <= q < j ==> s[q] in s[..j];
  }

  lemma {:induction false} FewerInPrefix<T>(s: seq<T>, items: seq<T>)
    requires Distinct(s) && InOrder(s, items) && items != []
    ensures
      var n := |items| - 1;
      var before := s[..IndexOf(s, items[n])];
      && InOrder(before, items[..n])
      && (forall y :: y in before ==> (y in Members(items[..n]) <==> y in Members(items)))
  {
    var n := |items| - 1;
    var p := IndexOf(s, items[n]);
    var before := s[..p];
    forall k | 0 <= k < n
      ensures items[k] in before && IndexOf(before, items[k]) == IndexOf(s, items[k])
    {
      assert before[IndexOf(s, items[k])] == items[k];
      IndexInPrefix(s, p, items[k]);
    }
    assert forall k :: 0 <= k < n ==> items[..n][k] == items[k];
    assert items == items[..n] + [items[n]];
  }

  lemma {:induction false} NoneAfterLast<T>(s: seq<T>, items: seq<T>)
    requires Distinct(s) && InOrder(s, items) && items != []
    ensures forall y :: y in s[IndexOf(s, items[|items| - 1]) + 1..] ==> y !in Members(items)
  {
    var p := IndexOf(s, items[|items| - 1]);
    forall y | y in s[p + 1..]
      ensures y !in items
    {
      var j :| 0 <= j < |s[p + 1..]| && s[p + 1..][j] == y;
      IndexIsUnique(s, p + 1 + j);
      assert IndexOf(s, y) > p;
    }
  }

  lemma {:induction false} KeptAround<T>(before: seq<T>, x: T, after: seq<T>, group: set<T>)
    requires x in group && forall y :: y in after ==> y !in group
    ensures Kept(before + [x] + after, group) == Kept(before, group) + [x]
  {
    PartConcat(before + [x], after, group, true);
    PartConcat(before, [x], group, true);
    EmptyPart(after, group);
    assert [x][1..] == [];
  }

  /** Items that come in order are what a list has of them. */
  lemma {:induction false} OrderedItemsAreKept<T>(s: seq<T>, items: seq<T>)
    requires Distinct(s) && InOrder(s, items)
    ensures Kept(s, Members(items)) == items
    decreases |items|
  {
    if items == [] {
      EmptyPart(s, Members(items));
    } else {
      var n := |items| - 1;
      var p := IndexOf(s, items[n]);
      assert s == s[..p] + [items[n]] + s[p + 1..];
      NoneAfterLast(s, items);
      KeptAround(s[..p], items[n], s[p + 1..], Members(items));
      FewerInPrefix(s, items);
      OrderedItemsAreKept(s[..p], items[..n]);
      SamePart(s[..p], Members(items[..n]), Members(items), true);
    }
  }

  /** And what a list has of some elements comes in order. */
  lemma {:induction false} KeptItemsAreOrdered<T>(s: seq<T>, group: set<T>)
    requires Distinct(s)
    ensures InOrder(s, Kept(s, group))
    decreases |s|
  {
    if s != [] {
      var rest := s[1..];
      KeptItemsAreOrdered(rest, group);
      var kept := Kept(rest, group);
      PartMembers(rest, group, true);
      forall k | 0 <= k < |kept|
        ensures kept[k] in s && IndexOf(s, kept[k]) == 1 + IndexOf(rest, kept[k])
      {
        assert kept[k] in rest;
        var j :| 0 <= j < |rest| && rest[j] == kept[k];
        assert s[1 + j] == kept[k];
      }
      if s[0] in group {
        assert Kept(s, group) == [s[0]] + kept;
        assert IndexOf(s, s[0]) == 0;
      }
    }
  }

  // ----- the rows that stay -----

  function PositionsOf<T(==)>(children: seq<T>, rows: seq<T>): (positions: seq<int>)
    ensures |positions| == |rows|
  {
    seq(|rows|, i requires 0 <= i < |rows| => IndexOf(children, rows[i]))
  }

  /** The rows below `count` that stay, in order. */
  function Staying<T>(rows: seq<T>, kept: set<int>, count: nat): seq<T>
    requires count <= |rows|
  {
    if count == 0 then []
    else if count - 1 in kept then Staying(rows, kept, count - 1) + [rows[count - 1]]
    else Staying(rows, kept, count - 1)
  }

  ghost predicate KeepsRun(positions: seq<int>, kept: set<int>) {
    && (forall a :: a in kept ==> 0 <= a < |positions| && positions[a] >= 0)
    && (forall a, b :: a in kept && b in kept && a < b ==> positions[a] < positions[b])
  }

  lemma {:induction false} RunIsKept(positions: seq<int>, run: seq<int>)
    requires IsRun(positions, run)
    ensures KeepsRun(positions, set k | 0 <= k < |run| :: run[k])
  {
    var kept := set k | 0 <= k < |run| :: run[k];
    forall x: nat, y: nat | x < y < |run|
      ensures 0 <= run[x] < run[y] < |positions| && 0 <= positions[run[x]] < positions[run[y]]
    {
      RunIncreases(positions, run, x, y);
    }
    if |run| == 1 {
      assert run[0] < |positions|;
    }
    forall a, b | a in kept && b in kept && a < b
      ensures positions[a] < positions[b]
    {
      var x :| 0 <= x < |run| && run[x] == a;
      var y :| 0 <= y < |run| && run[y] == b;
      assert x < y;
    }
    forall a | a in kept
      ensures 0 <= a < |positions| && positions[a] >= 0
    {
      var x :| 0 <= x < |run| && run[x] == a;
      if x > 0 {
        assert run[0] < run[x];
      } else if |run| > 1 {
        assert run[x] < run[1];
      }
    }
  }

  lemma {:induction false} StayingMembers<T>(rows: seq<T>, kept: set<int>, count: nat)
    requires count <= |rows|
    ensures forall x :: x in Staying(rows, kept, count) <==> exists a :: 0 <= a < count && a in kept && rows[a] == x
  {
    if count > 0 {
      StayingMembers(rows, kept, count - 1);
    }
  }

  /** The rows that stay are already in order. */
  lemma {:induction false} StayingInOrder<T>(children: seq<T>, rows: seq<T>, kept: set<int>, count: nat)
    requires count <= |rows| && KeepsRun(PositionsOf(children, rows), kept)
    ensures InOrder(children, Staying(rows, kept, count))
  {
    if count > 0 {
      StayingInOrder(children, rows, kept, count - 1);
      StayingMembers(rows, kept, count - 1);
      var fewer := Staying(rows, kept, count - 1);
      if count - 1 in kept {
        forall k | 0 <= k < |fewer|
          ensures IndexOf(children, fewer[k]) < IndexOf(children, rows[count - 1])
        {
          assert fewer[k] in fewer;
          var a :| 0 <= a < count - 1 && a in kept && rows[a] == fewer[k];
          assert PositionsOf(children, rows)[a] < PositionsOf(children, rows)[count - 1];
        }
        assert PositionsOf(children, rows)[count - 1] >= 0;
      }
    }
  }

  // ----- placing them all -----

  /** While rows are placed from the last to the first: those from `count` on, and before them those
      still to come that stay, are in order. */
  ghost predicate PlacedFrom<T>(children: seq<T>, rows: seq<T>, kept: set<int>, count: nat)
    requires count <= |rows|
  {
    var staying := Staying(rows, kept, count);
    Kept(children, Members(staying + rows[count..])) == staying + rows[count..]
  }

  lemma {:induction false} PlaceNext<T>(children: seq<T>, rows: seq<T>, kept: set<int>, count: nat)
    requires Distinct(rows) && 0 < count <= |rows| && PlacedFrom(children, rows, kept, count)
    ensures count < |rows| ==> rows[count] in Others(children, {rows[count - 1]})
    ensures
      var next := if count < |rows| then Some(rows[count]) else None;
      var after := if count - 1 in kept then children else InsertedBefore(children, rows[count - 1], next);
      PlacedFrom(after, rows, kept, count - 1)
  {
    var row := rows[count - 1];
    var staying, placed := Staying(rows, kept, count), rows[count..];
    var group := Members(staying + placed);
    assert rows[count - 1..] == [row] + placed;
    PartMembers(children, group, true);
    PartMembers(children, {row}, false);
    if count < |rows| {
      assert placed[0] == rows[count] && rows[count] in staying + placed;
    }
    if count - 1 in kept {
      assert staying + placed == Staying(rows, kept, count - 1) + rows[count - 1..];
    } else {
      StayingMembers(rows, kept, count);
      assert row !in group;
      assert Members(staying + rows[count - 1..]) == group + {row};
      if count < |rows| {
        assert placed == [rows[count]] + rows[count + 1..];
        assert staying + placed == staying + [rows[count]] + rows[count + 1..];
        assert rows[count] !in staying;
        InsertPutsBefore(children, row, rows[count], group, staying, rows[count + 1..]);
        assert rows[count - 1..] == [row] + ([rows[count]] + rows[count + 1..]);
      } else {
        assert staying + placed == staying;
        InsertPutsLast(children, row, group);
        assert staying + [row] == staying + rows[count - 1..];
      }
    }
  }

  // ----- no shorter way -----

  /** A plan: each step takes one element and puts it anywhere, leaving the order of the rest. */
  ghost predicate IsPlan<T>(lists: seq<seq<T>>, moved: seq<T>) {
    && |lists| == |moved| + 1
    && forall i :: 0 <= i < |moved| ==> Others(lists[i + 1], {moved[i]}) == Others(lists[i], {moved[i]})
  }

  /** It reaches an order in which the rows come as requested. */
  ghost predicate Reaches<T>(lists: seq<seq<T>>, moved: seq<T>, from: seq<T>, rows: seq<T>) {
    && IsPlan(lists, moved) && lists[0] == from
    && Kept(lists[|moved|], Members(rows)) == rows
  }

  lemma {:induction false} UnmovedKeepOrder<T>(lists: seq<seq<T>>, moved: seq<T>, count: nat)
    requires IsPlan(lists, moved) && count <= |moved|
    ensures Others(lists[count], Members(moved)) == Others(lists[0], Members(moved))
  {
    if count > 0 {
      UnmovedKeepOrder(lists, moved, count - 1);
      var x := moved[count - 1];
      assert x in moved;
      PartOfPart(lists[count], {x}, false, Members(moved), false, Members(moved), false);
      PartOfPart(lists[count - 1], {x}, false, Members(moved), false, Members(moved), false);
    }
  }

  /** The indices of the rows outside a set. */
  function IndicesOutside<T(==)>(rows: seq<T>, group: set<T>, count: nat): seq<int>
    requires count <= |rows|
  {
    if count == 0 then []
    else if rows[count - 1] in group then IndicesOutside(rows, group, count - 1)
    else IndicesOutside(rows, group, count - 1) + [count - 1]
  }

  lemma {:induction false} IndicesAreRows<T>(rows: seq<T>, group: set<T>, count: nat)
    requires count <= |rows|
    ensures
      var indices := IndicesOutside(rows, group, count);
      && |indices| == |Others(rows[..count], group)|
      && (forall k :: 0 <= k < |indices| ==>
          0 <= indices[k] < count && rows[indices[k]] == Others(rows[..count], group)[k])
  {
    if count > 0 {
      IndicesAreRows(rows, group, count - 1);
      assert rows[..count] == rows[..count - 1] + [rows[count - 1]];
      PartConcat(rows[..count - 1], [rows[count - 1]], group, false);
      assert [rows[count - 1]][1..] == [];
    }
  }

  lemma {:induction false} ManyOutside<T>(rows: seq<T>, group: set<T>, count: nat)
    requires Distinct(rows) && count <= |rows|
    ensures |IndicesOutside(rows, group, count)| + |group * Members(rows[..count])| == count
  {
    if count == 0 {
      assert group * Members(rows[..0]) == {};
    } else {
      ManyOutside(rows, group, count - 1);
      var x, fewer := rows[count - 1], Members(rows[..count - 1]);
      assert rows[..count] == rows[..count - 1] + [x];
      assert x !in fewer;
      assert Members(rows[..count]) == fewer + {x};
      if x in group {
        assert group * Members(rows[..count]) == group * fewer + {x};
      } else {
        assert group * Members(rows[..count]) == group * fewer;
      }
    }
  }

  lemma {:induction false} MembersAreFew<T>(s: seq<T>)
    ensures |Members(s)| <= |s|
  {
    if s == [] {
      assert Members(s) == {};
    } else {
      MembersAreFew(s[1..]);
      assert Members(s) == Members(s[1..]) + {s[0]};
    }
  }

  lemma {:induction false} SubsetIsSmaller<T>(a: set<T>, b: set<T>)
    requires a <= b
    ensures |a| <= |b|
  {
    assert b == a + (b - a);
  }

  /** Rows that keep their order among the children form a run of positions. */
  lemma {:induction false} UnmovedFormRun<T>(children: seq<T>, rows: seq<T>, group: set<T>, count: nat)
    requires count <= |rows| && InOrder(children, Others(rows[..count], group))
    ensures IsRun(PositionsOf(children, rows), IndicesOutside(rows, group, count))
  {
    if count > 0 {
      var positions := PositionsOf(children, rows);
      var items, fewer := Others(rows[..count], group), Others(rows[..count - 1], group);
      assert rows[..count] == rows[..count - 1] + [rows[count - 1]];
      PartConcat(rows[..count - 1], [rows[count - 1]], group, false);
      assert [rows[count - 1]][1..] == [];
      assert items == fewer || items == fewer + [rows[count - 1]];
      assert InOrder(children, fewer) by {
        assert forall k :: 0 <= k < |fewer| ==> items[k] == fewer[k];
      }
      UnmovedFormRun(children, rows, group, count - 1);
      IndicesAreRows(rows, group, count - 1);
      var indices := IndicesOutside(rows, group, count - 1);
      if rows[count - 1] !in group {
        assert items[|fewer|] == rows[count - 1];
        if indices != [] {
          var last := |fewer| - 1;
          assert IndexOf(children, items[last]) < IndexOf(children, items[|fewer|]);
        }
        RunExtended(positions, indices, count - 1);
      }
    }
  }

  /** Whatever plan reaches the order, the rows it does not move form a run: so it has at least as
      many steps as there are rows beyond the longest run. */
  lemma {:induction false} PlansMoveTheRest<T>(lists: seq<seq<T>>, moved: seq<T>, children: seq<T>, rows: seq<T>)
    requires Distinct(children) && Distinct(rows) && Reaches(lists, moved, children, rows)
    ensures IsRun(PositionsOf(children, rows), IndicesOutside(rows, Members(moved), |rows|))
    ensures |IndicesOutside(rows, Members(moved), |rows|)| >= |rows| - |moved|
  {
    var group, wanted, final := Members(moved), Members(rows), lists[|moved|];
    UnmovedKeepOrder(lists, moved, |moved|);
    PartOfPart(final, wanted, true, group, false, wanted - group, true);
    PartOfPart(final, group, false, wanted, true, wanted - group, true);
    PartOfPart(children, group, false, wanted, true, wanted - group, true);
    assert Others(rows, group) == Kept(children, wanted - group);
    KeptItemsAreOrdered(children, wanted - group);
    assert rows[..|rows|] == rows;
    UnmovedFormRun(children, rows, group, |rows|);
    ManyOutside(rows, group, |rows|);
    MembersAreFew(moved);
    SubsetIsSmaller(group * Members(rows), group);
  }

  // ----- the list -----

  /** A list element and its children; a document holds each element at most once. */
  class ElementList<T(==)> {
    var children: seq<T>

    constructor (children: seq<T>)
      ensures this.children == children
    {
      this.children := children;
    }

    /** The document's own operation: it refuses a reference element that is not a child. The other
        children keep their order, and the row stands once, right in front of the reference or last. */
    method InsertBefore(row: T, next: Option<T>)
      requires next.Some? ==> next.value in Others(children, {row})
      modifies this
      ensures Others(children, {row}) == Others(old(children), {row})
      ensures StandsBefore(children, row, next)
    {
      InsertLeavesOthers(children, row, next);
      InsertedStandsBefore(children, row, next);
      children := InsertedBefore(children, row, next);
    }
  }

  /** How many rows from `index` on do not stay. */
  function Leaving(kept: set<int>, index: nat, count: nat): nat
    requires index <= count
    decreases count - index
  {
    if index == count then 0 else Leaving(kept, index + 1, count) + (if index in kept then 0 else 1)
  }

  lemma {:induction false} LeavingCount(kept: set<int>, index: nat, count: nat)
    requires index <= count && forall a :: a in kept ==> index <= a < count
    ensures Leaving(kept, index, count) == count - index - |kept|
    decreases count - index
  {
    if index == count {
      assert kept == {};
    } else {
      LeavingCount(kept - {index}, index + 1, count);
      LeavingSame(kept, kept - {index}, index + 1, count);
    }
  }

  lemma {:induction false} LeavingSame(k1: set<int>, k2: set<int>, index: nat, count: nat)
    requires index <= count && forall a :: index <= a < count ==> (a in k1 <==> a in k2)
    ensures Leaving(k1, index, count) == Leaving(k2, index, count)
    decreases count - index
  {
    if index < count {
      LeavingSame(k1, k2, index + 1, count);
    }
  }

  lemma {:induction false} NoShorterPlan<T(!new)>(children: seq<T>, rows: seq<T>, kept: set<int>)
    requires Distinct(children) && Distinct(rows)
    requires forall other :: IsRun(PositionsOf(children, rows), other) ==> |other| <= |kept|
    ensures forall lists: seq<seq<T>>, moved :: Reaches(lists, moved, children, rows) ==> |rows| - |kept| <= |moved|
  {
    forall lists: seq<seq<T>>, moved | Reaches(lists, moved, children, rows)
      ensures |rows| - |kept| <= |moved|
    {
      PlansMoveTheRest(lists, moved, children, rows);
    }
  }

  lemma {:induction false} StayingIsPlaced<T>(children: seq<T>, rows: seq<T>, kept: set<int>)
    requires Distinct(children) && KeepsRun(PositionsOf(children, rows), kept)
    ensures PlacedFrom(children, rows, kept, |rows|)
  {
    var staying := Staying(rows, kept, |rows|);
    StayingInOrder(children, rows, kept, |rows|);
    OrderedItemsAreKept(children, staying);
    assert staying + rows[|rows|..] == staying;
  }

  /** The loop from the last row to the first. */
  method PlaceFromLast<T(==)>(listEl: ElementList<T>, orderedRowEls: seq<T>, keptIndices: set<int>)
    returns (ghost insertions: nat)
    requires Distinct(orderedRowEls) && PlacedFrom(listEl.children, orderedRowEls, keptIndices, |orderedRowEls|)
    modifies listEl
    ensures PlacedFrom(listEl.children, orderedRowEls, keptIndices, 0)
    ensures Others(listEl.children, Members(orderedRowEls)) == Others(old(listEl.children), Members(orderedRowEls))
    ensures insertions == Leaving(keptIndices, 0, |orderedRowEls|)
  {
    var index := |orderedRowEls|;
    var nextRow: Option<T> := None;
    insertions := 0;
    while index > 0
      invariant 0 <= index <= |orderedRowEls|
      invariant nextRow == if index < |orderedRowEls| then Some(orderedRowEls[index]) else None
      invariant PlacedFrom(listEl.children, orderedRowEls, keptIndices, index)
      invariant Others(listEl.children, Members(orderedRowEls)) == Others(old(listEl.children), Members(orderedRowEls))
      invariant insertions == Leaving(keptIndices, index, |orderedRowEls|)
    {
      PlaceNext(listEl.children, orderedRowEls, keptIndices, index);
      index := index - 1;
      var row := orderedRowEls[index];
      if index !in keptIndices {
        InsertLeavesOutside(listEl.children, row, nextRow, Members(orderedRowEls));
        ghost var before := listEl.children;
        listEl.InsertBefore(row, nextRow);
        InsertionIsUnique(before, listEl.children, row, nextRow);
        insertions := insertions + 1;
      }
      nextRow := Some(row);
    }
  }

  /** Leaves the rows in the requested order and everything else in its own, with as many insertions
      as the shortest plan has steps. */
  method PlaceRowsInOrder<T(==,!new)>(listEl: ElementList<T>, orderedRowEls: seq<T>) returns (ghost insertions: nat)
    requires Distinct(listEl.children) && Distinct(orderedRowEls)
    modifies listEl
    ensures Kept(listEl.children, Members(orderedRowEls)) == orderedRowEls
    ensures Others(listEl.children, Members(orderedRowEls)) == Others(old(listEl.children), Members(orderedRowEls))
    ensures forall lists: seq<seq<T>>, moved ::
              Reaches(lists, moved, old(listEl.children), orderedRowEls) ==> insertions <= |moved|
  {
    var positions := PositionsOf(listEl.children, orderedRowEls);
    var keptIndices, run := LongestIncreasingRunIndices(positions);
    RunIsKept(positions, run);
    StayingIsPlaced(listEl.children, orderedRowEls, keptIndices);
    NoShorterPlan(listEl.children, orderedRowEls, keptIndices);
    LeavingCount(keptIndices, 0, |orderedRowEls|);
    insertions := PlaceFromLast(listEl, orderedRowEls, keptIndices);
    assert Staying(orderedRowEls, keptIndices, 0) + orderedRowEls[0..] == orderedRowEls;
  }
}
