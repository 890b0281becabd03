/**
 Which logs may be paged at will. A slice of a log is grouped the same, in whatever pages it arrives, if
 and only if every record finds its call behind it, no result without an id stands beside a call without
 one, and no record of a turn is older than the turn's first.
 */
module TracePaging {
  import opened TraceRecords
  import opened TraceStoreCore
  import opened TraceStarts
  import opened TraceConfluence

  ghost predicate Pageable(records: seq<Record>) {
    Resolvable(records) && TurnsStartFirst(records)
  }

  ghost predicate GroupsAlike(records: seq<Record>) {
    forall pages: seq<Page> :: Covered(pages) == records ==> Assembled(pages) == Grouped(records)
  }

  // ----- a record that looks ahead -----

  /** The record first, then what follows it, then what precedes it. */
  function Around(records: seq<Record>, i: nat): seq<Page>
    requires i < |records|
  {
    [AtEnd([records[i]]), AtEnd(records[i + 1..]), InFront(records[..i])]
  }

  lemma {:induction false} AroundCovers(records: seq<Record>, i: nat)
    requires i < |records|
    ensures Covered(Around(records, i)) == records
    ensures
      var rest := Appended(Appended(EMPTY, [records[i]]), records[i + 1..]);
      Assembled(Around(records, i)) == Prepended(rest, records[..i])
  {
    var pages := Around(records, i);
    assert pages[..2][..1] == pages[..1] && pages[..1][..0] == [];
    assert pages[..2] == [pages[0], pages[1]];
    assert Covered(pages[..1]) == [records[i]];
    assert Assembled(pages[..1]) == Appended(EMPTY, [records[i]]);
    assert Covered(pages[..2]) == [records[i]] + records[i + 1..];
    assert records[..i] + ([records[i]] + records[i + 1..]) == records;
  }

  /** A count stays through an append, and through a prepend when its call came in between. */
  lemma {:induction false} CountStays(v: View, after: seq<Record>, before: seq<Record>, id: string)
    requires id in v.unresolved && id in CallsOf(after)
    ensures id in Prepended(Appended(v, after), before).unresolved
  {
    RetainRecordsExact(v.unresolved, after, v.calls + CallsOf(after), id);
    assert id in Appended(v, after).unresolved && id in Appended(v, after).calls;
  }

  lemma {:induction false} ReferenceIsCounted(r: Record, id: string)
    requires RefersTo(r, id)
    ensures id in Grouped([r]).unresolved
  {
    GroupedCounts([r]);
    ReferencesPositive([r], id);
    assert [r][..0] == [];
    assert CallsOf([r]) == map[];
  }

  lemma {:induction false} LookingAheadShows(records: seq<Record>, i: nat, k: nat, id: string)
    requires i < k < |records| && IsCallOf(records[k], id) && RefersTo(records[i], id)
    ensures Assembled(Around(records, i)) != Grouped(records)
  {
    AroundCovers(records, i);
    CallsOfMembers(records);
    var after := records[i + 1..];
    CallsOfMembers(after);
    assert IsCallOf(after[k - i - 1], id);
    ReferenceIsCounted(records[i], id);
    CountStays(Grouped([records[i]]), after, records[..i], id);
    GroupedCounts(records);
  }

  // ----- a result and a call without an id -----

  /** Some result without an id shows no call. */
  ghost predicate ShowsBare(turns: seq<Turn>) {
    exists i: nat, j: nat ::
      i < |turns| && j < |turns[i].rows| && LooksUp(turns[i].rows[j].record, "") && turns[i].rows[j].resolved.None?
  }

  lemma {:induction false} AddKeepsBare(turns: seq<Turn>, row: Row)
    requires ShowsBare(turns)
    ensures ShowsBare(WithRecord(turns, row))
  {
    var i: nat, j: nat :|
      i < |turns| && j < |turns[i].rows| && LooksUp(turns[i].rows[j].record, "") && turns[i].rows[j].resolved.None?;
    var after := WithRecord(turns, row);
    assert i < |after| && j < |after[i].rows| && after[i].rows[j] == turns[i].rows[j];
  }

  lemma {:induction false} AppendKeepsBare(turns: seq<Turn>, records: seq<Record>, calls: CallIndex)
    requires ShowsBare(turns)
    ensures ShowsBare(WithRecords(turns, records, calls))
  {
    if records != [] {
      var n := |records| - 1;
      AppendKeepsBare(turns, records[..n], calls);
      AddKeepsBare(WithRecords(turns, records[..n], calls), RowOf(records[n], calls));
    }
  }

  lemma {:induction false} PrependKeepsBare(v: View, records: seq<Record>)
    requires ShowsBare(v.turns)
    ensures ShowsBare(Prepended(v, records).turns)
  {
    var i: nat, j: nat :| i < |v.turns| && j < |v.turns[i].rows|
      && LooksUp(v.turns[i].rows[j].record, "") && v.turns[i].rows[j].resolved.None?;
    var earlier := Grouped(records);
    var joined, after := JoinedTurns(earlier.turns, v.turns), Prepended(v, records).turns;
    var i' := i + |joined| - |v.turns|;
    var j' := j + |joined[i'].rows| - |v.turns[i].rows|;
    assert joined[i'].rows[j'] == v.turns[i].rows[j];
    assert after[i'].rows[j'] == joined[i'].rows[j'];
  }

  lemma {:induction false} NoneBareWithCall(records: seq<Record>, calls: CallIndex)
    requires "" in calls
    ensures !ShowsBare(WithRecords([], records, calls))
  {
    if records != [] {
      var n := |records| - 1;
      NoneBareWithCall(records[..n], calls);
      var before, row := WithRecords([], records[..n], calls), RowOf(records[n], calls);
      var after := WithRecord(before, row);
      forall i: nat, j: nat | i < |after| && j < |after[i].rows| && LooksUp(after[i].rows[j].record, "")
        ensures after[i].rows[j].resolved.Some?
      {
        if i < |before| && j < |before[i].rows| {
          assert after[i].rows[j] == before[i].rows[j];
        } else {
          assert after[i].rows[j] == row;
        }
      }
    }
  }

  lemma {:induction false} AloneIsBare(r: Record)
    requires LooksUp(r, "")
    ensures ShowsBare(Grouped([r]).turns)
  {
    assert [r][..0] == [];
    var calls: CallIndex := EMPTY.calls + CallsOf([r]);
    assert CallsOf([r]) == map[];
    var turns := WithRecords([], [r], calls);
    assert WithRecords([], [r][..0], calls) == [];
    assert turns == WithRecord([], RowOf(r, calls));
    assert turns[0].rows == [RowOf(r, calls)];
    assert LooksUp(turns[0].rows[0].record, "") && turns[0].rows[0].resolved.None?;
  }

  lemma {:induction false} BlankIdsShow(records: seq<Record>, i: nat)
    requires i < |records| && LooksUp(records[i], "") && "" in CallsOf(records)
    ensures Assembled(Around(records, i)) != Grouped(records)
  {
    AroundCovers(records, i);
    var r := records[i];
    var alone := Grouped([r]);
    AloneIsBare(r);
    var after := records[i + 1..];
    AppendKeepsBare(alone.turns, after, alone.calls + CallsOf(after));
    PrependKeepsBare(Appended(alone, after), records[..i]);
    NoneBareWithCall(records, EMPTY.calls + CallsOf(records));
  }

  // ----- a record older than its turn -----

  lemma {:induction false} SplitPages(a: seq<Record>, b: seq<Record>)
    ensures Covered([AtEnd(b), InFront(a)]) == a + b
    ensures Assembled([AtEnd(b), InFront(a)]) == Prepended(Grouped(b), a)
  {
    var pages := [AtEnd(b), InFront(a)];
    assert pages[..1] == [AtEnd(b)] && pages[..1][..0] == [];
    assert Covered(pages[..1]) == [] + b == b;
    assert Assembled(pages[..1]) == Appended(EMPTY, b);
  }

  lemma {:induction false} OlderRecordShows(records: seq<Record>, i: nat, j: nat)
    requires Resolvable(records)
    requires FirstOfTurn(records, i) && SameTurn(records, i, j) && records[i].ts > records[j].ts
    ensures Assembled([AtEnd(records[j..]), InFront(records[..j])]) != Grouped(records)
  {
    var a, b := records[..j], records[j..];
    assert a + b == records;
    ResolvableParts(a, b);
    SplitPages(a, b);
    LastStartIs(a, i);
    PrependIsGrouping(a, b);
  }

  // ----- exactly these -----

  lemma {:induction false} PageableGroupsAlike(pages: seq<Page>)
    requires Pageable(Covered(pages))
    ensures Assembled(pages) == Grouped(Covered(pages))
  {
    PagesGroup(pages);
    var records := Covered(pages);
    StartsArePinned(Assembled(pages).turns, records, EMPTY.calls + CallsOf(records));
  }

  lemma {:induction false} OnlyPageableGroupsAlike(records: seq<Record>)
    requires GroupsAlike(records)
    ensures Pageable(records)
  {
    forall i, k, id | 0 <= i < k < |records| && IsCallOf(records[k], id)
      ensures !RefersTo(records[i], id)
    {
      if RefersTo(records[i], id) {
        AroundCovers(records, i);
        LookingAheadShows(records, i, k, id);
      }
    }
    forall r, call | r in records && call in records && IsCallOf(call, "")
      ensures !LooksUp(r, "")
    {
      if LooksUp(r, "") {
        CallsOfMembers(records);
        var i :| 0 <= i < |records| && records[i] == r;
        AroundCovers(records, i);
        BlankIdsShow(records, i);
      }
    }
    forall i: nat, j: nat | FirstOfTurn(records, i) && SameTurn(records, i, j)
      ensures records[i].ts <= records[j].ts
    {
      if records[i].ts > records[j].ts {
        assert records[..j] + records[j..] == records;
        SplitPages(records[..j], records[j..]);
        OlderRecordShows(records, i, j);
      }
    }
  }

  /** Turns, heads, rows, labels, start times, metrics, index and counts come out as if the slice had
      arrived in one page, in whatever pages it arrives, if and only if the slice is pageable. */
  lemma {:induction false} Confluence(records: seq<Record>)
    ensures GroupsAlike(records) <==> Pageable(records)
  {
    if Pageable(records) {
      forall pages: seq<Page> | Covered(pages) == records
        ensures Assembled(pages) == Grouped(records)
      {
        PageableGroupsAlike(pages);
      }
    }
    if GroupsAlike(records) {
      OnlyPageableGroupsAlike(records);
    }
  }
}
