/**
 Searching a buffer for titles and carrying its tail does what reading it one character at a time does.
 */
module OscReading {
  import opened OscScanner
  import opened Wrappers

  // ----- the search does what the automaton does -----

  predicate StartsAt(buffer: string, q: int) {
    && 0 <= q && q + 4 <= |buffer|
    && buffer[q] == ESC && buffer[q + 1] == ']' && buffer[q + 2] == '0' && buffer[q + 3] == ';'
  }

  lemma {:induction false} OccursByCharacter(buffer: string, q: int)
    ensures Occurs(buffer, OSC_START, q) <==> StartsAt(buffer, q)
    ensures Occurs(buffer, BEL, q) <==> 0 <= q < |buffer| && buffer[q] == BEL_CHAR
    ensures Occurs(buffer, ST, q) <==> 0 <= q < |buffer| - 1 && buffer[q] == ESC && buffer[q + 1] == '\\'
  {
    if 0 <= q && q + 4 <= |buffer| {
      assert buffer[q..q + 4] == [buffer[q], buffer[q + 1], buffer[q + 2], buffer[q + 3]];
    }
    if 0 <= q < |buffer| {
      assert buffer[q..q + 1] == [buffer[q]];
    }
    if 0 <= q < |buffer| - 1 {
      assert buffer[q..q + 2] == [buffer[q], buffer[q + 1]];
    }
  }

  /** The last `k` characters before `i` are the introducer's first `k`. */
  predicate IntroducedBy(buffer: string, from: nat, i: nat, k: nat) {
    && k <= 3 && from + k <= i <= |buffer|
    && (k >= 1 ==> buffer[i - k] == ESC)
    && (k >= 2 ==> buffer[i - k + 1] == ']')
    && (k >= 3 ==> buffer[i - k + 2] == '0')
  }

  /** `k` is the longest beginning of an introducer that ends at `i`. */
  ghost predicate LongestIntroduced(buffer: string, from: nat, i: nat, k: nat) {
    IntroducedBy(buffer, from, i, k) && forall m :: k < m <= 3 ==> !IntroducedBy(buffer, from, i, m)
  }

  lemma {:induction false} IntroducedStep(buffer: string, from: nat, i: nat, before: nat) returns (k: nat)
    requires from <= i < |buffer| && LongestIntroduced(buffer, from, i, before)
    requires !(before == 3 && buffer[i] == ';')
    ensures Next(Plain(before), buffer[i]) == Plain(k) && LongestIntroduced(buffer, from, i + 1, k)
  {
    var c := buffer[i];
    k := if c == ESC then 1 else if before == 1 && c == ']' then 2 else if before == 2 && c == '0' then 3 else 0;
    assert IntroducedBy(buffer, from, i + 1, 3) ==> IntroducedBy(buffer, from, i, 2);
    assert IntroducedBy(buffer, from, i + 1, 2) ==> IntroducedBy(buffer, from, i, 1);
  }

  /** Outside a title the reader knows the longest beginning of an introducer just read. */
  lemma {:induction false} PlainReading(buffer: string, from: nat, i: nat) returns (k: nat)
    requires from <= i <= |buffer|
    requires forall q :: from <= q && q + 4 <= i ==> !StartsAt(buffer, q)
    ensures Read(Plain(0), buffer, from, i) == Plain(k) && Titles(Plain(0), buffer, from, i) == []
    ensures LongestIntroduced(buffer, from, i, k)
    decreases i - from
  {
    if from == i {
      k := 0;
    } else {
      var before := PlainReading(buffer, from, i - 1);
      assert before == 3 && buffer[i - 1] == ';' ==> StartsAt(buffer, i - 4);
      k := IntroducedStep(buffer, from, i - 1, before);
    }
  }

  /** No terminator is complete between two indices. */
  ghost predicate Unterminated(buffer: string, from: nat, upTo: nat)
    requires upTo <= |buffer|
  {
    && (forall q :: from <= q < upTo ==> buffer[q] != BEL_CHAR)
    && (forall q :: from < q < upTo ==> !(buffer[q - 1] == ESC && buffer[q] == '\\'))
  }

  /** The reader that holds some text of a title. */
  function Holding(text: string): Reader {
    if text != "" && text[|text| - 1] == ESC then InTitle(text[..|text| - 1], true) else InTitle(text, false)
  }

  lemma {:induction false} HoldingStep(text: string, c: char)
    requires c != BEL_CHAR && !(text != "" && text[|text| - 1] == ESC && c == '\\')
    ensures Next(Holding(text), c) == Holding(text + [c]) && Output(Holding(text), c) == []
  {
    if text != "" && text[|text| - 1] == ESC {
      assert text[..|text| - 1] + [ESC] == text;
    }
    assert (text + [c])[..|text|] == text;
    assert text + Escaped(false) == text;
  }

  lemma {:induction false} HoldingEnds(text: string, c: char)
    requires c == BEL_CHAR || (text != "" && text[|text| - 1] == ESC && c == '\\')
    ensures Next(Holding(text), c) == Plain(0)
    ensures Output(Holding(text), c) == [if c == BEL_CHAR then text else text[..|text| - 1]]
  {
    if text != "" && text[|text| - 1] == ESC {
      assert text[..|text| - 1] + [ESC] == text;
    }
    assert text + Escaped(false) == text;
  }

  lemma {:induction false} HoldingMore(buffer: string, from: nat, i: nat)
    requires from < i <= |buffer| && Unterminated(buffer, from, i)
    ensures Next(Holding(buffer[from..i - 1]), buffer[i - 1]) == Holding(buffer[from..i])
    ensures Output(Holding(buffer[from..i - 1]), buffer[i - 1]) == []
  {
    var text := buffer[from..i - 1];
    assert text != "" ==> text[|text| - 1] == buffer[i - 2];
    HoldingStep(text, buffer[i - 1]);
    assert text + [buffer[i - 1]] == buffer[from..i];
  }

  /** What one more character does to a reader and its titles. */
  lemma {:induction false} ReadOne(s: Reader, buffer: string, from: nat, i: nat)
    requires from < i <= |buffer|
    ensures Read(s, buffer, from, i) == Next(Read(s, buffer, from, i - 1), buffer[i - 1])
    ensures
      Titles(s, buffer, from, i)
      == Titles(s, buffer, from, i - 1) + Output(Read(s, buffer, from, i - 1), buffer[i - 1])
  {
  }

  /** Inside a title without a terminator so far the reader holds the title's text. */
  lemma {:induction false} TitleReading(buffer: string, from: nat, i: nat)
    requires from <= i <= |buffer| && Unterminated(buffer, from, i)
    ensures Read(InTitle("", false), buffer, from, i) == Holding(buffer[from..i])
    ensures Titles(InTitle("", false), buffer, from, i) == []
    decreases i - from
  {
    if from < i {
      TitleReading(buffer, from, i - 1);
      HoldingMore(buffer, from, i);
      ReadOne(InTitle("", false), buffer, from, i);
    }
  }

  /** Reading an introducer opens a title, whatever was read before it. */
  lemma {:induction false} IntroducerOpens(buffer: string, from: nat, start: nat)
    requires from <= start && StartsAt(buffer, start)
    requires forall q :: from <= q < start ==> !StartsAt(buffer, q)
    ensures Read(Plain(0), buffer, from, start + 4) == InTitle("", false)
    ensures Titles(Plain(0), buffer, from, start + 4) == []
  {
    var k := PlainReading(buffer, from, start);
    assert Read(Plain(0), buffer, from, start + 1) == Plain(1) && Titles(Plain(0), buffer, from, start + 1) == [];
    assert Read(Plain(0), buffer, from, start + 2) == Plain(2) && Titles(Plain(0), buffer, from, start + 2) == [];
    assert Read(Plain(0), buffer, from, start + 3) == Plain(3) && Titles(Plain(0), buffer, from, start + 3) == [];
  }

  /** Reading a title to its terminator gives it out and leaves the reader outside. */
  lemma {:induction false} BelCloses(buffer: string, from: nat, end: nat)
    requires from <= end < |buffer| && Unterminated(buffer, from, end) && buffer[end] == BEL_CHAR
    ensures Read(InTitle("", false), buffer, from, end + 1) == Plain(0)
    ensures Titles(InTitle("", false), buffer, from, end + 1) == [buffer[from..end]]
  {
    TitleReading(buffer, from, end);
    HoldingEnds(buffer[from..end], buffer[end]);
  }

  lemma {:induction false} StCloses(buffer: string, from: nat, end: nat)
    requires from <= end && end + 2 <= |buffer| && Unterminated(buffer, from, end)
    requires buffer[end] == ESC && buffer[end + 1] == '\\'
    ensures Read(InTitle("", false), buffer, from, end + 2) == Plain(0)
    ensures Titles(InTitle("", false), buffer, from, end + 2) == [buffer[from..end]]
  {
    TitleReading(buffer, from, end + 1);
    var text := buffer[from..end + 1];
    assert text[|text| - 1] == ESC && text[..|text| - 1] == buffer[from..end];
    HoldingEnds(text, '\\');
    assert Read(InTitle("", false), buffer, from, end + 2) == Next(Holding(text), '\\');
  }

  /** What a search for both terminators says, character by character. */
  lemma {:induction false} TerminatorSearch(buffer: string, from: nat)
    ensures
      var bel, st := FirstFrom(buffer, BEL, from), FirstFrom(buffer, ST, from);
      var end := Earlier(bel, st);
      && (end.Nowhere? ==> from <= |buffer| ==> Unterminated(buffer, from, |buffer|))
      && (end.At? ==>
            && from <= end.index < |buffer| && Unterminated(buffer, from, end.index)
            && (end == bel <==> buffer[end.index] == BEL_CHAR)
            && (end != bel ==> end.index + 1 < |buffer| && buffer[end.index] == ESC && buffer[end.index + 1] == '\\'))
  {
    IndexFromIsFirst(buffer, BEL, from);
    IndexFromIsFirst(buffer, ST, from);
    forall q
      ensures Occurs(buffer, BEL, q) <==> 0 <= q < |buffer| && buffer[q] == BEL_CHAR
      ensures Occurs(buffer, ST, q) <==> 0 <= q < |buffer| - 1 && buffer[q] == ESC && buffer[q + 1] == '\\'
    {
      OccursByCharacter(buffer, q);
    }
  }

  lemma {:induction false} NoEarlierStart(buffer: string, cursor: nat)
    ensures
      var start := IndexFrom(buffer, OSC_START, cursor);
      && (start >= 0 ==> StartsAt(buffer, start) && forall q :: cursor <= q < start ==> !StartsAt(buffer, q))
      && (start < 0 ==> forall q :: cursor <= q ==> !StartsAt(buffer, q))
  {
    IndexFromIsFirst(buffer, OSC_START, cursor);
    forall q
      ensures Occurs(buffer, OSC_START, q) <==> StartsAt(buffer, q)
    {
      OccursByCharacter(buffer, q);
    }
  }

  /** A title in the buffer: where it starts, where its terminator is, where the text goes on. */
  ghost predicate TitleLies(buffer: string, cursor: nat, start: nat, end: nat, next: nat) {
    && cursor <= start && StartsAt(buffer, start) && (forall q :: cursor <= q < start ==> !StartsAt(buffer, q))
    && start + 4 <= end < next <= |buffer| && Unterminated(buffer, start + 4, end)
    && (if buffer[end] == BEL_CHAR then next == end + 1
        else next == end + 2 && buffer[end] == ESC && buffer[end + 1] == '\\')
  }

  lemma {:induction false} FoundTitleLies(buffer: string, cursor: nat)
    requires FirstTitle(buffer, cursor).Some?
    ensures
      var osc := FirstTitle(buffer, cursor).value;
      TitleLies(buffer, cursor, osc.start, osc.end, osc.next) && osc.title == buffer[osc.start + 4..osc.end]
  {
    NoEarlierStart(buffer, cursor);
    TerminatorSearch(buffer, IndexFrom(buffer, OSC_START, cursor) + 4);
  }

  lemma {:induction false} LyingTitleCloses(buffer: string, from: nat, end: nat, next: nat)
    requires from <= end < next <= |buffer| && Unterminated(buffer, from, end)
    requires
      if buffer[end] == BEL_CHAR then next == end + 1
      else next == end + 2 && buffer[end] == ESC && buffer[end + 1] == '\\'
    ensures Read(InTitle("", false), buffer, from, next) == Plain(0)
    ensures Titles(InTitle("", false), buffer, from, next) == [buffer[from..end]]
  {
    if buffer[end] == BEL_CHAR {
      BelCloses(buffer, from, end);
    } else {
      StCloses(buffer, from, end);
    }
  }

  lemma {:induction false} LyingTitleIsRead(buffer: string, cursor: nat, start: nat, end: nat, next: nat)
    requires TitleLies(buffer, cursor, start, end, next)
    ensures Read(Plain(0), buffer, cursor, next) == Plain(0)
    ensures Titles(Plain(0), buffer, cursor, next) == [buffer[start + 4..end]]
  {
    IntroducerOpens(buffer, cursor, start);
    LyingTitleCloses(buffer, start + 4, end, next);
    ReadOn(Plain(0), buffer, cursor, start + 4, next);
  }

  // ----- the tail -----

  /** A cursor is at the start of the buffer or behind a terminator. */
  predicate BehindTerminator(buffer: string, cursor: nat) {
    cursor <= |buffer| && (cursor > 0 ==> buffer[cursor - 1] == BEL_CHAR || buffer[cursor - 1] == '\\')
  }

  lemma {:induction false} EndsWithOne(buffer: string, cursor: nat)
    requires BehindTerminator(buffer, cursor)
    ensures EndsWith(buffer, OSC_START[..1]) <==> IntroducedBy(buffer, cursor, |buffer|, 1)
  {
    var n := |buffer|;
    assert OSC_START[..1] == [ESC];
    if n >= 1 {
      assert buffer[n - 1..] == [buffer[n - 1]];
    }
  }

  lemma {:induction false} EndsWithTwo(buffer: string, cursor: nat)
    requires BehindTerminator(buffer, cursor)
    ensures EndsWith(buffer, OSC_START[..2]) <==> IntroducedBy(buffer, cursor, |buffer|, 2)
  {
    var n := |buffer|;
    assert OSC_START[..2] == [ESC, ']'];
    if n >= 2 {
      assert buffer[n - 2..] == [buffer[n - 2], buffer[n - 1]];
    }
  }

  lemma {:induction false} EndsWithThree(buffer: string, cursor: nat)
    requires BehindTerminator(buffer, cursor)
    ensures EndsWith(buffer, OSC_START[..3]) <==> IntroducedBy(buffer, cursor, |buffer|, 3)
  {
    var n := |buffer|;
    assert OSC_START[..3] == [ESC, ']', '0'];
    if n >= 3 {
      assert buffer[n - 3..] == [buffer[n - 3], buffer[n - 2], buffer[n - 1]];
    }
  }

  /** The reader that is carried to the next chunk: a title that grew past the limit is dropped. */
  function Carried(s: Reader): Reader {
    if s.InTitle? && |Held(s)| > 4096 then Plain(0) else s
  }

  lemma {:induction false} HoldingHolds(text: string)
    ensures Holding(text).InTitle? && Held(Holding(text)) == OSC_START + text
  {
    if text != "" && text[|text| - 1] == ESC {
      assert text[..|text| - 1] + [ESC] == text;
      assert OSC_START + text[..|text| - 1] + [ESC] == OSC_START + text;
    } else {
      assert OSC_START + text + [] == OSC_START + text;
    }
  }

  lemma {:induction false} OpenTitleIsHeld(buffer: string, cursor: nat, start: nat)
    requires cursor <= start && StartsAt(buffer, start) && forall q :: cursor <= q < start ==> !StartsAt(buffer, q)
    requires Unterminated(buffer, start + 4, |buffer|)
    ensures Read(Plain(0), buffer, cursor, |buffer|).InTitle?
    ensures Held(Read(Plain(0), buffer, cursor, |buffer|)) == buffer[start..]
    ensures Titles(Plain(0), buffer, cursor, |buffer|) == []
  {
    IntroducerOpens(buffer, cursor, start);
    TitleReading(buffer, start + 4, |buffer|);
    ReadOn(Plain(0), buffer, cursor, start + 4, |buffer|);
    HoldingHolds(buffer[start + 4..|buffer|]);
    OpenText(buffer, start);
  }

  lemma {:induction false} OpenText(buffer: string, start: nat)
    requires StartsAt(buffer, start)
    ensures OSC_START + buffer[start + 4..|buffer|] == buffer[start..]
  {
    OccursByCharacter(buffer, start);
    assert buffer[start..] == buffer[start..start + 4] + buffer[start + 4..|buffer|];
  }

  /** The tail kept for the next chunk is what the reader holds: it never reaches back into consumed
      text, and it never exceeds the limit. */
  lemma {:induction false} TailIsHeld(buffer: string, cursor: nat)
    requires BehindTerminator(buffer, cursor) && FirstTitle(buffer, cursor).None?
    ensures UnterminatedTail(buffer, cursor) == Held(Carried(Read(Plain(0), buffer, cursor, |buffer|)))
    ensures Titles(Plain(0), buffer, cursor, |buffer|) == []
    ensures |UnterminatedTail(buffer, cursor)| <= 4096
    ensures |UnterminatedTail(buffer, cursor)| <= |buffer| - cursor
  {
    NoEarlierStart(buffer, cursor);
    var start := IndexFrom(buffer, OSC_START, cursor);
    if start < 0 {
      var k := PlainReading(buffer, cursor, |buffer|);
      EndsWithOne(buffer, cursor);
      EndsWithTwo(buffer, cursor);
      EndsWithThree(buffer, cursor);
      assert UnterminatedTail(buffer, cursor) == OSC_START[..k];
    } else {
      TerminatorSearch(buffer, start + 4);
      OpenTitleIsHeld(buffer, cursor, start);
    }
  }

  /** A scan of the rest continues the reading up to a title's end. */
  lemma {:induction false} ReadingContinues(buffer: string, cursor: nat, next: nat, title: string)
    requires cursor <= next <= |buffer|
    requires Read(Plain(0), buffer, cursor, next) == Plain(0) && Titles(Plain(0), buffer, cursor, next) == [title]
    ensures Read(Plain(0), buffer, cursor, |buffer|) == Read(Plain(0), buffer, next, |buffer|)
    ensures Titles(Plain(0), buffer, cursor, |buffer|) == [title] + Titles(Plain(0), buffer, next, |buffer|)
  {
    ReadOn(Plain(0), buffer, cursor, next, |buffer|);
  }

  /** What a scan from a cursor owes: the automaton's titles, and what the automaton holds as the tail. */
  ghost predicate ScannedIsRead(buffer: string, cursor: nat, titles: seq<string>, end: nat)
    requires cursor <= |buffer|
  {
    && cursor <= end && BehindTerminator(buffer, end) && FirstTitle(buffer, end).None?
    && titles == Titles(Plain(0), buffer, cursor, |buffer|)
    && UnterminatedTail(buffer, end) == Held(Carried(Read(Plain(0), buffer, cursor, |buffer|)))
  }

  lemma {:induction false} TitleEndsBehind(buffer: string, cursor: nat, start: nat, end: nat, next: nat)
    requires TitleLies(buffer, cursor, start, end, next)
    ensures cursor < next && BehindTerminator(buffer, next)
  {
  }

  lemma {:induction false} ReadingGoesOn(buffer: string, cursor: nat, start: nat, end: nat, next: nat)
    requires TitleLies(buffer, cursor, start, end, next)
    ensures Read(Plain(0), buffer, cursor, |buffer|) == Read(Plain(0), buffer, next, |buffer|)
    ensures
      Titles(Plain(0), buffer, cursor, |buffer|)
      == [buffer[start + 4..end]] + Titles(Plain(0), buffer, next, |buffer|)
  {
    LyingTitleIsRead(buffer, cursor, start, end, next);
    ReadingContinues(buffer, cursor, next, buffer[start + 4..end]);
  }

  lemma {:induction false} ScanStep(buffer: string, cursor: nat, osc: OscTitle)
    requires BehindTerminator(buffer, cursor) && FirstTitle(buffer, cursor) == Some(osc)
    ensures cursor < osc.next && BehindTerminator(buffer, osc.next)
    ensures Read(Plain(0), buffer, cursor, |buffer|) == Read(Plain(0), buffer, osc.next, |buffer|)
    ensures
      Titles(Plain(0), buffer, cursor, |buffer|) == [osc.title] + Titles(Plain(0), buffer, osc.next, |buffer|)
  {
    FoundTitleLies(buffer, cursor);
    TitleEndsBehind(buffer, cursor, osc.start, osc.end, osc.next);
    ReadingGoesOn(buffer, cursor, osc.start, osc.end, osc.next);
  }

  /** Scanning a buffer gives out the automaton's titles and leaves what it holds as the tail. */
  lemma {:induction false} ScanReads(buffer: string, cursor: nat)
    requires BehindTerminator(buffer, cursor)
    ensures ScannedIsRead(buffer, cursor, Scanned(buffer, cursor).0, Scanned(buffer, cursor).1)
    decreases |buffer| - cursor
  {
    var found := FirstTitle(buffer, cursor);
    match found {
      case None => TailIsHeld(buffer, cursor);
      case Some(osc) =>
        ScanStep(buffer, cursor, osc);
        ScanReads(buffer, osc.next);
    }
  }
}
