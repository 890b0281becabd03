/**
 Finding OSC 0 titles in terminal output. The reference is an automaton that reads one character at
 a time; the code searches whole buffers, remembers where it last saw each terminator, and carries
 an unfinished tail to the next chunk. OSC and ST are sections 8.3.89 and 8.3.143 of ECMA-48; the
 BEL terminator is xterm's.
 */
module OscScanner {
  import opened Wrappers

  const ESC := '\U{1B}'
  const BEL_CHAR := '\U{07}'
  const OSC_START: string := [ESC, ']', '0', ';']
  const BEL: string := [BEL_CHAR]
  const ST: string := [ESC, '\\']
  const MAX_PENDING_TITLE := 4096

  // ----- the reference: one character at a time -----

  /** So many characters of the introducer were just read, or a title is open; a trailing escape that
      may begin a terminator is kept apart from the title's text. */
  datatype Reader = Plain(matched: nat) | InTitle(content: string, hasEscape: bool)

  function Escaped(hasEscape: bool): string {
    if hasEscape then [ESC] else []
  }

  function Next(s: Reader, c: char): Reader {
    match s
    case Plain(k) =>
      if c == ESC then Plain(1)
      else if k == 1 && c == ']' then Plain(2)
      else if k == 2 && c == '0' then Plain(3)
      else if k == 3 && c == ';' then InTitle("", false)
      else Plain(0)
    case InTitle(content, hasEscape) =>
      if c == BEL_CHAR || (hasEscape && c == '\\') then Plain(0)
      else if c == ESC then InTitle(content + Escaped(hasEscape), true)
      else InTitle(content + Escaped(hasEscape) + [c], false)
  }

  function Output(s: Reader, c: char): seq<string> {
    match s
    case Plain(_) => []
    case InTitle(content, hasEscape) =>
      if c == BEL_CHAR then [content + Escaped(hasEscape)]
      else if hasEscape && c == '\\' then [content]
      else []
  }

  /** The reader after the characters of a buffer between two indices, and the titles it gave out. */
  function Read(s: Reader, buffer: string, from: nat, upTo: nat): Reader
    requires from <= upTo <= |buffer|
    decreases upTo - from
  {
    if from == upTo then s else Next(Read(s, buffer, from, upTo - 1), buffer[upTo - 1])
  }

  function Titles(s: Reader, buffer: string, from: nat, upTo: nat): seq<string>
    requires from <= upTo <= |buffer|
    decreases upTo - from
  {
    if from == upTo then []
    else Titles(s, buffer, from, upTo - 1) + Output(Read(s, buffer, from, upTo - 1), buffer[upTo - 1])
  }

  lemma {:induction false} Regroup(a: seq<string>, b: seq<string>, c: seq<string>)
    ensures (a + b) + c == a + (b + c)
  {
  }

  lemma {:induction false} ReadOn(s: Reader, buffer: string, a: nat, b: nat, c: nat)
    requires a <= b <= c <= |buffer|
    ensures Read(s, buffer, a, c) == Read(Read(s, buffer, a, b), buffer, b, c)
    ensures Titles(s, buffer, a, c) == Titles(s, buffer, a, b) + Titles(Read(s, buffer, a, b), buffer, b, c)
    decreases c - b
  {
    if b < c {
      ReadOn(s, buffer, a, b, c - 1);
      var mid := Read(s, buffer, a, b);
      Regroup(Titles(s, buffer, a, b), Titles(mid, buffer, b, c - 1), Output(Read(s, buffer, a, c - 1), buffer[c - 1]));
    }
  }

  lemma {:induction false} ReadSame(s: Reader, b1: string, f1: nat, b2: string, f2: nat, n: nat)
    requires f1 + n <= |b1| && f2 + n <= |b2| && forall i :: f1 <= i < f1 + n ==> b1[i] == b2[i - f1 + f2]
    ensures Read(s, b1, f1, f1 + n) == Read(s, b2, f2, f2 + n)
    ensures Titles(s, b1, f1, f1 + n) == Titles(s, b2, f2, f2 + n)
  {
    if n > 0 {
      ReadSame(s, b1, f1, b2, f2, n - 1);
    }
  }

  /** The text a reader has taken in and not yet given out. */
  function Held(s: Reader): string {
    match s
    case Plain(k) => if k <= 4 then OSC_START[..k] else ""
    case InTitle(content, hasEscape) => OSC_START + content + Escaped(hasEscape)
  }

  // ----- the code: searching a buffer -----

  predicate Occurs(buffer: string, pattern: string, at: int) {
    0 <= at && at + |pattern| <= |buffer| && buffer[at..at + |pattern|] == pattern
  }

  /** The first occurrence from an index on. */
  function IndexFrom(buffer: string, pattern: string, from: nat): (index: int)
    requires pattern != ""
    ensures index == -1 || from <= index <= |buffer| - |pattern|
    decreases |buffer| - from
  {
    if from >= |buffer| then -1
    else if Occurs(buffer, pattern, from) then from
    else IndexFrom(buffer, pattern, from + 1)
  }

  lemma {:induction false} IndexFromIsFirst(buffer: string, pattern: string, from: nat)
    requires pattern != ""
    ensures
      var index := IndexFrom(buffer, pattern, from);
      && (index >= 0 ==> Occurs(buffer, pattern, index))
      && (forall q :: from <= q && (index == -1 || q < index) ==> !Occurs(buffer, pattern, q))
    decreases |buffer| - from
  {
    if from < |buffer| && !Occurs(buffer, pattern, from) {
      IndexFromIsFirst(buffer, pattern, from + 1);
    }
  }

  /** A remembered position: minus one before the first search, `Nowhere` once a search found none. */
  datatype Position = At(index: int) | Nowhere

  predicate AtOrAfter(position: Position, from: int) {
    position.Nowhere? || position.index >= from
  }

  function Earlier(a: Position, b: Position): Position {
    if a.Nowhere? then b else if b.Nowhere? || a.index <= b.index then a else b
  }

  function FirstFrom(buffer: string, terminator: string, from: nat): Position
    requires terminator != ""
  {
    var index := IndexFrom(buffer, terminator, from);
    if index == -1 then Nowhere else At(index)
  }

  function NextTerminatorIndex(buffer: string, terminator: string, previous: Position, from: nat): Position
    requires terminator != ""
  {
    if AtOrAfter(previous, from) then previous else FirstFrom(buffer, terminator, from)
  }

  /** What may be remembered when searching from an index: nothing yet, or the result of a search that
      began no later. */
  ghost predicate Remembered(buffer: string, terminator: string, position: Position, from: nat)
    requires terminator != ""
  {
    position == At(-1) || exists f: nat :: f <= from && position == FirstFrom(buffer, terminator, f)
  }

  lemma {:induction false} FirstFromLater(buffer: string, terminator: string, f: nat, from: nat)
    requires terminator != "" && f <= from
    requires AtOrAfter(FirstFrom(buffer, terminator, f), from)
    ensures FirstFrom(buffer, terminator, from) == FirstFrom(buffer, terminator, f)
  {
    IndexFromIsFirst(buffer, terminator, f);
    IndexFromIsFirst(buffer, terminator, from);
  }

  /** The remembered search is the plain one. */
  lemma {:induction false} RememberedSearchIsFresh(buffer: string, terminator: string, position: Position, from: nat)
    requires terminator != "" && Remembered(buffer, terminator, position, from)
    ensures NextTerminatorIndex(buffer, terminator, position, from) == FirstFrom(buffer, terminator, from)
  {
    if AtOrAfter(position, from) {
      var f: nat :| f <= from && position == FirstFrom(buffer, terminator, f);
      FirstFromLater(buffer, terminator, f, from);
    }
  }

  datatype OscTitle = OscTitle(start: nat, end: nat, next: nat, title: string)

  /** The first title from an index on, each terminator searched afresh. */
  function FirstTitle(buffer: string, from: nat): (found: Option<OscTitle>)
    ensures found.Some? ==>
              var osc := found.value;
              from <= osc.start && osc.start + |OSC_START| <= osc.end < osc.next <= |buffer|
  {
    var start := IndexFrom(buffer, OSC_START, from);
    if start == -1 then None
    else
      var contentStart := start + |OSC_START|;
      var bel := FirstFrom(buffer, BEL, contentStart);
      var st := FirstFrom(buffer, ST, contentStart);
      var end := Earlier(bel, st);
      if end.Nowhere? then None
      else
        var terminator := if end == bel then |BEL| else |ST|;
        Some(OscTitle(start, end.index, end.index + terminator, buffer[contentStart..end.index]))
  }

  /** All titles from a cursor on, and where the cursor ends up. */
  function Scanned(buffer: string, cursor: nat): (seq<string>, nat)
    decreases |buffer| - cursor
  {
    match FirstTitle(buffer, cursor)
    case None => ([], cursor)
    case Some(osc) =>
      var rest := Scanned(buffer, osc.next);
      ([osc.title] + rest.0, rest.1)
  }

  predicate EndsWith(buffer: string, suffix: string) {
    |suffix| <= |buffer| && buffer[|buffer| - |suffix|..] == suffix
  }

  function UnterminatedTail(buffer: string, from: nat): string {
    var openStart := IndexFrom(buffer, OSC_START, from);
    if openStart != -1 then (if |buffer| - openStart > MAX_PENDING_TITLE then "" else buffer[openStart..])
    else if EndsWith(buffer, OSC_START[..3]) then OSC_START[..3]
    else if EndsWith(buffer, OSC_START[..2]) then OSC_START[..2]
    else if EndsWith(buffer, OSC_START[..1]) then OSC_START[..1]
    else ""
  }
}
