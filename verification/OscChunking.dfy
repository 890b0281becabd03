/**
 Feeding terminal output in chunks. As long as no unfinished title exceeds the limit at a chunk
 boundary, the titles depend only on the stream and not on how it was cut; and the moment one does,
 they no longer do.
 */
module OscChunking {
  import opened OscReading
  import opened OscScanner

  // ----- feeding -----

  /** One chunk: the titles it completes and the tail that is carried on. An empty chunk is ignored. */
  function Fed(pending: string, chunk: string): (seq<string>, string) {
    if chunk == "" then ([], pending)
    else
      var buffer := pending + chunk;
      var (titles, cursor) := Scanned(buffer, 0);
      (titles, UnterminatedTail(buffer, cursor))
  }

  function FedAll(chunks: seq<string>): (seq<string>, string) {
    if chunks == [] then ([], "")
    else
      var n := |chunks| - 1;
      var (before, pending) := FedAll(chunks[..n]);
      var (titles, tail) := Fed(pending, chunks[n]);
      (before + titles, tail)
  }

  function Stream(chunks: seq<string>): string {
    if chunks == [] then "" else Stream(chunks[..|chunks| - 1]) + chunks[|chunks| - 1]
  }

  // ----- feeding is reading -----

  /** A reader that some text leads to. */
  ghost predicate Reachable(r: Reader) {
    match r
    case Plain(k) => k <= 3
    case InTitle(content, hasEscape) =>
      var text := content + Escaped(hasEscape);
      r == Holding(text) && Unterminated(text, 0, |text|)
  }

  lemma {:induction false} UnterminatedMore(text: string, c: char)
    requires Unterminated(text, 0, |text|) && c != BEL_CHAR
    requires !(text != "" && text[|text| - 1] == ESC && c == '\\')
    ensures Unterminated(text + [c], 0, |text| + 1)
  {
  }

  lemma {:induction false} NextIsReachable(r: Reader, c: char)
    requires Reachable(r)
    ensures Reachable(Next(r, c))
  {
    if r.InTitle? {
      var text := r.content + Escaped(r.hasEscape);
      if Next(r, c).InTitle? {
        HoldingStep(text, c);
        UnterminatedMore(text, c);
        HoldingText(text + [c]);
      }
    }
  }

  lemma {:induction false} HoldingText(text: string)
    ensures Holding(text).InTitle? && Holding(text).content + Escaped(Holding(text).hasEscape) == text
  {
    if text != "" && text[|text| - 1] == ESC {
      assert text[..|text| - 1] + [ESC] == text;
    } else {
      assert text + "" == text;
    }
  }

  lemma {:induction false} ReadIsReachable(r: Reader, text: string, n: nat)
    requires Reachable(r) && n <= |text|
    ensures Reachable(Read(r, text, 0, n))
  {
    if n > 0 {
      ReadIsReachable(r, text, n - 1);
      NextIsReachable(Read(r, text, 0, n - 1), text[n - 1]);
    }
  }

  lemma {:induction false} IntroducerReadsBack(k: nat)
    requires k <= 3
    ensures Read(Plain(0), OSC_START[..k], 0, k) == Plain(k) && Titles(Plain(0), OSC_START[..k], 0, k) == []
  {
    if k > 0 {
      IntroducerReadsBack(k - 1);
      ReadSame(Plain(0), OSC_START[..k], 0, OSC_START[..k - 1], 0, k - 1);
    }
  }

  lemma {:induction false} TitleReadsBack(text: string)
    requires Unterminated(text, 0, |text|)
    ensures
      var held := OSC_START + text;
      Read(Plain(0), held, 0, |held|) == Holding(text) && Titles(Plain(0), held, 0, |held|) == []
  {
    IntroducerOpens(OSC_START, 0, 0);
    TitleReading(text, 0, |text|);
    assert text[0..|text|] == text;
    ReadConcat(Plain(0), OSC_START, text);
  }

  /** Reading what a reader holds leads back to it. */
  lemma {:induction false} HeldReadsBack(r: Reader)
    requires Reachable(r)
    ensures Read(Plain(0), Held(r), 0, |Held(r)|) == r && Titles(Plain(0), Held(r), 0, |Held(r)|) == []
  {
    match r
    case Plain(k) => IntroducerReadsBack(k);
    case InTitle(content, hasEscape) =>
      var text := content + Escaped(hasEscape);
      TitleReadsBack(text);
      assert OSC_START + content + Escaped(hasEscape) == OSC_START + text;
  }

  lemma {:induction false} ReadInto(r: Reader, a: string, b: string, n: nat)
    requires n <= |b|
    ensures Read(r, a + b, 0, |a| + n) == Read(Read(r, a, 0, |a|), b, 0, n)
    ensures Titles(r, a + b, 0, |a| + n) == Titles(r, a, 0, |a|) + Titles(Read(r, a, 0, |a|), b, 0, n)
  {
    if n == 0 {
      ReadSame(r, a + b, 0, a, 0, |a|);
    } else {
      ReadInto(r, a, b, n - 1);
    }
  }

  lemma {:induction false} ReadConcat(r: Reader, a: string, b: string)
    ensures Read(r, a + b, 0, |a + b|) == Read(Read(r, a, 0, |a|), b, 0, |b|)
    ensures Titles(r, a + b, 0, |a + b|) == Titles(r, a, 0, |a|) + Titles(Read(r, a, 0, |a|), b, 0, |b|)
  {
    ReadInto(r, a, b, |b|);
  }

  /** Feeding a chunk to what a reader holds is reading on, except for a title past the limit. */
  lemma {:induction false} FeedReads(r: Reader, chunk: string)
    requires Reachable(r) && Carried(r) == r
    ensures Fed(Held(r), chunk) == (Titles(r, chunk, 0, |chunk|), Held(Carried(Read(r, chunk, 0, |chunk|))))
  {
    if chunk != "" {
      var buffer := Held(r) + chunk;
      ScanReads(buffer, 0);
      HeldReadsBack(r);
      ReadConcat(Plain(0), Held(r), chunk);
      assert [] + Titles(r, chunk, 0, |chunk|) == Titles(r, chunk, 0, |chunk|);
    }
  }

  // ----- over a whole stream -----

  /** The reader without the limit, after all chunks. */
  function Whole(chunks: seq<string>): Reader {
    Read(Plain(0), Stream(chunks), 0, |Stream(chunks)|)
  }

  function StreamTitles(chunks: seq<string>): seq<string> {
    Titles(Plain(0), Stream(chunks), 0, |Stream(chunks)|)
  }

  /** The reader with the limit applied at each boundary. */
  function Limited(chunks: seq<string>): Reader {
    if chunks == [] then Plain(0)
    else
      var n := |chunks| - 1;
      Carried(Read(Limited(chunks[..n]), chunks[n], 0, |chunks[n]|))
  }

  function LimitedTitles(chunks: seq<string>): seq<string> {
    if chunks == [] then []
    else
      var n := |chunks| - 1;
      LimitedTitles(chunks[..n]) + Titles(Limited(chunks[..n]), chunks[n], 0, |chunks[n]|)
  }

  lemma {:induction false} FeedingIsLimitedReading(chunks: seq<string>)
    ensures FedAll(chunks) == (LimitedTitles(chunks), Held(Limited(chunks)))
    ensures Reachable(Limited(chunks)) && Carried(Limited(chunks)) == Limited(chunks)
  {
    if chunks != [] {
      var n := |chunks| - 1;
      FeedingIsLimitedReading(chunks[..n]);
      FeedReads(Limited(chunks[..n]), chunks[n]);
      ReadIsReachable(Limited(chunks[..n]), chunks[n], |chunks[n]|);
    }
  }

  lemma {:induction false} WholeStep(chunks: seq<string>)
    requires chunks != []
    ensures
      var n := |chunks| - 1;
      && Whole(chunks) == Read(Whole(chunks[..n]), chunks[n], 0, |chunks[n]|)
      && StreamTitles(chunks) == StreamTitles(chunks[..n]) + Titles(Whole(chunks[..n]), chunks[n], 0, |chunks[n]|)
  {
    var n := |chunks| - 1;
    ReadConcat(Plain(0), Stream(chunks[..n]), chunks[n]);
  }

  /** After some of the chunks, or all, an unfinished title is longer than what may be carried. */
  ghost predicate Overflows(chunks: seq<string>) {
    || Carried(Whole(chunks)) != Whole(chunks)
    || (chunks != [] && Overflows(chunks[..|chunks| - 1]))
  }

  /** Without an overflow the titles depend only on the stream, and the tail is exactly the unfinished
      part of it. */
  lemma {:induction false} ChunkingInvariance(chunks: seq<string>)
    requires !Overflows(chunks)
    ensures FedAll(chunks) == (StreamTitles(chunks), Held(Whole(chunks)))
    ensures |FedAll(chunks).1| <= 4096
  {
    NoLossWithoutOverflow(chunks);
    FeedingIsLimitedReading(chunks);
  }

  lemma {:induction false} NoLossWithoutOverflow(chunks: seq<string>)
    requires !Overflows(chunks)
    ensures Limited(chunks) == Whole(chunks) && LimitedTitles(chunks) == StreamTitles(chunks)
  {
    if chunks != [] {
      var n := |chunks| - 1;
      NoLossWithoutOverflow(chunks[..n]);
      WholeStep(chunks);
    }
  }

  /** Two ways to cut the same stream give the same titles. */
  lemma {:induction false} CutsAgree(a: seq<string>, b: seq<string>)
    requires Stream(a) == Stream(b) && !Overflows(a) && !Overflows(b)
    ensures FedAll(a) == FedAll(b)
  {
    ChunkingInvariance(a);
    ChunkingInvariance(b);
  }

  /** Overflow or not, the carried tail never exceeds the limit. */
  lemma {:induction false} TailIsBounded(chunks: seq<string>)
    ensures |FedAll(chunks).1| <= 4096
  {
    FeedingIsLimitedReading(chunks);
  }

  // ----- and only without an overflow -----

  function Text(r: Reader): string
    requires r.InTitle?
  {
    r.content + Escaped(r.hasEscape)
  }

  /** The limited reader has lost the beginning of a title that the whole reader is still in. */
  ghost predicate Behind(limited: Reader, whole: Reader) {
    && whole.InTitle?
    && (limited.InTitle? ==> limited.hasEscape == whole.hasEscape && |Text(limited)| < |Text(whole)|)
  }

  function Weight(titles: seq<string>): nat {
    if titles == [] then 0 else Weight(titles[..|titles| - 1]) + |titles[|titles| - 1]| + 1
  }

  lemma {:induction false} WeightConcat(a: seq<string>, b: seq<string>)
    ensures Weight(a + b) == Weight(a) + Weight(b)
  {
    if b == [] {
      assert a + b == a;
    } else {
      var n := |b| - 1;
      assert (a + b)[..|a + b| - 1] == a + b[..n];
      WeightConcat(a, b[..n]);
    }
  }

  lemma {:induction false} WeightSingle(title: string)
    ensures Weight([title]) == |title| + 1
  {
    assert [title][..0] == [];
  }

  /** One character later the reader is still behind, or the title's end has come and it gave out less. */
  lemma {:induction false} BehindStep(limited: Reader, whole: Reader, c: char)
    requires Behind(limited, whole)
    ensures
      var l, w := Next(limited, c), Next(whole, c);
      || (Behind(l, w) && Output(limited, c) == [] && Output(whole, c) == [] && c != BEL_CHAR)
      || (l == w && Weight(Output(limited, c)) < Weight(Output(whole, c)))
  {
    if Output(whole, c) != [] {
      WeightSingle(Output(whole, c)[0]);
      if Output(limited, c) != [] {
        WeightSingle(Output(limited, c)[0]);
      }
    }
  }

  ghost predicate Related(limited: Reader, whole: Reader) {
    limited == whole || Behind(limited, whole)
  }

  /** Reading on, the limited reader never gives out more; and it has given out less unless it still
      is where it was: level, or behind. */
  lemma {:induction false} RelatedReading(limited: Reader, whole: Reader, text: string, n: nat)
    requires Related(limited, whole) && n <= |text|
    ensures
      var l, w := Read(limited, text, 0, n), Read(whole, text, 0, n);
      var lost := Weight(Titles(limited, text, 0, n)) < Weight(Titles(whole, text, 0, n));
      && Related(l, w)
      && Weight(Titles(limited, text, 0, n)) <= Weight(Titles(whole, text, 0, n))
      && (lost || (limited == whole && l == w)
               || (Behind(limited, whole) && Behind(l, w) && forall i :: 0 <= i < n ==> text[i] != BEL_CHAR))
  {
    if n > 0 {
      RelatedReading(limited, whole, text, n - 1);
      var l, w, c := Read(limited, text, 0, n - 1), Read(whole, text, 0, n - 1), text[n - 1];
      WeightConcat(Titles(limited, text, 0, n - 1), Output(l, c));
      WeightConcat(Titles(whole, text, 0, n - 1), Output(w, c));
      if Behind(l, w) {
        BehindStep(l, w, c);
      }
    }
  }

  /** Over all chunks: never more, and once a title overflowed, less or still behind. */
  lemma {:induction false} OverflowLoses(chunks: seq<string>)
    ensures Related(Limited(chunks), Whole(chunks))
    ensures Weight(LimitedTitles(chunks)) <= Weight(StreamTitles(chunks))
    ensures Overflows(chunks) ==>
              Weight(LimitedTitles(chunks)) < Weight(StreamTitles(chunks)) || Behind(Limited(chunks), Whole(chunks))
  {
    if chunks != [] {
      var n := |chunks| - 1;
      OverflowLoses(chunks[..n]);
      WholeStep(chunks);
      var l, w := Limited(chunks[..n]), Whole(chunks[..n]);
      RelatedReading(l, w, chunks[n], |chunks[n]|);
      WeightConcat(LimitedTitles(chunks[..n]), Titles(l, chunks[n], 0, |chunks[n]|));
      WeightConcat(StreamTitles(chunks[..n]), Titles(w, chunks[n], 0, |chunks[n]|));
    }
  }

  /** The limit is exactly where chunking shows: close whatever is open with one more BEL, and feeding
      gives the titles of the stream if and only if no unfinished title overflowed at a boundary. */
  lemma {:induction false} ChunkingIsExact(chunks: seq<string>)
    ensures FedAll(chunks + [BEL]).0 == StreamTitles(chunks + [BEL]) <==> !Overflows(chunks)
  {
    var closed := chunks + [BEL];
    assert closed[..|chunks|] == chunks;
    FeedingIsLimitedReading(closed);
    WholeStep(closed);
    var l, w := Limited(chunks), Whole(chunks);
    if !Overflows(chunks) {
      NoLossWithoutOverflow(chunks);
    } else {
      OverflowLoses(chunks);
      RelatedReading(l, w, BEL, 1);
      WeightConcat(LimitedTitles(chunks), Titles(l, BEL, 0, 1));
      WeightConcat(StreamTitles(chunks), Titles(w, BEL, 0, 1));
    }
  }
}
