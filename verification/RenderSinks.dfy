/**
 A registered terminal in place: its queue is read by index, partly consumed and compacted. Every method
 does to the sink what `RenderScheduler` says.
 */
module RenderSinks {
  import opened RenderScheduler

  /** Appends a text to the writes of a batch, cut every 16 KiB. */
  method AppendWriteSlices(writes: seq<string>, entry: string) returns (r: seq<string>)
    ensures r == writes + Slices(entry)
  {
    if |entry| <= WRITE_SLICE_BYTES {
      r := writes + [entry];
      return;
    }
    r := writes;
    var at := 0;
    while at < |entry|
      invariant 0 <= at
      invariant if at < |entry| then r + Slices(entry[at..]) == writes + Slices(entry) else r == writes + Slices(entry)
    {
      var end := if at + WRITE_SLICE_BYTES < |entry| then at + WRITE_SLICE_BYTES else |entry|;
      SliceHead(entry, at, end);
      r := r + [entry[at..end]];
      at := at + WRITE_SLICE_BYTES;
    }
  }

  lemma {:induction false} SliceHead(entry: string, at: nat, end: nat)
    requires at < |entry|
    requires end == if at + WRITE_SLICE_BYTES < |entry| then at + WRITE_SLICE_BYTES else |entry|
    ensures Slices(entry[at..]) == [entry[at..end]] + if end < |entry| then Slices(entry[end..]) else []
  {
    var text := entry[at..];
    if end < |entry| {
      assert text[..WRITE_SLICE_BYTES] == entry[at..end] && text[WRITE_SLICE_BYTES..] == entry[end..];
    } else {
      assert text == entry[at..end];
    }
  }

  class TerminalSink {
    var pending: seq<Entry>
    var readIdx: nat
    var inFlight: bool
    var dirty: bool
    var live: bool
    /** What the terminal was given and the actions that ran. */
    var outs: seq<Out>
    ghost var enqueued: seq<Entry>
    /** Which of the sinks ever registered this is. */
    ghost const identity: nat

    ghost predicate Valid()
      reads this
    {
      readIdx <= |pending|
    }

    ghost function Value(): Sink
      requires Valid()
      reads this
    {
      Sink(pending[readIdx..], inFlight, dirty, live, enqueued, outs)
    }

    constructor (ghost identity: nat)
      ensures Valid() && Value() == NEW_SINK && this.identity == identity
    {
      this.identity := identity;
      pending, readIdx, inFlight, dirty, live, outs, enqueued := [], 0, false, false, true, [], [];
    }

    predicate HasPending()
      reads this
    {
      readIdx < |pending|
    }

    predicate IsServiceable()
      requires Valid()
      reads this
      ensures IsServiceable() == Serviceable(Value())
    {
      live && dirty && !inFlight && HasPending()
    }

    method Push(entry: Entry)
      requires Valid()
      modifies this
      ensures Valid() && Value() == Enqueued(old(Value()), entry)
    {
      assert (pending + [entry])[readIdx..] == pending[readIdx..] + [entry];
      pending := pending + [entry];
      enqueued := enqueued + [entry];
      dirty := true;
    }

    method ClearWhenDrained()
      requires Valid()
      modifies this
      ensures Valid()
      ensures Value() == if old(HasPending()) then old(Value()) else old(Value()).(dirty := false)
    {
      if HasPending() { return; }
      pending := [];
      readIdx := 0;
      dirty := false;
    }

    /** Drops the entries already read once there are enough of them. */
    method Compact()
      requires Valid()
      modifies this
      ensures Valid() && Value() == old(Value())
    {
      if HasPending() && readIdx >= COMPACT_THRESHOLD {
        pending := pending[readIdx..];
        readIdx := 0;
      }
    }

    /** Reads the queue from the front: runs leading actions, takes texts up to the cap, and leaves the
        rest of a text that is too long for a whole batch. */
    method TakeFromQueue(maxChunkBytes: nat) returns (writes: seq<string>)
      requires Valid()
      modifies this`pending, this`readIdx, this`outs
      ensures Valid()
      ensures
        var drawn := Draw(old(Value()).queue, 0, maxChunkBytes);
        && writes == AllSlices(drawn.taken)
        && pending[readIdx..] == drawn.left
        && outs == old(outs) + RunOuts(drawn.ran)
    {
      ghost var drawn := Draw(pending[readIdx..], 0, maxChunkBytes);
      ghost var taken: seq<string> := [];
      ghost var outs0 := outs;
      writes := [];
      var consumed: nat := 0;
      while readIdx < |pending|
        invariant readIdx <= |pending| && consumed <= maxChunkBytes
        invariant writes == AllSlices(taken)
        invariant Remaining(drawn, taken, outs0, outs, pending[readIdx..], consumed, maxChunkBytes)
        decreases |pending| - readIdx
      {
        ghost var rest := pending[readIdx..];
        assert rest[0] == pending[readIdx] && rest[1..] == pending[readIdx + 1..];
        if pending[readIdx].Action? {
          if consumed > 0 { break; }
          ActionTaken(drawn, taken, outs0, outs, rest, maxChunkBytes);
          outs := outs + [Ran(pending[readIdx].id)];
          readIdx := readIdx + 1;
          assert pending[readIdx..] == rest[1..];
          continue;
        }
        var next := pending[readIdx].text;
        if consumed + |next| <= maxChunkBytes {
          TextTaken(drawn, taken, outs0, outs, rest, consumed, maxChunkBytes);
          writes := AppendWriteSlices(writes, next);
          taken := taken + [next];
          consumed := consumed + |next|;
          readIdx := readIdx + 1;
          assert pending[readIdx..] == rest[1..];
          continue;
        }
        if consumed == 0 {
          TextCut(drawn, taken, outs0, outs, rest, maxChunkBytes);
          writes := AppendWriteSlices(writes, next[..maxChunkBytes]);
          pending := pending[readIdx := Data(next[maxChunkBytes..])];
          assert pending[readIdx..] == [Data(next[maxChunkBytes..])] + rest[1..];
          return;
        }
        break;
      }
      NothingFits(drawn, taken, outs0, outs, pending[readIdx..], consumed, maxChunkBytes);
    }

    /** One service: what was taken goes out as a batch, and nothing follows until it reports. */
    method Service(maxChunkBytes: nat)
      requires Valid() && IsServiceable()
      modifies this
      ensures Valid() && Value() == Serviced(old(Value()), maxChunkBytes)
    {
      var writes := TakeFromQueue(maxChunkBytes);
      NothingTakenNothingWritten(Draw(old(Value()).queue, 0, maxChunkBytes).taken);
      ClearWhenDrained();
      if writes == [] { return; }
      Compact();
      inFlight := true;
      outs := outs + [Batch(writes)];
    }

    /** The open batch reports drained. Says whether a frame is wanted. */
    method BatchDrained() returns (wantsFrame: bool)
      requires Valid() && inFlight
      modifies this
      ensures Valid() && Value() == Drained(old(Value()))
      ensures wantsFrame == (live && HasPending())
    {
      if !live { return false; }
      inFlight := false;
      outs := outs + [Reported];
      if HasPending() {
        dirty := true;
      }
      return HasPending();
    }
  }

  /** Part of the way through a queue: what is drawn in all is what has been drawn and what the rest of
      the queue will yield. */
  ghost predicate Remaining(
    drawn: Drawn, taken: seq<string>, outs0: seq<Out>, outs: seq<Out>, rest: seq<Entry>, consumed: nat, maxChunk: nat)
  {
    var more := Draw(rest, consumed, maxChunk);
    && drawn.left == more.left
    && drawn.taken == taken + more.taken
    && outs0 + RunOuts(drawn.ran) == outs + RunOuts(more.ran)
  }

  lemma {:induction false} ActionTaken(
    drawn: Drawn, taken: seq<string>, outs0: seq<Out>, outs: seq<Out>, rest: seq<Entry>, maxChunk: nat)
    requires rest != [] && rest[0].Action?
    requires Remaining(drawn, taken, outs0, outs, rest, 0, maxChunk)
    ensures Remaining(drawn, taken, outs0, outs + [Ran(rest[0].id)], rest[1..], 0, maxChunk)
  {
    var ids := Draw(rest, 0, maxChunk).ran;
    assert ids == [rest[0].id] + Draw(rest[1..], 0, maxChunk).ran;
    assert ids[1..] == Draw(rest[1..], 0, maxChunk).ran;
    assert outs + RunOuts(ids) == outs + [Ran(ids[0])] + RunOuts(ids[1..]);
  }

  lemma {:induction false} TextTaken(
    drawn: Drawn, taken: seq<string>, outs0: seq<Out>, outs: seq<Out>, rest: seq<Entry>, consumed: nat, maxChunk: nat)
    requires rest != [] && rest[0].Data? && consumed + |rest[0].text| <= maxChunk
    requires Remaining(drawn, taken, outs0, outs, rest, consumed, maxChunk)
    ensures Remaining(drawn, taken + [rest[0].text], outs0, outs, rest[1..], consumed + |rest[0].text|, maxChunk)
    ensures AllSlices(taken + [rest[0].text]) == AllSlices(taken) + Slices(rest[0].text)
  {
    assert (taken + [rest[0].text])[..|taken|] == taken;
  }

  lemma {:induction false} TextCut(
    drawn: Drawn, taken: seq<string>, outs0: seq<Out>, outs: seq<Out>, rest: seq<Entry>, maxChunk: nat)
    requires rest != [] && rest[0].Data? && |rest[0].text| > maxChunk
    requires Remaining(drawn, taken, outs0, outs, rest, 0, maxChunk)
    ensures drawn.taken == taken + [rest[0].text[..maxChunk]]
    ensures drawn.left == [Data(rest[0].text[maxChunk..])] + rest[1..]
    ensures outs == outs0 + RunOuts(drawn.ran)
    ensures AllSlices(drawn.taken) == AllSlices(taken) + Slices(rest[0].text[..maxChunk])
  {
    assert drawn.taken[..|taken|] == taken;
  }

  lemma {:induction false} NothingFits(
    drawn: Drawn, taken: seq<string>, outs0: seq<Out>, outs: seq<Out>, rest: seq<Entry>, consumed: nat, maxChunk: nat)
    requires Remaining(drawn, taken, outs0, outs, rest, consumed, maxChunk)
    requires rest != [] ==> consumed > 0 && (rest[0].Data? ==> consumed + |rest[0].text| > maxChunk)
    ensures drawn.taken == taken && drawn.left == rest && outs == outs0 + RunOuts(drawn.ran)
  {
  }

  lemma {:induction false} NothingTakenNothingWritten(taken: seq<string>)
    ensures AllSlices(taken) == [] <==> taken == []
  {
    if taken != [] {
      assert |Slices(taken[|taken| - 1])| > 0;
    }
  }
}
