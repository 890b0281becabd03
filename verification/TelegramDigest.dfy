/**
 Packing queued texts into as few messages as their length limit allows, and the digest that queues
 them until its timer runs out.
 */
module TelegramDigest {
  import opened Wrappers

  const MESSAGE_MAX_CHARS := 4096
  const SEPARATOR := "\n"

  /** Texts joined by the separator. */
  function Joined(texts: seq<string>): string {
    if texts == [] then ""
    else if |texts| == 1 then texts[0]
    else Joined(texts[..|texts| - 1]) + SEPARATOR + texts[|texts| - 1]
  }

  function Flat(groups: seq<seq<string>>): seq<string> {
    if groups == [] then [] else Flat(groups[..|groups| - 1]) + groups[|groups| - 1]
  }

  function JoinedEach(groups: seq<seq<string>>): (messages: seq<string>)
    ensures |messages| == |groups|
  {
    seq(|groups|, i requires 0 <= i < |groups| => Joined(groups[i]))
  }

  /** A group may be sent as one message: it is within the limit, or a single text. */
  predicate Sendable(group: seq<string>) {
    group != [] && (|group| == 1 || |Joined(group)| <= 4096)
  }

  /** An order-preserving grouping of the texts into messages that may be sent. */
  ghost predicate IsPacking(groups: seq<seq<string>>, texts: seq<string>) {
    Flat(groups) == texts && forall i :: 0 <= i < |groups| ==> Sendable(groups[i])
  }

  // ----- the greedy packing -----

  function WithText(groups: seq<seq<string>>, text: string): seq<seq<string>> {
    var last := |groups| - 1;
    if groups != [] && |Joined(groups[last])| + |SEPARATOR| + |text| <= MESSAGE_MAX_CHARS then
      groups[last := groups[last] + [text]]
    else groups + [[text]]
  }

  function Packed(texts: seq<string>): seq<seq<string>> {
    if texts == [] then [] else WithText(Packed(texts[..|texts| - 1]), texts[|texts| - 1])
  }

  lemma {:induction false} JoinedWithText(group: seq<string>, text: string)
    requires group != []
    ensures Joined(group + [text]) == Joined(group) + SEPARATOR + text
  {
    assert (group + [text])[..|group|] == group;
  }

  lemma {:induction false} PackedIsPacking(texts: seq<string>)
    ensures IsPacking(Packed(texts), texts)
  {
    if texts != [] {
      var n := |texts| - 1;
      PackedIsPacking(texts[..n]);
      var groups, after := Packed(texts[..n]), Packed(texts);
      assert texts == texts[..n] + [texts[n]];
      if |after| == |groups| {
        var last := |groups| - 1;
        JoinedWithText(groups[last], texts[n]);
        assert after[..last] == groups[..last];
        assert Flat(after) == Flat(groups) + [texts[n]];
      } else {
        assert after[..|groups|] == groups;
      }
    }
  }

  // ----- nothing is lost -----

  lemma {:induction false} JoinedConcat(a: seq<string>, b: seq<string>)
    requires a != [] && b != []
    ensures Joined(a + b) == Joined(a) + SEPARATOR + Joined(b)
  {
    if |b| == 1 {
      JoinedWithText(a, b[0]);
      assert b == [b[0]];
    } else {
      var n := |b| - 1;
      JoinedConcat(a, b[..n]);
      assert (a + b)[..|a + b| - 1] == a + b[..n];
    }
  }

  /** Joining the messages of any packing is joining the texts. */
  lemma {:induction false} PackingIsLossless(groups: seq<seq<string>>, texts: seq<string>)
    requires IsPacking(groups, texts)
    ensures Joined(JoinedEach(groups)) == Joined(texts)
  {
    if |groups| == 1 {
      assert groups[..0] == [];
      assert Flat(groups) == groups[0];
      assert JoinedEach(groups) == [Joined(groups[0])];
    } else if |groups| > 1 {
      var n := |groups| - 1;
      PackingIsLossless(groups[..n], Flat(groups[..n]));
      PackingHasTexts(groups[..n]);
      JoinedConcat(Flat(groups[..n]), groups[n]);
      assert JoinedEach(groups)[..n] == JoinedEach(groups[..n]);
    }
  }

  lemma {:induction false} PackingHasTexts(groups: seq<seq<string>>)
    requires groups != [] && forall i :: 0 <= i < |groups| ==> Sendable(groups[i])
    ensures Flat(groups) != []
  {
    assert groups[|groups| - 1] != [];
  }

  // ----- nothing is wasted -----

  lemma {:induction false} SuffixIsShorter(texts: seq<string>, from: nat)
    requires from < |texts|
    ensures |Joined(texts[from..])| <= |Joined(texts)|
  {
    if from > 0 {
      JoinedConcat(texts[..from], texts[from..]);
      assert texts[..from] + texts[from..] == texts;
    } else {
      assert texts[0..] == texts;
    }
  }

  /** The packing without its last text. */
  function WithoutLast(groups: seq<seq<string>>): seq<seq<string>>
    requires groups != [] && groups[|groups| - 1] != []
  {
    var n := |groups| - 1;
    var last := groups[n];
    if |last| == 1 then groups[..n] else groups[n := last[..|last| - 1]]
  }

  lemma {:induction false} WithoutLastIsPacking(groups: seq<seq<string>>, texts: seq<string>)
    requires IsPacking(groups, texts) && texts != []
    ensures groups != [] && groups[|groups| - 1] != []
    ensures IsPacking(WithoutLast(groups), texts[..|texts| - 1])
    ensures groups[|groups| - 1][|groups[|groups| - 1]| - 1] == texts[|texts| - 1]
  {
    var n := |groups| - 1;
    assert groups != [];
    assert Sendable(groups[n]);
    var last := groups[n];
    var m := |last| - 1;
    assert last == last[..m] + [last[m]];
    assert texts == Flat(groups[..n]) + last;
    if m == 0 {
      assert texts[..|texts| - 1] == Flat(groups[..n]);
    } else {
      assert texts[..|texts| - 1] == Flat(groups[..n]) + last[..m];
      assert WithoutLast(groups)[..n] == groups[..n];
      JoinedWithText(last[..m], last[m]);
    }
  }

  /** The last group holds the last of the texts. */
  lemma {:induction false} LastGroupIsSuffix(groups: seq<seq<string>>, texts: seq<string>)
    requires IsPacking(groups, texts) && groups != []
    ensures
      var last := groups[|groups| - 1];
      last != [] && |last| <= |texts| && last == texts[|texts| - |last|..]
  {
    assert Sendable(groups[|groups| - 1]);
  }

  lemma {:induction false} GroupTextsAreTexts(groups: seq<seq<string>>, i: nat)
    requires i < |groups|
    ensures forall text :: text in groups[i] ==> text in Flat(groups)
  {
    if i < |groups| - 1 {
      GroupTextsAreTexts(groups[..|groups| - 1], i);
    }
  }

  lemma {:induction false} OversizedIsOneText(groups: seq<seq<string>>, texts: seq<string>)
    requires IsPacking(groups, texts)
    ensures forall i :: 0 <= i < |groups| ==> |Joined(groups[i])| <= MESSAGE_MAX_CHARS || Joined(groups[i]) in texts
  {
    forall i | 0 <= i < |groups| && |Joined(groups[i])| > MESSAGE_MAX_CHARS
      ensures Joined(groups[i]) in texts
    {
      assert Sendable(groups[i]);
      GroupTextsAreTexts(groups, i);
      assert groups[i][0] in groups[i];
    }
  }

  /** A text that follows `g` in one sendable message also fits behind fewer texts of its end. */
  lemma {:induction false} FitsBehindSuffix(own: seq<string>, g: seq<string>, text: string)
    requires own != [] && |own| <= |g| && own == g[|g| - |own|..]
    requires Sendable(g + [text])
    ensures |Joined(own)| + |SEPARATOR| + |text| <= MESSAGE_MAX_CHARS
  {
    SuffixIsShorter(g, |g| - |own|);
    JoinedWithText(g, text);
  }

  /** When both packings had as many messages, the text another one appends is appended here too. */
  lemma {:induction false} GreedyAppends(
    greedy: seq<seq<string>>, fewer: seq<seq<string>>, texts: seq<string>, text: string)
    requires IsPacking(greedy, texts) && IsPacking(fewer, texts)
    requires |greedy| == |fewer| > 0 && |greedy[|greedy| - 1]| <= |fewer[|fewer| - 1]|
    requires Sendable(fewer[|fewer| - 1] + [text])
    ensures WithText(greedy, text) == greedy[|greedy| - 1 := greedy[|greedy| - 1] + [text]]
  {
    LastGroupIsSuffix(greedy, texts);
    LastGroupIsSuffix(fewer, texts);
    FitsBehindSuffix(greedy[|greedy| - 1], fewer[|fewer| - 1], text);
  }

  /** The greedy packing is never behind: it uses no more messages than any other, and when it uses as
      many, its last message holds no more texts. */
  lemma {:induction false} GreedyStaysAhead(groups: seq<seq<string>>, texts: seq<string>)
    requires IsPacking(groups, texts)
    ensures |Packed(texts)| <= |groups|
    ensures |Packed(texts)| == |groups| && groups != [] ==>
              |Packed(texts)[|groups| - 1]| <= |groups[|groups| - 1]|
    decreases |texts|
  {
    if texts != [] {
      var n := |texts| - 1;
      WithoutLastIsPacking(groups, texts);
      var fewer := WithoutLast(groups);
      GreedyStaysAhead(fewer, texts[..n]);
      var greedy, last := Packed(texts[..n]), groups[|groups| - 1];
      if |last| > 1 && |greedy| == |groups| {
        assert last == last[..|last| - 1] + [texts[n]];
        PackedIsPacking(texts[..n]);
        GreedyAppends(greedy, fewer, texts[..n], texts[n]);
      }
    }
  }

  // ----- the method -----

  function WithMessage(messages: seq<string>, text: string): seq<string> {
    var last := |messages| - 1;
    if messages != [] && |messages[last]| + |SEPARATOR| + |text| <= MESSAGE_MAX_CHARS then
      messages[last := messages[last] + SEPARATOR + text]
    else messages + [text]
  }

  /** Appending to the last message is adding to the last group. */
  lemma {:induction false} MessagesFollowGroups(groups: seq<seq<string>>, text: string)
    requires forall i :: 0 <= i < |groups| ==> Sendable(groups[i])
    ensures WithMessage(JoinedEach(groups), text) == JoinedEach(WithText(groups, text))
  {
    if groups != [] {
      assert Sendable(groups[|groups| - 1]);
      JoinedWithText(groups[|groups| - 1], text);
    }
  }

  /** The messages of the greedy packing: joined they are the texts joined, each is within the limit
      or one oversized text, and no other packing has fewer. */
  lemma {:induction false} GreedyIsOptimal(texts: seq<string>)
    ensures
      var messages := JoinedEach(Packed(texts));
      && Joined(messages) == Joined(texts)
      && (forall i :: 0 <= i < |messages| ==> |messages[i]| <= MESSAGE_MAX_CHARS || messages[i] in texts)
      && (forall groups :: IsPacking(groups, texts) ==> |messages| <= |groups|)
  {
    PackedIsPacking(texts);
    PackingIsLossless(Packed(texts), texts);
    OversizedIsOneText(Packed(texts), texts);
    forall groups | IsPacking(groups, texts)
      ensures |Packed(texts)| <= |groups|
    {
      GreedyStaysAhead(groups, texts);
    }
  }

  /** The messages of one more text. */
  lemma {:induction false} PackNext(texts: seq<string>, i: nat)
    requires i < |texts|
    ensures WithMessage(JoinedEach(Packed(texts[..i])), texts[i]) == JoinedEach(Packed(texts[..i + 1]))
  {
    assert texts[..i + 1][..i] == texts[..i];
    PackedIsPacking(texts[..i]);
    MessagesFollowGroups(Packed(texts[..i]), texts[i]);
  }

  method PackIntoMessages(texts: seq<string>) returns (messages: seq<string>)
    ensures messages == JoinedEach(Packed(texts))
    ensures Joined(messages) == Joined(texts)
    ensures forall groups :: IsPacking(groups, texts) ==> |messages| <= |groups|
    ensures forall i :: 0 <= i < |messages| ==> |messages[i]| <= MESSAGE_MAX_CHARS || messages[i] in texts
  {
    messages := [];
    var i := 0;
    while i < |texts|
      invariant 0 <= i <= |texts|
      invariant messages == JoinedEach(Packed(texts[..i]))
    {
      PackNext(texts, i);
      var text := texts[i];
      var lastIndex := |messages| - 1;
      var canAppend := messages != [] && |messages[lastIndex]| + |SEPARATOR| + |text| <= MESSAGE_MAX_CHARS;
      i := i + 1;
      if !canAppend {
        messages := messages + [text];
        continue;
      }
      messages := messages[lastIndex := messages[lastIndex] + SEPARATOR + text];
    }
    assert texts[..i] == texts;
    GreedyIsOptimal(texts);
  }

  // ----- the digest -----

  datatype Event = BufferText(text: string, now: int) | FlushNow | TimerFires(now: int)

  /** `timerDue` is when the leading timer is due, while it is armed. */
  datatype Digest = Digest(bufferedTexts: seq<string>, timerDue: Option<int>, delivered: seq<string>)

  const NEW_DIGEST := Digest([], None, [])

  function Flushed(d: Digest): Digest {
    if d.bufferedTexts == [] then d.(timerDue := None)
    else Digest([], None, d.delivered + JoinedEach(Packed(d.bufferedTexts)))
  }

  /** A timer that is not armed, or not due yet, does not fire. */
  function Step(d: Digest, event: Event, windowMs: int): Digest {
    match event
    case BufferText(text, now) =>
      d.(bufferedTexts := d.bufferedTexts + [text],
         timerDue := if d.timerDue.Some? then d.timerDue else Some(now + windowMs))
    case FlushNow => Flushed(d)
    case TimerFires(now) => if d.timerDue.Some? && d.timerDue.value <= now then Flushed(d) else d
  }

  function Run(events: seq<Event>, windowMs: int): Digest {
    if events == [] then NEW_DIGEST else Step(Run(events[..|events| - 1], windowMs), events[|events| - 1], windowMs)
  }

  function Texts(events: seq<Event>): seq<string> {
    if events == [] then []
    else
      var before := Texts(events[..|events| - 1]);
      match events[|events| - 1]
      case BufferText(text, _) => before + [text]
      case _ => before
  }

  lemma {:induction false} FlatConcat(a: seq<seq<string>>, b: seq<seq<string>>)
    ensures Flat(a + b) == Flat(a) + Flat(b)
  {
    if b == [] {
      assert a + b == a;
    } else {
      var n := |b| - 1;
      assert (a + b)[..|a + b| - 1] == a + b[..n];
      FlatConcat(a, b[..n]);
    }
  }

  /** What is delivered are the messages of some packing of the texts that are no longer queued, and a
      queued text has a timer running for it. */
  ghost predicate Accounted(d: Digest, groups: seq<seq<string>>, texts: seq<string>) {
    && d.delivered == JoinedEach(groups) && IsPacking(groups, Flat(groups))
    && Flat(groups) + d.bufferedTexts == texts
    && (d.timerDue.Some? <==> d.bufferedTexts != [])
  }

  lemma {:induction false} PackingsConcat(a: seq<seq<string>>, b: seq<seq<string>>, texts: seq<string>)
    requires IsPacking(a, Flat(a)) && IsPacking(b, texts)
    ensures Flat(a + b) == Flat(a) + texts && IsPacking(a + b, Flat(a + b))
    ensures JoinedEach(a + b) == JoinedEach(a) + JoinedEach(b)
  {
    FlatConcat(a, b);
  }

  lemma {:induction false} FlushAccounts(d: Digest, groups: seq<seq<string>>, texts: seq<string>)
    requires Accounted(d, groups, texts)
    ensures exists after :: Accounted(Flushed(d), after, texts)
  {
    if d.bufferedTexts == [] {
      assert Accounted(Flushed(d), groups, texts);
    } else {
      var more := Packed(d.bufferedTexts);
      PackedIsPacking(d.bufferedTexts);
      PackingsConcat(groups, more, d.bufferedTexts);
      var all := groups + more;
      assert Flat(all) + Flushed(d).bufferedTexts == texts;
      assert Accounted(Flushed(d), all, texts);
    }
  }

  /** Over every run: each text given to the digest is in exactly one place, in order, in a delivered
      message or still queued; and a queued text has a timer running for it. */
  lemma {:induction false} NothingIsLost(events: seq<Event>, windowMs: int)
    ensures exists groups :: Accounted(Run(events, windowMs), groups, Texts(events))
  {
    if events == [] {
      var none: seq<seq<string>> := [];
      assert JoinedEach(none) == [];
      assert Accounted(Run(events, windowMs), none, Texts(events));
    } else {
      var n := |events| - 1;
      NothingIsLost(events[..n], windowMs);
      var d, texts := Run(events[..n], windowMs), Texts(events[..n]);
      var groups :| Accounted(d, groups, texts);
      match events[n]
      case BufferText(text, _) =>
        assert Flat(groups) + (d.bufferedTexts + [text]) == texts + [text];
        assert Accounted(Run(events, windowMs), groups, Texts(events));
      case _ =>
        FlushAccounts(d, groups, texts);
        if Run(events, windowMs) == d {
          assert Accounted(Run(events, windowMs), groups, Texts(events));
        } else {
          assert Run(events, windowMs) == Flushed(d) && Texts(events) == texts;
        }
    }
  }

  // ----- when texts go out -----

  /** The time of the oldest text that is queued: a flush, and a timer that is due for it, let it go. */
  function OldestAt(events: seq<Event>, windowMs: int): Option<int> {
    if events == [] then None
    else
      var before := OldestAt(events[..|events| - 1], windowMs);
      match events[|events| - 1]
      case BufferText(_, now) => if before.Some? then before else Some(now)
      case FlushNow => None
      case TimerFires(now) => if before.Some? && before.value + windowMs <= now then None else before
  }

  /** Over every run the timer is due one window after the oldest queued text came, whatever texts came after
      it. */
  lemma {:induction false} NoTextWaitsLonger(events: seq<Event>, windowMs: int)
    ensures
      var d, oldest := Run(events, windowMs), OldestAt(events, windowMs);
      && (d.bufferedTexts != [] <==> oldest.Some?)
      && d.timerDue == if oldest.Some? then Some(oldest.value + windowMs) else None
  {
    if events != [] {
      NoTextWaitsLonger(events[..|events| - 1], windowMs);
    }
  }

  /** All queued texts have gone out, in as few messages as can hold them. */
  ghost predicate SentAll(d: Digest, after: Digest) {
    && after.bufferedTexts == [] && after.timerDue.None?
    && exists groups ::
         && IsPacking(groups, d.bufferedTexts) && after.delivered == d.delivered + JoinedEach(groups)
         && forall others :: IsPacking(others, d.bufferedTexts) ==> |groups| <= |others|
  }

  lemma {:induction false} FlushSendsAll(d: Digest)
    ensures SentAll(d, Flushed(d))
  {
    var groups := Packed(d.bufferedTexts);
    PackedIsPacking(d.bufferedTexts);
    forall others | IsPacking(others, d.bufferedTexts)
      ensures |groups| <= |others|
    {
      GreedyStaysAhead(others, d.bufferedTexts);
    }
    if d.bufferedTexts == [] {
      assert d.delivered + JoinedEach(groups) == d.delivered;
    }
  }

  /** A flush, and the timer one window after the oldest queued text came, send everything queued; an earlier
      timer does nothing. */
  lemma {:induction false} QueuedTextsGoOut(events: seq<Event>, windowMs: int, now: int)
    ensures
      var d, oldest := Run(events, windowMs), OldestAt(events, windowMs);
      && SentAll(d, Step(d, FlushNow, windowMs))
      && if oldest.Some? && oldest.value + windowMs <= now then SentAll(d, Step(d, TimerFires(now), windowMs))
         else Step(d, TimerFires(now), windowMs) == d
  {
    NoTextWaitsLonger(events, windowMs);
    FlushSendsAll(Run(events, windowMs));
  }

  class TelegramDigest {
    const windowMs: int
    var bufferedTexts: seq<string>
    var timerDue: Option<int>
    var delivered: seq<string>

    function Value(): Digest
      reads this
    {
      Digest(bufferedTexts, timerDue, delivered)
    }

    constructor (windowMs: int)
      ensures Value() == NEW_DIGEST && this.windowMs == windowMs
    {
      this.windowMs := windowMs;
      bufferedTexts, timerDue, delivered := [], None, [];
    }

    method BufferText(text: string, now: int)
      modifies this
      ensures Value() == Step(old(Value()), Event.BufferText(text, now), windowMs)
    {
      bufferedTexts := bufferedTexts + [text];
      if timerDue.None? {
        timerDue := Some(now + windowMs);
      }
    }

    method DeliverEach(messages: seq<string>)
      modifies this`delivered
      ensures delivered == old(delivered) + messages
    {
      var i := 0;
      while i < |messages|
        invariant 0 <= i <= |messages|
        invariant delivered == old(delivered) + messages[..i]
      {
        assert messages[..i + 1] == messages[..i] + [messages[i]];
        delivered := delivered + [messages[i]];
        i := i + 1;
      }
      assert messages[..i] == messages;
    }

    method Flush()
      modifies this
      ensures Value() == Step(old(Value()), FlushNow, windowMs)
    {
      timerDue := None;
      if bufferedTexts == [] { return; }
      var digestMessages := PackIntoMessages(bufferedTexts);
      bufferedTexts := [];
      DeliverEach(digestMessages);
    }

    method TimerFired(now: int)
      modifies this
      ensures Value() == Step(old(Value()), TimerFires(now), windowMs)
    {
      if timerDue.None? || now < timerDue.value { return; }
      timerDue := None;
      Flush();
    }
  }
}
