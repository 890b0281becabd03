/**
 What the control client answers and passes on, told from its events: each request gets the answer of the
 first thing that ends it, every message that answers no request is passed on, and a client on its way
 does get a socket.
 */
module ControlAnswers {
  import opened ControlWs
  import opened ControlWsRuns
  import opened Wrappers

  // ----- numbers -----

  /** The number after which messages pass, from the frames of the current sockets. */
  function LastTaken(events: seq<Event>, isLocal: bool): int {
    if events == [] then 0
    else
      var front, last := events[..|events| - 1], events[|events| - 1];
      var before := LastTaken(front, isLocal);
      if last.FrameArrives? && last.frame.Message? && IsCurrent(Run(NEW_CLIENT, front, isLocal), last.ws) then
        match last.frame.seqNumber
        case Some(n) => if n > before then n else before
        case None => if last.frame.isSnapshot then 0 else before
      else before
  }

  /** After these events the frame is a message of the current socket that has not been seen before. */
  predicate Passes(events: seq<Event>, isLocal: bool, ws: nat, frame: Frame) {
    && IsCurrent(Run(NEW_CLIENT, events, isLocal), ws) && frame.Message?
    && (frame.seqNumber.Some? ==> frame.seqNumber.value > LastTaken(events, isLocal))
  }

  // ----- answers -----

  /** How many requests have been made. */
  function Made(events: seq<Event>): nat {
    if events == [] then 0 else Made(events[..|events| - 1]) + if events[|events| - 1].RequestMade? then 1 else 0
  }

  /** The answer with which an event ends a request that waits, if it does: a message of the current socket that
      names it and passes, a frame outside the contract that names it, its timeout, or the loss of the
      socket. */
  function Ending(events: seq<Event>, event: Event, isLocal: bool, request: nat): Option<Answer> {
    match event
    case TimeoutDue(r) => if r == request then Some(RequestTimedOut) else None
    case Abandoned => Some(NotConnected)
    case ReconnectAsked => Some(NotConnected)
    case SocketIsClosed(ws) => if IsCurrent(Run(NEW_CLIENT, events, isLocal), ws) then Some(NotConnected) else None
    case FrameArrives(ws, frame) =>
      if !IsCurrent(Run(NEW_CLIENT, events, isLocal), ws) || frame.NotJson? then None
      else if frame.requestId != Some(request) then None
      else if frame.NotInContract? then Some(Unreadable)
      else if Passes(events, isLocal, ws, frame) then Some(Reply(frame.body))
      else None
    case _ => None
  }

  /** The first answer a request got: at once if there was no open socket to send it on, and otherwise from the
      first event that ended it. */
  function FirstAnswer(events: seq<Event>, isLocal: bool, request: nat): Option<Answer> {
    if events == [] then None
    else
      var front, last := events[..|events| - 1], events[|events| - 1];
      var before := FirstAnswer(front, isLocal, request);
      if before.Some? then before
      else if request < Made(front) then Ending(front, last, isLocal, request)
      else if request < Made(events) && !IsOpen(Run(NEW_CLIENT, front, isLocal)) then Some(NotConnected)
      else None
  }

  /** What is passed on: the bodies of the messages that pass and answer no request that waits. */
  function PassedOn(events: seq<Event>, isLocal: bool): seq<nat> {
    if events == [] then []
    else
      var front, last := events[..|events| - 1], events[|events| - 1];
      var before := PassedOn(front, isLocal);
      if last.FrameArrives? && Passes(front, isLocal, last.ws, last.frame)
         && !(last.frame.requestId.Some? && Waits(front, isLocal, last.frame.requestId.value)) then
        before + [last.frame.body]
      else before
  }

  predicate Waits(events: seq<Event>, isLocal: bool, request: nat) {
    request < Made(events) && FirstAnswer(events, isLocal, request).None?
  }

  // ----- the client keeps these books -----

  predicate HasAnswer(settlements: seq<Settlement>, request: nat, answer: Answer) {
    Settlement(request, answer) in settlements
  }

  /** The request waits exactly if it should, and its answers are just the one given. */
  ghost predicate IsAnswered(c: Client, request: nat, waits: bool, given: Option<Answer>) {
    && (request in c.pending <==> waits)
    && forall answer :: HasAnswer(c.settlements, request, answer) <==> given == Some(answer)
  }

  ghost predicate KeepsBooks(c: Client, events: seq<Event>, isLocal: bool) {
    && Counts(c, events, isLocal)
    && forall request: nat ::
         IsAnswered(c, request, Waits(events, isLocal, request), FirstAnswer(events, isLocal, request))
  }

  lemma {:induction false} UnmadeIsUnanswered(events: seq<Event>, isLocal: bool, request: nat)
    ensures FirstAnswer(events, isLocal, request).Some? ==> request < Made(events)
  {
    if events != [] {
      UnmadeIsUnanswered(events[..|events| - 1], isLocal, request);
    }
  }

  lemma {:induction false} SettledAnswers(c: Client, request: nat, answer: Answer, r: nat, given: Option<Answer>)
    requires Accounted(c) && request in c.pending && IsAnswered(c, r, r in c.pending, given)
    requires r in c.pending ==> given.None?
    ensures
      var c' := Settled(c, request, answer);
      IsAnswered(c', r, r in c.pending && r != request, if r == request then Some(answer) else given)
  {
    WithoutIsExact(c.pending, request);
    forall a
      ensures HasAnswer(Settled(c, request, answer).settlements, r, a) <==>
                HasAnswer(c.settlements, r, a) || (r == request && a == answer)
    {
    }
  }

  /** Rejecting answers exactly the requests that wait. */
  lemma {:induction false} RejectedAnswers(c: Client, r: nat, given: Option<Answer>)
    requires Accounted(c) && IsAnswered(c, r, r in c.pending, given) && (r in c.pending ==> given.None?)
    ensures IsAnswered(Rejected(c), r, false, if r in c.pending then Some(NotConnected) else given)
    decreases |c.pending|
  {
    if c.pending != [] {
      var first := c.pending[0];
      SettledKeepsAccounts(c, first, NotConnected);
      SettledAnswers(c, first, NotConnected, r, given);
      WithoutIsExact(c.pending, first);
      RejectedAnswers(Settled(c, first, NotConnected), r, if r == first then Some(NotConnected) else given);
    }
  }

  /** A request that waits has no answer, and one not made yet neither. */
  ghost predicate InOrder(c: Client, r: nat, given: Option<Answer>) {
    && Accounted(c) && IsAnswered(c, r, r in c.pending, given)
    && (given.Some? ==> r < c.nextRequest && r !in c.pending)
  }

  lemma {:induction false} RequestAnswers(c: Client, r: nat, given: Option<Answer>)
    requires InOrder(c, r, given)
    ensures
      var isNew := r == c.nextRequest;
      IsAnswered(Request(c), r, if isNew then IsOpen(c) else r in c.pending,
                 if isNew && !IsOpen(c) then Some(NotConnected) else given)
  {
    var request := c.nextRequest;
    var c1 := c.(pending := c.pending + [request], timers := c.timers + {request}, nextRequest := request + 1);
    assert AccountsFor(c, request);
    RequestKeepsAccounts(c);
    NoRepeatsAppend(c.pending, request);
    if !IsOpen(c) {
      forall q: nat ensures AccountsFor(c1, q) {
        assert AccountsFor(c, q);
      }
      SettledAnswers(c1, request, NotConnected, r, given);
    }
  }

  lemma {:induction false} TimeoutAnswers(c: Client, request: nat, r: nat, given: Option<Answer>)
    requires InOrder(c, r, given)
    ensures
      var ends := r == request && r in c.pending;
      IsAnswered(RequestTimerFired(c, request), r, r in c.pending && r != request,
                 if ends then Some(RequestTimedOut) else given)
  {
    assert AccountsFor(c, request);
    if request in c.pending {
      SettledAnswers(c, request, RequestTimedOut, r, given);
    }
  }

  /** Only requests and answers matter to the books. */
  lemma {:induction false} SameAnswers(c: Client, c': Client, r: nat, waits: bool, given: Option<Answer>)
    requires IsAnswered(c, r, waits, given) && c'.pending == c.pending && c'.settlements == c.settlements
    ensures IsAnswered(c', r, waits, given)
  {
  }

  lemma {:induction false} LossAnswers(c: Client, c1: Client, c': Client, r: nat, given: Option<Answer>)
    requires InOrder(c, r, given)
    requires c1.pending == c.pending && c1.timers == c.timers && c1.nextRequest == c.nextRequest
    requires c1.settlements == c.settlements
    requires c'.pending == Rejected(c1).pending && c'.settlements == Rejected(c1).settlements
    ensures IsAnswered(c', r, false, if r in c.pending then Some(NotConnected) else given)
  {
    SameAccounts(c, c1);
    SameAnswers(c, c1, r, r in c.pending, given);
    RejectedAnswers(c1, r, given);
    SameAnswers(Rejected(c1), c', r, false, if r in c.pending then Some(NotConnected) else given);
  }

  predicate IsNew(c: Client, frame: Frame) {
    frame.Message? && (frame.seqNumber.Some? ==> frame.seqNumber.value > c.lastSeq)
  }

  /** The frame ends the request in this state. */
  predicate EndsIn(c: Client, ws: nat, frame: Frame, request: nat) {
    && IsCurrent(c, ws) && request in c.pending && !frame.NotJson? && frame.requestId == Some(request)
    && (frame.NotInContract? || IsNew(c, frame))
  }

  function MarkedBy(c: Client, frame: Frame): Client {
    if frame.Message? then Marked(c, frame.seqNumber, frame.isSnapshot) else c
  }

  lemma {:induction false} MarkingOnlyCounts(c: Client, frame: Frame)
    ensures
      var c1 := MarkedBy(c, frame);
      c1 == c.(lastSeq := c1.lastSeq, marks := c1.marks)
  {
  }

  lemma {:induction false} EndingFrame(c: Client, ws: nat, frame: Frame, request: nat)
    requires EndsIn(c, ws, frame, request)
    ensures
      var answer := if frame.Message? then Reply(frame.body) else Unreadable;
      Received(c, ws, frame) == Settled(MarkedBy(c, frame), request, answer)
  {
  }

  lemma {:induction false} OtherFrame(c: Client, ws: nat, frame: Frame)
    requires !frame.NotJson? && frame.requestId.Some? ==> !EndsIn(c, ws, frame, frame.requestId.value)
    ensures
      var c', c1 := Received(c, ws, frame), if IsCurrent(c, ws) then MarkedBy(c, frame) else c;
      c' == if IsCurrent(c, ws) && IsNew(c, frame) then c1.(delivered := c.delivered + [frame.body]) else c1
  {
    MarkingOnlyCounts(c, frame);
  }

  /** What a frame does to the record of answers and messages: it answers the request it ends, is passed on when
      it is new and ends none, and otherwise leaves no trace there. */
  predicate IsHeard(c: Client, ws: nat, frame: Frame, settlements: seq<Settlement>, delivered: seq<nat>) {
    if !frame.NotJson? && frame.requestId.Some? && EndsIn(c, ws, frame, frame.requestId.value) then
      var answer := if frame.Message? then Reply(frame.body) else Unreadable;
      settlements == c.settlements + [Settlement(frame.requestId.value, answer)] && delivered == c.delivered
    else
      && settlements == c.settlements
      && delivered == c.delivered + if IsCurrent(c, ws) && IsNew(c, frame) then [frame.body] else []
  }

  lemma {:induction false} FrameIsHeard(c: Client, ws: nat, frame: Frame)
    ensures IsHeard(c, ws, frame, Received(c, ws, frame).settlements, Received(c, ws, frame).delivered)
  {
    MarkingOnlyCounts(c, frame);
    if !frame.NotJson? && frame.requestId.Some? && EndsIn(c, ws, frame, frame.requestId.value) {
      EndingFrame(c, ws, frame, frame.requestId.value);
    } else {
      OtherFrame(c, ws, frame);
    }
  }

  lemma {:induction false} FrameAnswers(c: Client, ws: nat, frame: Frame, r: nat, given: Option<Answer>)
    requires InOrder(c, r, given)
    ensures
      var ends := EndsIn(c, ws, frame, r);
      IsAnswered(Received(c, ws, frame), r, r in c.pending && !ends,
                 if ends then Some(if frame.Message? then Reply(frame.body) else Unreadable) else given)
  {
    var c1 := MarkedBy(c, frame);
    MarkingOnlyCounts(c, frame);
    if !frame.NotJson? && frame.requestId.Some? && EndsIn(c, ws, frame, frame.requestId.value) {
      var request := frame.requestId.value;
      EndingFrame(c, ws, frame, request);
      SameAccounts(c, c1);
      SettledAnswers(c1, request, if frame.Message? then Reply(frame.body) else Unreadable, r, given);
    } else {
      OtherFrame(c, ws, frame);
      SameAnswers(c, Received(c, ws, frame), r, r in c.pending, given);
    }
  }

  /** What an event does to one request. */
  lemma {:induction false} EventAnswers(c: Client, event: Event, isLocal: bool, r: nat, given: Option<Answer>)
    requires InOrder(c, r, given) && !event.RequestMade? && !event.FrameArrives?
    ensures
      var ends := r in c.pending
        && match event
           case TimeoutDue(request) => request == r
           case Abandoned => true
           case ReconnectAsked => true
           case SocketIsClosed(ws) => IsCurrent(c, ws)
           case _ => false;
      IsAnswered(Step(c, event, isLocal), r, r in c.pending && !ends,
                 if ends then Some(if event.TimeoutDue? then RequestTimedOut else NotConnected) else given)
  {
    var c1 := c.(socket := None, isAbandoned := true, isRetryArmed := false);
    match event
    case TimeoutDue(request) => TimeoutAnswers(c, request, r, given);
    case Abandoned => LossAnswers(c, c1, Abandon(c), r, given);
    case ReconnectAsked => LossAnswers(c, c1, ReconnectNow(c), r, given);
    case SocketIsClosed(ws) =>
      if IsCurrent(c, ws) {
        LossAnswers(c, c.(socket := None), SocketClosed(c, ws, isLocal), r, given);
      }
    case _ => SameAnswers(c, Step(c, event, isLocal), r, r in c.pending, given);
  }

  lemma {:induction false} BooksOfRequest(events: seq<Event>, isLocal: bool, r: nat)
    requires events != []
    requires
      var front := events[..|events| - 1];
      var c := Run(NEW_CLIENT, front, isLocal);
      && c.nextRequest == Made(front) && c.lastSeq == LastTaken(front, isLocal)
      && InOrder(c, r, FirstAnswer(front, isLocal, r)) && (r in c.pending <==> Waits(front, isLocal, r))
    ensures
      IsAnswered(Run(NEW_CLIENT, events, isLocal), r, Waits(events, isLocal, r), FirstAnswer(events, isLocal, r))
  {
    var front, last := events[..|events| - 1], events[|events| - 1];
    var c, given := Run(NEW_CLIENT, front, isLocal), FirstAnswer(front, isLocal, r);
    match last
    case RequestMade => RequestAnswers(c, r, given);
    case FrameArrives(ws, frame) => FrameAnswers(c, ws, frame, r, given);
    case _ => EventAnswers(c, last, isLocal, r, given);
  }

  lemma {:induction false} EventCounts(c: Client, event: Event, isLocal: bool)
    ensures
      var c' := Step(c, event, isLocal);
      && c'.nextRequest == c.nextRequest + (if event.RequestMade? then 1 else 0)
      && (!event.FrameArrives? ==> c'.lastSeq == c.lastSeq && c'.delivered == c.delivered)
  {
    match event
    case Abandoned => RejectedOnlyAnswers(c.(socket := None, isAbandoned := true, isRetryArmed := false));
    case ReconnectAsked => RejectedOnlyAnswers(c.(socket := None, isAbandoned := true, isRetryArmed := false));
    case SocketIsClosed(ws) => RejectedOnlyAnswers(c.(socket := None));
    case _ =>
  }

  lemma {:induction false} FrameCounts(c: Client, ws: nat, frame: Frame)
    ensures
      var c' := Received(c, ws, frame);
      && c'.lastSeq == (if IsCurrent(c, ws) then MarkedBy(c, frame) else c).lastSeq
      && c'.delivered ==
           if IsCurrent(c, ws) && IsNew(c, frame)
              && !(frame.requestId.Some? && frame.requestId.value in c.pending) then c.delivered + [frame.body]
           else c.delivered
  {
    MarkingOnlyCounts(c, frame);
    if !frame.NotJson? && frame.requestId.Some? && EndsIn(c, ws, frame, frame.requestId.value) {
      EndingFrame(c, ws, frame, frame.requestId.value);
    } else {
      OtherFrame(c, ws, frame);
    }
  }

  /** What is counted and passed on, rather than answered. */
  predicate Counts(c: Client, events: seq<Event>, isLocal: bool) {
    c.nextRequest == Made(events) && c.lastSeq == LastTaken(events, isLocal) && c.delivered == PassedOn(events, isLocal)
  }

  lemma {:induction false} FrameKeepsCounts(events: seq<Event>, isLocal: bool, ws: nat, frame: Frame)
    requires events != [] && events[|events| - 1] == FrameArrives(ws, frame)
    requires
      var front := events[..|events| - 1];
      var c := Run(NEW_CLIENT, front, isLocal);
      && Counts(c, front, isLocal)
      && (!frame.NotJson? && frame.requestId.Some? ==>
            (frame.requestId.value in c.pending <==> Waits(front, isLocal, frame.requestId.value)))
    ensures
      var c' := Received(Run(NEW_CLIENT, events[..|events| - 1], isLocal), ws, frame);
      c'.lastSeq == LastTaken(events, isLocal) && c'.delivered == PassedOn(events, isLocal)
  {
    FrameCounts(Run(NEW_CLIENT, events[..|events| - 1], isLocal), ws, frame);
  }

  lemma {:induction false} StepKeepsCounts(events: seq<Event>, isLocal: bool)
    requires events != []
    requires
      var front, last := events[..|events| - 1], events[|events| - 1];
      var c := Run(NEW_CLIENT, front, isLocal);
      && Counts(c, front, isLocal)
      && (last.FrameArrives? && !last.frame.NotJson? && last.frame.requestId.Some? ==>
            (last.frame.requestId.value in c.pending <==> Waits(front, isLocal, last.frame.requestId.value)))
    ensures Counts(Run(NEW_CLIENT, events, isLocal), events, isLocal)
  {
    var last := events[|events| - 1];
    EventCounts(Run(NEW_CLIENT, events[..|events| - 1], isLocal), last, isLocal);
    if last.FrameArrives? {
      FrameKeepsCounts(events, isLocal, last.ws, last.frame);
    }
  }

  lemma {:induction false} StepKeepsAnswers(events: seq<Event>, isLocal: bool, r: nat)
    requires events != []
    requires
      var front := events[..|events| - 1];
      KeepsBooks(Run(NEW_CLIENT, front, isLocal), front, isLocal) && Accounted(Run(NEW_CLIENT, front, isLocal))
    ensures
      IsAnswered(Run(NEW_CLIENT, events, isLocal), r, Waits(events, isLocal, r), FirstAnswer(events, isLocal, r))
  {
    var front := events[..|events| - 1];
    var c := Run(NEW_CLIENT, front, isLocal);
    assert IsAnswered(c, r, Waits(front, isLocal, r), FirstAnswer(front, isLocal, r));
    UnmadeIsUnanswered(front, isLocal, r);
    BooksOfRequest(events, isLocal, r);
  }

  /** Over every run each request made waits or has exactly one answer, that of the first event that ended it;
      the numbers that count are those of the frames that passed; and what is passed on are the messages that
      pass and answer no request, in order. */
  lemma {:induction false} AnswersAreEarned(events: seq<Event>, isLocal: bool)
    ensures KeepsBooks(Run(NEW_CLIENT, events, isLocal), events, isLocal)
  {
    if events == [] {
      forall r: nat, answer
        ensures !HasAnswer(NEW_CLIENT.settlements, r, answer)
      {
      }
    } else {
      var front, last := events[..|events| - 1], events[|events| - 1];
      AnswersAreEarned(front, isLocal);
      EveryRequestIsAnsweredOnce(front, isLocal);
      forall r: nat
        ensures IsAnswered(Run(NEW_CLIENT, events, isLocal), r, Waits(events, isLocal, r),
                           FirstAnswer(events, isLocal, r))
      {
        StepKeepsAnswers(events, isLocal, r);
      }
      if last.FrameArrives? && !last.frame.NotJson? && last.frame.requestId.Some? {
        var r := last.frame.requestId.value;
        assert IsAnswered(Run(NEW_CLIENT, front, isLocal), r, Waits(front, isLocal, r), FirstAnswer(front, isLocal, r));
      }
      StepKeepsCounts(events, isLocal);
    }
  }

  // ----- where an answer comes from -----

  /** The event at i is the first to end the request, which was made before it and still waited. */
  predicate EndsAt(events: seq<Event>, isLocal: bool, i: nat, request: nat, answer: Answer) {
    && i < |events| && Waits(events[..i], isLocal, request)
    && Ending(events[..i], events[i], isLocal, request) == Some(answer)
  }

  lemma {:induction false} AnswerHasEvent(events: seq<Event>, isLocal: bool, request: nat) returns (i: nat)
    requires FirstAnswer(events, isLocal, request).Some?
    ensures
      var answer := FirstAnswer(events, isLocal, request).value;
      || EndsAt(events, isLocal, i, request, answer)
      || (i < |events| && events[i].RequestMade? && request == Made(events[..i]) && answer == NotConnected
          && !IsOpen(Run(NEW_CLIENT, events[..i], isLocal)))
  {
    var n := |events| - 1;
    var front := events[..n];
    if FirstAnswer(front, isLocal, request).Some? {
      i := AnswerHasEvent(front, isLocal, request);
      assert front[..i] == events[..i];
    } else {
      i := n;
    }
  }

  lemma {:induction false} EndingAnswers(events: seq<Event>, isLocal: bool, i: nat, request: nat, answer: Answer)
    requires EndsAt(events, isLocal, i, request, answer)
    ensures FirstAnswer(events, isLocal, request) == Some(answer)
  {
    var n := |events| - 1;
    if i < n {
      assert events[..n][..i] == events[..i];
      EndingAnswers(events[..n], isLocal, i, request, answer);
    }
  }

  /** A promise is resolved with a body if and only if, while it waited, a message of the current socket with that
      body named it and passed; it is rejected as unreadable exactly for a frame outside the contract that named
      it, and as timed out exactly by its own timeout. */
  lemma {:induction false} AnswersHaveCauses(events: seq<Event>, isLocal: bool, request: nat, answer: Answer)
    requires answer != NotConnected
    ensures
      HasAnswer(Run(NEW_CLIENT, events, isLocal).settlements, request, answer) <==>
      exists i: nat :: EndsAt(events, isLocal, i, request, answer)
  {
    AnswersAreEarned(events, isLocal);
    var c := Run(NEW_CLIENT, events, isLocal);
    assert IsAnswered(c, request, Waits(events, isLocal, request), FirstAnswer(events, isLocal, request));
    if HasAnswer(c.settlements, request, answer) {
      var i := AnswerHasEvent(events, isLocal, request);
      assert EndsAt(events, isLocal, i, request, answer);
    }
    if i: nat :| EndsAt(events, isLocal, i, request, answer) {
      EndingAnswers(events, isLocal, i, request, answer);
    }
  }

  // ----- the way to a socket -----

  /** What has to happen for a client that was not abandoned to have an open socket. */
  function WayUp(c: Client): seq<Event> {
    match c.socket
    case Some(Socket(id, Connecting, _, _)) => [SocketOpens(id)]
    case Some(Socket(_, Opened, _, _)) => []
    case Some(Socket(id, Closing, _, _)) =>
      [SocketIsClosed(id), RetryDue, TokenArrives(true), SocketOpens(c.nextSocket)]
    case None => [RetryDue, TokenArrives(true), SocketOpens(c.nextSocket)]
  }

  lemma {:induction false} OneEvent(c: Client, event: Event, isLocal: bool)
    ensures Run(c, [event], isLocal) == Step(c, event, isLocal)
  {
    assert [event][..0] == [] && Run(c, [], isLocal) == c;
  }

  lemma {:induction false} RetryGetsUp(c: Client, isLocal: bool)
    requires c.socket.None? && (c.isRetryArmed || c.isTokenFetchPending) && !c.isAbandoned
    ensures IsOpen(SocketOpened(TokenFetched(RetryTimerFired(c), true), c.nextSocket))
  {
  }

  lemma {:induction false} ThreeEvents(c: Client, e1: Event, e2: Event, e3: Event, isLocal: bool)
    ensures Run(c, [e1, e2, e3], isLocal) == Step(Step(Step(c, e1, isLocal), e2, isLocal), e3, isLocal)
  {
    assert [e1, e2, e3][..2] == [e1, e2] && [e1, e2][..1] == [e1];
    OneEvent(c, e1, isLocal);
  }

  lemma {:induction false} ClosingGetsUp(c: Client, isLocal: bool)
    requires c.socket.Some? && c.socket.value.phase == Closing && !c.isAbandoned
    ensures IsOpen(Run(c, WayUp(c), isLocal))
  {
    var id, way := c.socket.value.id, WayUp(c);
    RejectedOnlyAnswers(c.(socket := None));
    RetryGetsUp(SocketClosed(c, id, isLocal), isLocal);
    assert way[..3] == [SocketIsClosed(id), RetryDue, TokenArrives(true)];
    ThreeEvents(c, SocketIsClosed(id), RetryDue, TokenArrives(true), isLocal);
  }

  /** Over every run a client that was not abandoned is at most four events away from an open socket. */
  lemma {:induction false} AlwaysWayUp(events: seq<Event>, isLocal: bool)
    ensures
      var c := Run(Connect(NEW_CLIENT), events, isLocal);
      !c.isAbandoned ==> IsOpen(Run(c, WayUp(c), isLocal))
  {
    NeverStuck(events, isLocal);
    var c := Run(Connect(NEW_CLIENT), events, isLocal);
    if !c.isAbandoned {
      GetsUp(c, isLocal);
    }
  }

  lemma {:induction false} GetsUp(c: Client, isLocal: bool)
    requires OnItsWay(c) && !c.isAbandoned
    ensures IsOpen(Run(c, WayUp(c), isLocal))
  {
    match c.socket
    case Some(Socket(id, Connecting, _, _)) => OneEvent(c, SocketOpens(id), isLocal);
    case Some(Socket(_, Opened, _, _)) =>
    case Some(Socket(_, Closing, _, _)) => ClosingGetsUp(c, isLocal);
    case None =>
      RetryGetsUp(c, isLocal);
      ThreeEvents(c, RetryDue, TokenArrives(true), SocketOpens(c.nextSocket), isLocal);
  }

  /** A new socket asks to go on behind the last number taken, and is announced. */
  ghost predicate IsNewSocket(c: Client, c': Client) {
    && c'.nextSocket == c.nextSocket + 1
    && c'.socket == Some(Socket(c.nextSocket, Connecting, false, if c.lastSeq > 0 then c.lastSeq else 0))
    && |c'.changes| > 0 && c'.changes[|c'.changes| - 1] == ToConnecting
  }

  lemma {:induction false} ConnectMakesSocket(c: Client)
    ensures Connect(c).nextSocket == c.nextSocket || IsNewSocket(c, Connect(c))
  {
  }

  lemma {:induction false} NewSocketContinues(c: Client, event: Event, isLocal: bool)
    ensures
      var c' := Step(c, event, isLocal);
      c'.nextSocket == c.nextSocket || IsNewSocket(c, c')
  {
    match event
    case ConnectAsked => ConnectMakesSocket(c);
    case ReconnectAsked =>
      RejectedOnlyAnswers(c.(socket := None, isAbandoned := true, isRetryArmed := false));
      ConnectMakesSocket(Abandon(c).(retryAttempt := 0));
    case Abandoned => RejectedOnlyAnswers(c.(socket := None, isAbandoned := true, isRetryArmed := false));
    case SocketIsClosed(ws) => RejectedOnlyAnswers(c.(socket := None));
    case TokenArrives(hasToken) => ConnectMakesSocket(c.(isTokenFetchPending := false, hasToken := hasToken));
    case RetryDue => ConnectMakesSocket(c);
    case _ =>
  }
}
