/**
 The control client in place. Every method does to the fields what `ControlWs` says of the client, and
 every handler keeps what is proved of its runs.
 */
module ControlClients {
  import opened ControlWs
  import opened ControlWsRuns
  import opened ControlAnswers
  import opened Wrappers

  lemma {:induction false} FirstRejected(c: Client)
    requires c.pending != []
    ensures
      Rejected(c) == Rejected(c.(pending := c.pending[1..], timers := c.timers - {c.pending[0]},
                                 settlements := c.settlements + [Settlement(c.pending[0], NotConnected)]))
  {
  }

  class ControlClient {
    const isLocal: bool
    var controlWs: Option<Socket>
    var nextSocket: nat
    var lastSeq: int
    var controlRetryTimer: bool
    var controlRetryAttempt: nat
    var isAbandoned: bool
    var isTokenFetchPending: bool
    var hasToken: bool
    var pendingRequests: seq<nat>
    var timers: set<nat>
    var requestSequence: nat
    /** What the promises, the listeners and the message handler were told, and the numbers accepted. */
    var settlements: seq<Settlement>
    var changes: seq<Change>
    var delivered: seq<nat>
    ghost var marks: seq<Mark>
    ghost var isStarted: bool

    ghost function State(): Client
      reads this
    {
      Client(controlWs, nextSocket, lastSeq, controlRetryTimer, controlRetryAttempt, isAbandoned, isTokenFetchPending,
             hasToken, pendingRequests, timers, requestSequence, settlements, changes, marks, delivered)
    }

    /** Every request is accounted for, accepted numbers have only gone up, and once it has been told to
        connect the client is on its way to a socket unless it was told to abandon it. */
    ghost predicate Valid()
      reads this
    {
      Kept(State()) && (isStarted ==> OnItsWay(State()))
    }

    constructor (isLocal: bool)
      ensures Valid() && State() == NEW_CLIENT && this.isLocal == isLocal
    {
      this.isLocal := isLocal;
      controlWs, nextSocket, lastSeq, controlRetryTimer, controlRetryAttempt := None, 0, 0, false, 0;
      isAbandoned, isTokenFetchPending, hasToken := false, false, false;
      pendingRequests, timers, requestSequence := [], {}, 0;
      settlements, changes, delivered, marks, isStarted := [], [], [], [], false;
      new;
      NewClientIsKept();
    }

    method Settle(request: nat, answer: Answer)
      modifies this`timers, this`pendingRequests, this`settlements
      ensures State() == Settled(old(State()), request, answer)
    {
      timers := timers - {request};
      pendingRequests := Without(pendingRequests, request);
      settlements := settlements + [Settlement(request, answer)];
    }

    method TakeRequest() returns (requestId: nat)
      modifies this
      ensures isStarted == old(isStarted)
      ensures State() == ControlWs.Request(old(State())) && requestId == old(State()).nextRequest
    {
      requestId := requestSequence;
      requestSequence := requestSequence + 1;
      timers := timers + {requestId};
      pendingRequests := pendingRequests + [requestId];
      if controlWs.None? || controlWs.value.phase != Opened {
        Settle(requestId, NotConnected);
      }
    }

    method Request() returns (requestId: nat)
      requires Valid()
      modifies this
      ensures Valid() && isStarted == old(isStarted)
      ensures State() == ControlWs.Request(old(State())) && requestId == old(State()).nextRequest
    {
      StepKeeps(State(), RequestMade, isLocal);
      requestId := TakeRequest();
    }

    method RequestTimerFired(request: nat)
      requires Valid()
      modifies this
      ensures Valid() && isStarted == old(isStarted)
      ensures State() == ControlWs.RequestTimerFired(old(State()), request)
    {
      StepKeeps(State(), TimeoutDue(request), isLocal);
      if request in timers {
        Settle(request, RequestTimedOut);
      }
    }

    method RejectUnreadableReply(requestId: Option<nat>)
      modifies this`timers, this`pendingRequests, this`settlements
      ensures
        State() == if requestId.Some? && requestId.value in old(State()).pending
                   then Settled(old(State()), requestId.value, Unreadable) else old(State())
    {
      if requestId.None? { return; }
      if requestId.value !in pendingRequests { return; }
      Settle(requestId.value, Unreadable);
    }

    method RejectPendingRequests()
      modifies this`pendingRequests, this`timers, this`settlements
      ensures State() == Rejected(old(State()))
    {
      ghost var c := State();
      var i := 0;
      while i < |pendingRequests|
        invariant i <= |pendingRequests|
        invariant c.pending == pendingRequests[i..] && Rejected(c) == Rejected(old(State()))
        invariant State() == c.(pending := pendingRequests)
        modifies this`timers, this`settlements
      {
        var request := pendingRequests[i];
        FirstRejected(c);
        c := c.(pending := c.pending[1..], timers := timers - {request},
                settlements := settlements + [Settlement(request, NotConnected)]);
        timers := timers - {request};
        settlements := settlements + [Settlement(request, NotConnected)];
        i := i + 1;
      }
      pendingRequests := [];
      assert State() == c;
    }

    method GiveUp()
      modifies this`controlWs, this`isAbandoned, this`controlRetryTimer
      modifies this`pendingRequests, this`timers, this`settlements
      ensures State() == ControlWs.Abandon(old(State()))
    {
      controlWs := None;
      isAbandoned := true;
      controlRetryTimer := false;
      RejectPendingRequests();
    }

    /** Opens a socket, or fetches the token it needs. */
    method Open()
      modifies this`controlWs, this`isAbandoned, this`controlRetryTimer
      modifies this`isTokenFetchPending, this`nextSocket, this`changes
      ensures State() == ControlWs.Connect(old(State()))
    {
      isAbandoned := false;
      controlRetryTimer := false;
      if isTokenFetchPending { return; }
      if !hasToken {
        isTokenFetchPending := true;
        return;
      }
      var since := if lastSeq > 0 then lastSeq else 0;
      controlWs := Some(Socket(nextSocket, Connecting, false, since));
      nextSocket := nextSocket + 1;
      changes := changes + [ToConnecting];
    }

    method Abandon()
      requires Valid()
      modifies this
      ensures Valid() && isStarted == old(isStarted)
      ensures State() == ControlWs.Abandon(old(State()))
    {
      StepKeeps(State(), Abandoned, isLocal);
      GiveUp();
    }

    method ReconnectNow()
      requires Valid()
      modifies this
      ensures Valid() && isStarted
      ensures State() == ControlWs.ReconnectNow(old(State()))
    {
      StepKeeps(State(), ReconnectAsked, isLocal);
      GiveUp();
      controlRetryAttempt := 0;
      Open();
      isStarted := true;
    }

    method Connect()
      requires Valid()
      modifies this
      ensures Valid() && isStarted
      ensures State() == ControlWs.Connect(old(State()))
    {
      StepKeeps(State(), ConnectAsked, isLocal);
      Open();
      isStarted := true;
    }

    method TokenFetched(token: bool)
      requires Valid()
      modifies this
      ensures Valid() && isStarted == old(isStarted)
      ensures State() == ControlWs.TokenFetched(old(State()), token)
    {
      StepKeeps(State(), TokenArrives(token), isLocal);
      if !isTokenFetchPending { return; }
      hasToken := token;
      isTokenFetchPending := false;
      if !isAbandoned {
        Open();
      }
    }

    /** Another client of the page has loaded the token, or it was cleared. */
    method TokenChanged(token: bool)
      requires Valid()
      modifies this`hasToken
      ensures Valid() && State() == old(State()).(hasToken := token)
    {
      StepKeeps(State(), TokenChanges(token), isLocal);
      hasToken := token;
    }

    method SocketOpened(ws: nat)
      requires Valid()
      modifies this
      ensures Valid() && isStarted == old(isStarted)
      ensures State() == ControlWs.SocketOpened(old(State()), ws)
    {
      StepKeeps(State(), SocketOpens(ws), isLocal);
      if controlWs.None? || controlWs.value.id != ws || controlWs.value.phase != Connecting { return; }
      controlWs := Some(controlWs.value.(phase := Opened, hasEverOpened := true));
      controlRetryAttempt := 0;
      changes := changes + [ToOpened];
    }

    method SocketClosing(ws: nat)
      requires Valid()
      modifies this
      ensures Valid() && isStarted == old(isStarted)
      ensures State() == ControlWs.SocketClosing(old(State()), ws)
    {
      StepKeeps(State(), SocketCloses(ws), isLocal);
      if controlWs.None? || controlWs.value.id != ws { return; }
      controlWs := Some(controlWs.value.(phase := Closing));
    }

    method SocketClosed(ws: nat)
      requires Valid()
      modifies this
      ensures Valid() && isStarted == old(isStarted)
      ensures State() == ControlWs.SocketClosed(old(State()), ws, isLocal)
    {
      StepKeeps(State(), SocketIsClosed(ws), isLocal);
      if controlWs.None? || controlWs.value.id != ws { return; }
      var hasEverOpened := controlWs.value.hasEverOpened;
      controlWs := None;
      RejectPendingRequests();
      ClosedNotified(hasEverOpened);
    }

    /** What a close does once the pending requests are answered. */
    method ClosedNotified(hasEverOpened: bool)
      modifies this`hasToken, this`changes, this`controlRetryAttempt, this`controlRetryTimer
      ensures
        var c := old(State());
        State() == c.(hasToken := c.hasToken && (hasEverOpened || !isLocal), changes := c.changes + [ToClosed],
                      retryAttempt := c.retryAttempt + 1, isRetryArmed := true)
    {
      if !hasEverOpened && isLocal {
        hasToken := false;
      }
      changes := changes + [ToClosed];
      controlRetryAttempt := controlRetryAttempt + 1;
      controlRetryTimer := true;
    }

    method RetryTimerFired()
      requires Valid()
      modifies this
      ensures Valid() && isStarted == old(isStarted)
      ensures State() == ControlWs.RetryTimerFired(old(State()))
    {
      StepKeeps(State(), RetryDue, isLocal);
      if controlRetryTimer {
        Open();
      }
    }

    /** Takes the number of a message, or drops the message: says whether it may pass. */
    method PassNumber(seqNumber: Option<int>, isSnapshot: bool) returns (passes: bool)
      modifies this`lastSeq, this`marks
      ensures State() == Marked(old(State()), seqNumber, isSnapshot)
      ensures passes == !(seqNumber.Some? && seqNumber.value <= old(lastSeq))
    {
      if isSnapshot && seqNumber.None? {
        lastSeq := 0;
        marks := marks + [Unnumbered];
      }
      if seqNumber.Some? {
        if seqNumber.value <= lastSeq { return false; }
        lastSeq := seqNumber.value;
        marks := marks + [Numbered(lastSeq)];
      }
      return true;
    }

    method HandleFrame(ws: nat, frame: Frame)
      modifies this
      ensures isStarted == old(isStarted)
      ensures State() == Received(old(State()), ws, frame)
    {
      if controlWs.None? || controlWs.value.id != ws { return; }
      match frame
      case NotJson =>
      case NotInContract(requestId) => RejectUnreadableReply(requestId);
      case Message(seqNumber, isSnapshot, requestId, body) =>
        var passes := PassNumber(seqNumber, isSnapshot);
        if !passes { return; }
        if requestId.Some? && requestId.value in pendingRequests {
          Settle(requestId.value, Reply(body));
          return;
        }
        delivered := delivered + [body];
    }

    method Receive(ws: nat, frame: Frame)
      requires Valid()
      modifies this
      ensures Valid() && isStarted == old(isStarted)
      ensures State() == Received(old(State()), ws, frame)
      ensures IsHeard(old(State()), ws, frame, settlements, delivered)
    {
      StepKeeps(State(), FrameArrives(ws, frame), isLocal);
      FrameIsHeard(State(), ws, frame);
      HandleFrame(ws, frame);
    }

    /** What the client owes for a request it has taken: an answer, or a timeout that will bring one. */
    lemma {:induction false} OwesOneAnswer(request: nat)
      requires Valid() && request < requestSequence
      ensures request in pendingRequests <==> request in timers
      ensures Count(settlements, request) == if request in timers then 0 else 1
    {
      assert AccountsFor(State(), request);
    }
  }
}
