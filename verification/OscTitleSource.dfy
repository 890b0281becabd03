/**
 The title source: titles found in the output drive a state machine that reports what the agent is
 doing, and holds back "ready" until the title has been still for a while.
 */
module OscTitleSource {
  import opened OscScanner
  import opened OscChunking
  import opened Wrappers

  /** What a title says, by the profile's glyphs; a blank title is ignored. */
  datatype TitleKind = Working | AwaitingInput | Ready | Ignored | Unknown

  datatype LastKind = NoKind | WasWorking | WasAwaiting | IdlePending | WasReady | WasUnknown

  datatype TitleSignal = SignalWorking | SignalAwaiting | SignalReady | SignalUnknown

  datatype TitleState = TitleState(
    hasSeenSpinner: bool, lastKind: LastKind, stabilization: Option<int>, isDestroyed: bool)

  const NEW_TITLE_STATE := TitleState(false, NoKind, None, false)

  /** One title at a time of the clock: the new state and what is signalled. */
  function TitleProcessed(
    s: TitleState, kind: TitleKind, now: int, stabilizationMs: int): (TitleState, seq<TitleSignal>) {
    match kind
    case Ignored => (s, [])
    case Working =>
      var s1 := s.(hasSeenSpinner := true, stabilization := None);
      if s.lastKind != WasWorking then (s1.(lastKind := WasWorking), [SignalWorking]) else (s1, [])
    case AwaitingInput =>
      var s1 := s.(stabilization := None);
      if s.lastKind != WasAwaiting then (s1.(lastKind := WasAwaiting), [SignalAwaiting]) else (s1, [])
    case Ready =>
      if s.hasSeenSpinner && s.lastKind != WasReady then
        (s.(lastKind := IdlePending, stabilization := Some(now + stabilizationMs)), [])
      else (s, [])
    case Unknown =>
      if s.lastKind != WasUnknown then (s.(lastKind := WasUnknown, stabilization := None), [SignalUnknown]) else (s, [])
  }

  /** The stabilization timer, once it is due. */
  function TimerFired(s: TitleState, now: int): (TitleState, seq<TitleSignal>) {
    if s.stabilization.None? || now < s.stabilization.value then (s, [])
    else
      var s1 := s.(stabilization := None);
      if s.isDestroyed || s.lastKind != IdlePending then (s1, [])
      else (s1.(lastKind := WasReady), [SignalReady])
  }

  function Resynced(s: TitleState): TitleState {
    if s.isDestroyed || s.lastKind != WasWorking then s else s.(lastKind := NoKind)
  }

  function ResetTitle(s: TitleState): TitleState {
    if s.isDestroyed then s else s.(hasSeenSpinner := false, lastKind := NoKind, stabilization := None)
  }

  function Destroyed(s: TitleState): TitleState {
    s.(isDestroyed := true, stabilization := None)
  }

  /** Titles in a row, all of one chunk. */
  function AllProcessed(
    s: TitleState, titles: seq<string>, classify: string -> TitleKind, now: int, stabilizationMs: int)
    : (TitleState, seq<TitleSignal>)
  {
    if titles == [] then (s, [])
    else
      var n := |titles| - 1;
      var (before, signals) := AllProcessed(s, titles[..n], classify, now, stabilizationMs);
      var (after, more) := TitleProcessed(before, classify(titles[n]), now, stabilizationMs);
      (after, signals + more)
  }

  // ----- runs -----

  datatype TitleEvent = TitleArrives(kind: TitleKind) | StabilizationFires | ResyncLatch | ResetSource | DestroySource

  datatype Timed = Timed(event: TitleEvent, now: int)

  function TitleStep(s: TitleState, e: Timed, stabilizationMs: int): (TitleState, seq<TitleSignal>) {
    match e.event
    case TitleArrives(kind) => if s.isDestroyed then (s, []) else TitleProcessed(s, kind, e.now, stabilizationMs)
    case StabilizationFires => TimerFired(s, e.now)
    case ResyncLatch => (Resynced(s), [])
    case ResetSource => (ResetTitle(s), [])
    case DestroySource => (Destroyed(s), [])
  }

  function TitleRun(events: seq<Timed>, stabilizationMs: int): (TitleState, seq<TitleSignal>) {
    if events == [] then (NEW_TITLE_STATE, [])
    else
      var n := |events| - 1;
      var (s, signals) := TitleRun(events[..n], stabilizationMs);
      var (s', more) := TitleStep(s, events[n], stabilizationMs);
      (s', signals + more)
  }

  /** The timer runs exactly while the state is waiting for it. */
  ghost predicate TimerMatches(s: TitleState) {
    s.stabilization.Some? <==> s.lastKind == IdlePending && !s.isDestroyed
  }

  /** The last signal was "ready": then the source is still ready, or was reset and has seen no work. */
  ghost predicate ReadyIsFresh(s: TitleState, signals: seq<TitleSignal>) {
    signals != [] && signals[|signals| - 1] == SignalReady ==>
      s.lastKind == WasReady || (s.lastKind == NoKind && !s.hasSeenSpinner)
  }

  ghost predicate NoTwoReadies(signals: seq<TitleSignal>) {
    forall i :: 0 < i < |signals| && signals[i] == SignalReady ==> signals[i - 1] != SignalReady
  }

  /** Over every run: the timer is armed exactly while "ready" is pending, and two "ready" signals
      never follow each other without another title signal in between. */
  lemma {:induction false} TitleRunKeeps(events: seq<Timed>, stabilizationMs: int)
    ensures TimerMatches(TitleRun(events, stabilizationMs).0)
    ensures ReadyIsFresh(TitleRun(events, stabilizationMs).0, TitleRun(events, stabilizationMs).1)
    ensures NoTwoReadies(TitleRun(events, stabilizationMs).1)
  {
    if events != [] {
      var n := |events| - 1;
      TitleRunKeeps(events[..n], stabilizationMs);
      var (before, signals) := TitleRun(events[..n], stabilizationMs);
      TitleStepKeeps(before, signals, events[n], stabilizationMs);
    }
  }

  lemma {:induction false} TitleStepKeeps(s: TitleState, signals: seq<TitleSignal>, e: Timed, stabilizationMs: int)
    requires TimerMatches(s) && ReadyIsFresh(s, signals) && NoTwoReadies(signals)
    ensures
      var (s', more) := TitleStep(s, e, stabilizationMs);
      TimerMatches(s') && ReadyIsFresh(s', signals + more) && NoTwoReadies(signals + more)
  {
    var (s', more) := TitleStep(s, e, stabilizationMs);
    assert |more| <= 1;
    if more == [] {
      assert signals + more == signals;
    } else {
      assert signals + more == signals + [more[0]];
    }
  }

  // ----- the object -----

  class TerminatorPositions {
    var bel: Position
    var st: Position

    constructor ()
      ensures bel == At(-1) && st == At(-1)
    {
      bel, st := At(-1), At(-1);
    }

    ghost predicate Valid(buffer: string, from: nat)
      reads this
    {
      Remembered(buffer, BEL, bel, from) && Remembered(buffer, ST, st, from)
    }
  }

  lemma {:induction false} StillRemembered(
    buffer: string, terminator: string, position: Position, from: nat, later: nat)
    requires terminator != "" && from <= later && Remembered(buffer, terminator, position, from)
    ensures Remembered(buffer, terminator, position, later)
  {
  }

  /** Finds the next title with the remembered terminators, as a fresh search would. */
  method FindOscTitle(buffer: string, fromIndex: nat, terminators: TerminatorPositions) returns (osc: Option<OscTitle>)
    requires terminators.Valid(buffer, fromIndex)
    modifies terminators
    ensures osc == FirstTitle(buffer, fromIndex)
    ensures osc.Some? ==> terminators.Valid(buffer, osc.value.next)
  {
    var start := IndexFrom(buffer, OSC_START, fromIndex);
    if start == -1 { return None; }
    var contentStart: nat := start + |OSC_START|;
    StillRemembered(buffer, BEL, terminators.bel, fromIndex, contentStart);
    StillRemembered(buffer, ST, terminators.st, fromIndex, contentStart);
    RememberedSearchIsFresh(buffer, BEL, terminators.bel, contentStart);
    RememberedSearchIsFresh(buffer, ST, terminators.st, contentStart);
    terminators.bel := NextTerminatorIndex(buffer, BEL, terminators.bel, contentStart);
    terminators.st := NextTerminatorIndex(buffer, ST, terminators.st, contentStart);
    var end := Earlier(terminators.bel, terminators.st);
    if end.Nowhere? { return None; }
    var termLen := if end == terminators.bel then |BEL| else |ST|;
    osc := Some(OscTitle(start, end.index, end.index + termLen, buffer[contentStart..end.index]));
    assert osc == FirstTitle(buffer, fromIndex);
  }

  /** The titles found so far and those from a cursor on are all titles of the buffer. */
  ghost predicate ScannedUpTo(buffer: string, found: seq<string>, cursor: nat) {
    Scanned(buffer, 0) == (found + Scanned(buffer, cursor).0, Scanned(buffer, cursor).1)
  }

  lemma {:induction false} ScannedMore(buffer: string, found: seq<string>, cursor: nat, osc: OscTitle)
    requires ScannedUpTo(buffer, found, cursor) && FirstTitle(buffer, cursor) == Some(osc)
    ensures ScannedUpTo(buffer, found + [osc.title], osc.next)
  {
    Regroup(found, [osc.title], Scanned(buffer, osc.next).0);
  }

  lemma {:induction false} ScannedAll(buffer: string, found: seq<string>, cursor: nat)
    requires ScannedUpTo(buffer, found, cursor) && FirstTitle(buffer, cursor).None?
    ensures Scanned(buffer, 0) == (found, cursor)
  {
    assert found + [] == found;
  }

  class TitleSource {
    const stabilizationMs: int
    const classify: string -> TitleKind
    var hasSeenSpinner: bool
    var lastKind: LastKind
    var stabilizationTimer: Option<int>
    var pending: string
    var isDestroyed: bool
    var emittedTitles: seq<string>
    var emittedSignals: seq<TitleSignal>

    function State(): TitleState
      reads this
    {
      TitleState(hasSeenSpinner, lastKind, stabilizationTimer, isDestroyed)
    }

    constructor (stabilizationMs: int, classify: string -> TitleKind)
      ensures State() == NEW_TITLE_STATE && pending == "" && emittedTitles == [] && emittedSignals == []
      ensures this.stabilizationMs == stabilizationMs && this.classify == classify
    {
      this.stabilizationMs, this.classify := stabilizationMs, classify;
      hasSeenSpinner, lastKind, stabilizationTimer := false, NoKind, None;
      pending, isDestroyed, emittedTitles, emittedSignals := "", false, [], [];
    }

    method ProcessTitle(title: string, now: int)
      modifies this`hasSeenSpinner, this`lastKind, this`stabilizationTimer, this`emittedTitles, this`emittedSignals
      ensures State() == TitleProcessed(old(State()), classify(title), now, stabilizationMs).0
      ensures
        emittedSignals == old(emittedSignals) + TitleProcessed(old(State()), classify(title), now, stabilizationMs).1
      ensures emittedTitles == old(emittedTitles) + [title]
    {
      emittedTitles := emittedTitles + [title];
      var kind := classify(title);
      match kind {
        case Ignored =>
        case Working =>
          hasSeenSpinner, stabilizationTimer := true, None;
          if lastKind != WasWorking {
            lastKind := WasWorking;
            emittedSignals := emittedSignals + [SignalWorking];
          }
        case AwaitingInput =>
          stabilizationTimer := None;
          if lastKind != WasAwaiting {
            lastKind := WasAwaiting;
            emittedSignals := emittedSignals + [SignalAwaiting];
          }
        case Ready =>
          if hasSeenSpinner && lastKind != WasReady {
            lastKind, stabilizationTimer := IdlePending, Some(now + stabilizationMs);
          }
        case Unknown =>
          if lastKind != WasUnknown {
            lastKind, stabilizationTimer := WasUnknown, None;
            emittedSignals := emittedSignals + [SignalUnknown];
          }
      }
    }

    /** What was emitted and where the state is after some titles were processed in a row. */
    ghost predicate Processed(
      s: TitleState, titles: seq<string>, now: int, before: seq<string>, signals: seq<TitleSignal>)
      reads this
    {
      && emittedTitles == before + titles
      && State() == AllProcessed(s, titles, classify, now, stabilizationMs).0
      && emittedSignals == signals + AllProcessed(s, titles, classify, now, stabilizationMs).1
    }

    method ProcessNext(title: string, now: int, ghost s: TitleState, ghost titles: seq<string>,
                       ghost before: seq<string>, ghost signals: seq<TitleSignal>)
      requires Processed(s, titles, now, before, signals)
      modifies this`hasSeenSpinner, this`lastKind, this`stabilizationTimer, this`emittedTitles, this`emittedSignals
      ensures Processed(s, titles + [title], now, before, signals)
    {
      ProcessTitle(title, now);
      assert (titles + [title])[..|titles|] == titles;
    }

    /** The loop over one buffer: every title in it is processed, in order. */
    method FeedBuffer(buffer: string, now: int) returns (cursor: nat)
      modifies this`hasSeenSpinner, this`lastKind, this`stabilizationTimer, this`emittedTitles, this`emittedSignals
      ensures cursor == Scanned(buffer, 0).1
      ensures Processed(old(State()), Scanned(buffer, 0).0, now, old(emittedTitles), old(emittedSignals))
    {
      ghost var s, before, signals := State(), emittedTitles, emittedSignals;
      var terminators := new TerminatorPositions();
      cursor := 0;
      ghost var found: seq<string> := [];
      var osc := FindOscTitle(buffer, cursor, terminators);
      assert [] + Scanned(buffer, 0).0 == Scanned(buffer, 0).0;
      while osc.Some?
        invariant fresh(terminators) && osc == FirstTitle(buffer, cursor)
        invariant osc.Some? ==> terminators.Valid(buffer, osc.value.next)
        invariant ScannedUpTo(buffer, found, cursor)
        invariant Processed(s, found, now, before, signals)
        decreases |buffer| - cursor
      {
        ProcessNext(osc.value.title, now, s, found, before, signals);
        ScannedMore(buffer, found, cursor, osc.value);
        found := found + [osc.value.title];
        cursor := osc.value.next;
        osc := FindOscTitle(buffer, cursor, terminators);
      }
      ScannedAll(buffer, found, cursor);
    }

    /** A chunk of output: its titles are emitted and processed in order, the tail is kept. */
    method Feed(chunk: string, now: int)
      modifies this
      ensures pending == if old(isDestroyed) then old(pending) else Fed(old(pending), chunk).1
      ensures
        var titles := if old(isDestroyed) then [] else Fed(old(pending), chunk).0;
        Processed(old(State()), titles, now, old(emittedTitles), old(emittedSignals))
    {
      if isDestroyed || chunk == "" { return; }
      var buffer := pending + chunk;
      var cursor := FeedBuffer(buffer, now);
      pending := UnterminatedTail(buffer, cursor);
    }

    method StabilizationTimerFired(now: int)
      modifies this`lastKind, this`stabilizationTimer, this`emittedSignals
      ensures State() == TimerFired(old(State()), now).0
      ensures emittedSignals == old(emittedSignals) + TimerFired(old(State()), now).1
    {
      if stabilizationTimer.None? || now < stabilizationTimer.value { return; }
      stabilizationTimer := None;
      if isDestroyed || lastKind != IdlePending { return; }
      lastKind := WasReady;
      emittedSignals := emittedSignals + [SignalReady];
    }

    method ResyncWorkingLatch()
      modifies this`lastKind
      ensures State() == Resynced(old(State()))
    {
      if isDestroyed || lastKind != WasWorking { return; }
      lastKind := NoKind;
    }

    method Reset()
      modifies this
      ensures State() == ResetTitle(old(State()))
      ensures pending == if old(isDestroyed) then old(pending) else ""
      ensures emittedTitles == old(emittedTitles) && emittedSignals == old(emittedSignals)
    {
      if isDestroyed { return; }
      hasSeenSpinner, lastKind, pending, stabilizationTimer := false, NoKind, "", None;
    }

    method Destroy()
      modifies this
      ensures State() == Destroyed(old(State())) && pending == ""
      ensures emittedTitles == old(emittedTitles) && emittedSignals == old(emittedSignals)
    {
      isDestroyed, stabilizationTimer, pending := true, None, "";
    }
  }
}
