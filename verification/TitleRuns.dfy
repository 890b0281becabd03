/**
 Which signals the title source gives out over a run, told from the titles alone: one for every change of
 what the title says, and "ready" once the title has said so for long enough.
 */
module TitleRuns {
  import opened OscTitleSource
  import opened Wrappers

  predicate IsOver(events: seq<Timed>) {
    events != [] && (events[|events| - 1].event.DestroySource? || IsOver(events[..|events| - 1]))
  }

  /** A title has said that work goes on, since the last reset. */
  predicate HasSeenWork(events: seq<Timed>) {
    if events == [] then false
    else
      match events[|events| - 1].event
      case TitleArrives(kind) => kind == Working || HasSeenWork(events[..|events| - 1])
      case ResetSource => false
      case _ => HasSeenWork(events[..|events| - 1])
  }

  /** What the title says: the kind of the last title that told something. "Ready" tells nothing before any
      work was seen, and forgetting the working latch takes back "working". */
  function Told(events: seq<Timed>): Option<TitleKind> {
    if events == [] then None
    else
      var before := Told(events[..|events| - 1]);
      match events[|events| - 1].event
      case TitleArrives(kind) =>
        if kind == Ignored || (kind == Ready && !HasSeenWork(events[..|events| - 1])) then before else Some(kind)
      case ResetSource => None
      case ResyncLatch => if before == Some(Working) then None else before
      case _ => before
  }

  /** When the title last said "ready". */
  function LastReadyAt(events: seq<Timed>): int {
    if events == [] then 0
    else
      var last := events[|events| - 1];
      if last.event == TitleArrives(Ready) then last.now else LastReadyAt(events[..|events| - 1])
  }

  function SignalsBefore(events: seq<Timed>, stabilizationMs: int): seq<TitleSignal> {
    TitleRun(events, stabilizationMs).1
  }

  /** The last signal was "ready". */
  predicate IsReported(signals: seq<TitleSignal>) {
    signals != [] && signals[|signals| - 1] == SignalReady
  }

  function SignalFor(kind: TitleKind): seq<TitleSignal> {
    match kind
    case Working => [SignalWorking]
    case AwaitingInput => [SignalAwaiting]
    case Unknown => [SignalUnknown]
    case _ => []
  }

  /** What an event should signal after the others: a title that says something new says it at once; "ready"
      is said by the timer, once, when the title still says so and has for the whole stabilization time. */
  function Due(events: seq<Timed>, e: Timed, stabilizationMs: int): seq<TitleSignal> {
    if IsOver(events) then []
    else
      match e.event
      case TitleArrives(kind) => if Told(events) == Some(kind) then [] else SignalFor(kind)
      case StabilizationFires =>
        if Told(events) == Some(Ready) && !IsReported(SignalsBefore(events, stabilizationMs))
           && LastReadyAt(events) + stabilizationMs <= e.now then [SignalReady]
        else []
      case _ => []
  }

  // ----- the source keeps these books -----

  function KindTold(kind: LastKind): Option<TitleKind> {
    match kind
    case NoKind => None
    case WasWorking => Some(Working)
    case WasAwaiting => Some(AwaitingInput)
    case IdlePending => Some(Ready)
    case WasReady => Some(Ready)
    case WasUnknown => Some(Unknown)
  }

  ghost predicate KeepsBooks(s: TitleState, signals: seq<TitleSignal>, events: seq<Timed>, stabilizationMs: int) {
    && (s.isDestroyed <==> IsOver(events))
    && (!s.isDestroyed ==>
          && s.hasSeenSpinner == HasSeenWork(events) && KindTold(s.lastKind) == Told(events)
          && (Told(events) == Some(Ready) ==> s.hasSeenSpinner && (s.lastKind == WasReady <==> IsReported(signals)))
          && (Told(events).Some? && Told(events) != Some(Ready) ==> !IsReported(signals))
          && (s.lastKind == NoKind && s.hasSeenSpinner ==> !IsReported(signals))
          && (s.lastKind == IdlePending ==> s.stabilization == Some(LastReadyAt(events) + stabilizationMs)))
  }

  lemma {:induction false} StepKeepsBooks(events: seq<Timed>, stabilizationMs: int)
    requires events != []
    requires
      var front := events[..|events| - 1];
      var (s, signals) := TitleRun(front, stabilizationMs);
      KeepsBooks(s, signals, front, stabilizationMs) && TimerMatches(s)
    ensures
      var (s', signals') := TitleRun(events, stabilizationMs);
      KeepsBooks(s', signals', events, stabilizationMs)
    ensures
      var front, last := events[..|events| - 1], events[|events| - 1];
      TitleStep(TitleRun(front, stabilizationMs).0, last, stabilizationMs).1 == Due(front, last, stabilizationMs)
  {
  }

  /** Over every run each event signals exactly what is due: a working, awaiting or unknown title its own signal
      when the title did not say so already, and the timer "ready" once the title has said so for long enough. */
  lemma {:induction false} EachChangeIsSignalled(events: seq<Timed>, stabilizationMs: int)
    ensures
      var (s, signals) := TitleRun(events, stabilizationMs);
      KeepsBooks(s, signals, events, stabilizationMs)
    ensures events != [] ==>
              var front, last := events[..|events| - 1], events[|events| - 1];
              SignalsBefore(events, stabilizationMs)
              == SignalsBefore(front, stabilizationMs) + Due(front, last, stabilizationMs)
  {
    if events != [] {
      var front := events[..|events| - 1];
      EachChangeIsSignalled(front, stabilizationMs);
      TitleRunKeeps(front, stabilizationMs);
      StepKeepsBooks(events, stabilizationMs);
    }
  }
}
