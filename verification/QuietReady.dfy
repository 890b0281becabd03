/**
 Both detectors together: title signals feed the status source, as in a replay of a recording. Over
 every run a "ready" status is quiet: nothing contradicted it for as long as its windows ask.
 */
module QuietReady {
  import OscTitleSource
  import StatusSource
  import opened Wrappers

  type Title = OscTitleSource.TitleState
  type Status = StatusSource.State

  datatype Config = Config(stabilizationMs: int, windows: StatusSource.Windows)

  datatype Event =
    | TitleArrives(kind: OscTitleSource.TitleKind)
    | StabilizationFires
    | ResyncLatch
    | ResetTitle
    | SignalArrives(raw: StatusSource.Raw)
    | PendingReadyFires
    | ResetStatus
    | DestroyBoth

  datatype Timed = Timed(event: Event, now: int)

  datatype Detector = Detector(title: Title, status: Status)

  const NEW_DETECTOR := Detector(OscTitleSource.NEW_TITLE_STATE, StatusSource.NEW_STATE)

  /** What a title signal is to the status source. */
  function RawOf(signal: OscTitleSource.TitleSignal, now: int): StatusSource.Raw {
    var s := match signal
      case SignalWorking => StatusSource.Working
      case SignalAwaiting => StatusSource.AwaitingInput
      case SignalReady => StatusSource.Ready
      case SignalUnknown => StatusSource.UnknownSignal;
    StatusSource.Raw(s, StatusSource.TitleSource, None, Some(now))
  }

  /** What the title source makes of an event. */
  function TitlePart(d: Detector, e: Timed, config: Config): (Title, seq<OscTitleSource.TitleSignal>) {
    match e.event
    case TitleArrives(kind) =>
      var arrival := OscTitleSource.Timed(OscTitleSource.TitleArrives(kind), e.now);
      OscTitleSource.TitleStep(d.title, arrival, config.stabilizationMs)
    case StabilizationFires => OscTitleSource.TimerFired(d.title, e.now)
    case ResyncLatch => (OscTitleSource.Resynced(d.title), [])
    case ResetTitle => (OscTitleSource.ResetTitle(d.title), [])
    case DestroyBoth => (OscTitleSource.Destroyed(d.title), [])
    case _ => (d.title, [])
  }

  /** The signals the status source takes in at an event. */
  function Taken(d: Detector, e: Timed, config: Config): seq<StatusSource.Raw> {
    if e.event.SignalArrives? then [e.event.raw]
    else
      var signals := TitlePart(d, e, config).1;
      if signals == [] then [] else [RawOf(signals[0], e.now)]
  }

  function StatusPart(d: Detector, e: Timed, config: Config): (Status, seq<StatusSource.Status>) {
    var taken := Taken(d, e, config);
    if taken != [] then StatusSource.Ingested(d.status, taken[0], e.now, config.windows)
    else
      match e.event
      case PendingReadyFires => StatusSource.ReadyTimerFired(d.status, e.now, config.windows)
      case ResetStatus => (StatusSource.ResetStatus(d.status), [])
      case DestroyBoth => (StatusSource.DestroyedStatus(d.status), [])
      case _ => (d.status, [])
  }

  function Step(d: Detector, e: Timed, config: Config): Detector {
    Detector(TitlePart(d, e, config).0, StatusPart(d, e, config).0)
  }

  function Run(events: seq<Timed>, config: Config): Detector {
    if events == [] then NEW_DETECTOR
    else Step(Run(events[..|events| - 1], config), events[|events| - 1], config)
  }

  /** The signals taken in, and the statuses given out, at one event of a run. */
  function TakenAt(events: seq<Timed>, i: nat, config: Config): seq<StatusSource.Raw>
    requires i < |events|
  {
    Taken(Run(events[..i], config), events[i], config)
  }

  function EmittedAt(events: seq<Timed>, i: nat, config: Config): seq<StatusSource.Status>
    requires i < |events|
  {
    StatusPart(Run(events[..i], config), events[i], config).1
  }

  // ----- what quiet means -----

  /** From after event `from` up to event `last`, no signal taken in says that the agent is busy. */
  ghost predicate NoBusySignal(events: seq<Timed>, from: nat, last: nat, config: Config)
    requires last <= |events|
  {
    forall k, raw :: from < k < last && raw in TakenAt(events, k, config) ==> !StatusSource.IsBusy(raw.signal)
  }

  predicate IsBusyTitle(e: Event) {
    e.TitleArrives? && (e.kind.Working? || e.kind.AwaitingInput?)
  }

  ghost predicate NoBusyTitle(events: seq<Timed>, from: nat, last: nat)
    requires last <= |events|
  {
    forall k :: from < k < last ==> !IsBusyTitle(events[k].event)
  }

  /** A pending "ready" goes back to a "ready" signal one window before it is due. */
  ghost predicate PendingIsQuiet(events: seq<Timed>, config: Config, j: nat, due: int) {
    && j < |events| && due == events[j].now + config.windows.conflictMs
    && (exists raw :: raw in TakenAt(events, j, config) && raw.signal == StatusSource.Ready)
    && NoBusySignal(events, j, |events|, config)
  }

  /** Something due that the title brought about goes back to a title that said "ready". */
  ghost predicate TitleIsQuiet(events: seq<Timed>, a: nat, due: int, wait: int) {
    && a < |events| && events[a].event == TitleArrives(OscTitleSource.Ready)
    && events[a].now + wait <= due && NoBusyTitle(events, a, |events|)
  }

  ghost predicate Quiet(events: seq<Timed>, config: Config) {
    var d := Run(events, config);
    && (d.status.pending.Some? ==> exists j: nat :: PendingIsQuiet(events, config, j, d.status.pending.value.due))
    && (d.title.stabilization.Some? ==>
          exists a: nat :: TitleIsQuiet(events, a, d.title.stabilization.value, config.stabilizationMs))
    && (HonestSources(events) && d.status.pending.Some? && d.status.pending.value.source == StatusSource.TitleSource ==>
          PendingTitleIsQuiet(events, config))
    && DestroyedIsSilent(d)
  }

  /** Nothing is pending once destroyed; the two are destroyed together. */
  predicate DestroyedIsSilent(d: Detector) {
    && (d.title.isDestroyed ==> d.title.stabilization.None? && d.status.isDestroyed)
    && (d.status.isDestroyed ==> d.status.pending.None?)
  }

  lemma {:induction false} DestroyedStaysSilent(d: Detector, e: Timed, config: Config)
    requires DestroyedIsSilent(d)
    ensures DestroyedIsSilent(Step(d, e, config))
  {
  }

  function BothWindows(config: Config): int {
    config.stabilizationMs + config.windows.conflictMs
  }

  /** The pending "ready" came from the title: no title has contradicted it since. */
  ghost predicate PendingTitleIsQuiet(events: seq<Timed>, config: Config) {
    var d := Run(events, config);
    && d.status.pending.Some?
    && d.title.lastKind != OscTitleSource.WasWorking && d.title.lastKind != OscTitleSource.WasAwaiting
    && exists a: nat :: TitleIsQuiet(events, a, d.status.pending.value.due, BothWindows(config))
  }

  /** Signals other than the title's own detector do not claim to come from the title. */
  ghost predicate HonestSources(events: seq<Timed>) {
    forall i :: 0 <= i < |events| && events[i].event.SignalArrives? ==>
      events[i].event.raw.source != StatusSource.TitleSource
  }

  lemma {:induction false} PrefixTaken(events: seq<Timed>, k: nat, config: Config)
    requires k + 1 < |events|
    ensures TakenAt(events, k, config) == TakenAt(events[..|events| - 1], k, config)
  {
    assert events[..|events| - 1][..k] == events[..k];
  }

  lemma {:induction false} StillNoBusySignal(events: seq<Timed>, from: nat, config: Config)
    requires events != [] && NoBusySignal(events[..|events| - 1], from, |events| - 1, config)
    requires forall raw :: raw in TakenAt(events, |events| - 1, config) ==> !StatusSource.IsBusy(raw.signal)
    ensures NoBusySignal(events, from, |events|, config)
  {
    forall k, raw | from < k < |events| && raw in TakenAt(events, k, config)
      ensures !StatusSource.IsBusy(raw.signal)
    {
      if k < |events| - 1 {
        PrefixTaken(events, k, config);
        assert raw in TakenAt(events[..|events| - 1], k, config);
      }
    }
  }

  /** At one event, a "ready" that is pending afterwards was pending before and met nothing busy, or
      was just signalled. */
  lemma {:induction false} PendingStep(d: Detector, e: Timed, config: Config)
    requires DestroyedIsSilent(d) && Step(d, e, config).status.pending.Some?
    ensures
      var due, taken := Step(d, e, config).status.pending.value.due, Taken(d, e, config);
      || (d.status.pending.Some? && d.status.pending.value.due == due
          && forall raw :: raw in taken ==> !StatusSource.IsBusy(raw.signal))
      || (taken != [] && taken[0].signal == StatusSource.Ready && due == e.now + config.windows.conflictMs)
  {
  }

  lemma {:induction false} PendingStaysQuiet(events: seq<Timed>, config: Config)
    requires events != [] && Quiet(events[..|events| - 1], config)
    requires Run(events, config).status.pending.Some?
    ensures exists j: nat :: PendingIsQuiet(events, config, j, Run(events, config).status.pending.value.due)
  {
    var n := |events| - 1;
    var before, due := Run(events[..n], config), Run(events, config).status.pending.value.due;
    PendingStep(before, events[n], config);
    var taken := TakenAt(events, n, config);
    if taken != [] && taken[0].signal == StatusSource.Ready && due == events[n].now + config.windows.conflictMs {
      assert taken[0] in taken;
      assert PendingIsQuiet(events, config, n, due);
    } else {
      var j: nat :| PendingIsQuiet(events[..n], config, j, due);
      PrefixTaken(events, j, config);
      StillNoBusySignal(events, j, config);
      assert PendingIsQuiet(events, config, j, due);
    }
  }

  lemma {:induction false} TitleStillQuiet(events: seq<Timed>, a: nat, due: int, wait: int)
    requires events != [] && TitleIsQuiet(events[..|events| - 1], a, due, wait)
    requires !IsBusyTitle(events[|events| - 1].event)
    ensures TitleIsQuiet(events, a, due, wait)
  {
    var n := |events| - 1;
    forall k | a < k < |events|
      ensures !IsBusyTitle(events[k].event)
    {
      assert k < n ==> events[..n][k] == events[k];
    }
  }

  /** At one event, a stabilization that runs afterwards ran before and met no busy title, or was just
      started by a title that says "ready". */
  lemma {:induction false} StabilizationStep(d: Detector, e: Timed, config: Config)
    requires Step(d, e, config).title.stabilization.Some?
    requires DestroyedIsSilent(d)
    ensures
      var due := Step(d, e, config).title.stabilization;
      || (d.title.stabilization == due && !IsBusyTitle(e.event))
      || (e.event == TitleArrives(OscTitleSource.Ready) && due.value == e.now + config.stabilizationMs)
  {
  }

  lemma {:induction false} StabilizationStaysQuiet(events: seq<Timed>, config: Config)
    requires events != [] && Quiet(events[..|events| - 1], config)
    requires Run(events, config).title.stabilization.Some?
    ensures exists a: nat ::
              TitleIsQuiet(events, a, Run(events, config).title.stabilization.value, config.stabilizationMs)
  {
    var n := |events| - 1;
    var before, due := Run(events[..n], config), Run(events, config).title.stabilization.value;
    StabilizationStep(before, events[n], config);
    if events[n].event == TitleArrives(OscTitleSource.Ready) && due == events[n].now + config.stabilizationMs {
      assert TitleIsQuiet(events, n, due, config.stabilizationMs);
    } else {
      var a: nat :| TitleIsQuiet(events[..n], a, due, config.stabilizationMs);
      TitleStillQuiet(events, a, due, config.stabilizationMs);
    }
  }

  /** At one event, a "ready" of the title's that is pending afterwards was pending before and met no
      busy title, or the stabilization just ran out. */
  lemma {:induction false} PendingTitleStep(d: Detector, e: Timed, config: Config)
    requires e.event.SignalArrives? ==> e.event.raw.source != StatusSource.TitleSource
    requires DestroyedIsSilent(d)
    requires Step(d, e, config).status.pending.Some?
    requires Step(d, e, config).status.pending.value.source == StatusSource.TitleSource
    ensures
      var d' := Step(d, e, config);
      var due := d'.status.pending.value.due;
      || (d.status.pending.Some? && d.status.pending.value.source == StatusSource.TitleSource
          && d.status.pending.value.due == due
          && (d.title.lastKind != OscTitleSource.WasWorking && d.title.lastKind != OscTitleSource.WasAwaiting ==>
                && !IsBusyTitle(e.event)
                && d'.title.lastKind != OscTitleSource.WasWorking && d'.title.lastKind != OscTitleSource.WasAwaiting))
      || (e.event == StabilizationFires && d.title.stabilization.Some? && d.title.stabilization.value <= e.now
          && due == e.now + config.windows.conflictMs && d'.title.lastKind == OscTitleSource.WasReady)
  {
  }

  lemma {:induction false} PendingTitleStaysQuiet(events: seq<Timed>, config: Config)
    requires events != [] && HonestSources(events) && Quiet(events[..|events| - 1], config)
    requires Run(events, config).status.pending.Some?
    requires Run(events, config).status.pending.value.source == StatusSource.TitleSource
    ensures PendingTitleIsQuiet(events, config)
  {
    var n := |events| - 1;
    var before, due := Run(events[..n], config), Run(events, config).status.pending.value.due;
    PendingTitleStep(before, events[n], config);
    if before.status.pending.Some? && before.status.pending.value.source == StatusSource.TitleSource
       && before.status.pending.value.due == due && !IsBusyTitle(events[n].event) {
      var a: nat :| TitleIsQuiet(events[..n], a, due, BothWindows(config));
      TitleStillQuiet(events, a, due, BothWindows(config));
    } else {
      var a: nat :| TitleIsQuiet(events[..n], a, before.title.stabilization.value, config.stabilizationMs);
      TitleStillQuiet(events, a, before.title.stabilization.value, config.stabilizationMs);
      assert TitleIsQuiet(events, a, due, BothWindows(config));
    }
  }

  lemma {:induction false} RunIsQuiet(events: seq<Timed>, config: Config)
    ensures Quiet(events, config)
  {
    if events != [] {
      var n := |events| - 1;
      RunIsQuiet(events[..n], config);
      DestroyedStaysSilent(Run(events[..n], config), events[n], config);
      var d := Run(events, config);
      if d.status.pending.Some? {
        PendingStaysQuiet(events, config);
        if HonestSources(events) && d.status.pending.value.source == StatusSource.TitleSource {
          PendingTitleStaysQuiet(events, config);
        }
      }
      if d.title.stabilization.Some? {
        StabilizationStaysQuiet(events, config);
      }
    }
  }

  /** A "ready" status is only ever given out by the pending timer, for what was pending. */
  lemma {:induction false} OnlyTheTimerSaysReady(d: Detector, e: Timed, config: Config, status: StatusSource.Status)
    requires status in StatusPart(d, e, config).1 && status.signal == StatusSource.Ready
    ensures e.event == PendingReadyFires && d.status.pending.Some? && d.status.pending.value.due <= e.now
    ensures status.source == d.status.pending.value.source
    ensures Taken(d, e, config) == []
  {
  }

  lemma {:induction false} PrefixPending(events: seq<Timed>, n: nat, config: Config, j: nat, due: int)
    requires n < |events| && PendingIsQuiet(events[..n], config, j, due) && TakenAt(events, n, config) == []
    ensures j < n && due == events[j].now + config.windows.conflictMs
    ensures exists raw :: raw in TakenAt(events, j, config) && raw.signal == StatusSource.Ready
    ensures NoBusySignal(events, j, n + 1, config)
  {
    assert events[..n][..j] == events[..j];
    forall k, raw | j < k < n + 1 && raw in TakenAt(events, k, config)
      ensures !StatusSource.IsBusy(raw.signal)
    {
      if k < n {
        assert events[..n][..k] == events[..k];
        assert raw in TakenAt(events[..n], k, config);
      }
    }
  }

  /** Over every run, whenever a "ready" status is given out: a whole conflict window earlier a "ready"
      signal came in, and no working, resume or awaiting-input signal has since. */
  lemma {:induction false} QuietBeforeReady(events: seq<Timed>, n: nat, config: Config, status: StatusSource.Status)
    requires n < |events|
    requires status in EmittedAt(events, n, config) && status.signal == StatusSource.Ready
    ensures exists j: nat ::
              && j < n && events[j].now + config.windows.conflictMs <= events[n].now
              && (exists raw :: raw in TakenAt(events, j, config) && raw.signal == StatusSource.Ready)
              && NoBusySignal(events, j, n + 1, config)
  {
    var d := Run(events[..n], config);
    RunIsQuiet(events[..n], config);
    OnlyTheTimerSaysReady(d, events[n], config, status);
    var due := d.status.pending.value.due;
    var j: nat :| PendingIsQuiet(events[..n], config, j, due);
    PrefixPending(events, n, config, j, due);
  }

  lemma {:induction false} PrefixTitle(events: seq<Timed>, n: nat, a: nat, due: int, wait: int)
    requires n < |events| && TitleIsQuiet(events[..n], a, due, wait) && !IsBusyTitle(events[n].event)
    ensures a < n && events[a].event == TitleArrives(OscTitleSource.Ready) && events[a].now + wait <= due
    ensures NoBusyTitle(events, a, n + 1)
  {
    forall k | a < k < n + 1
      ensures !IsBusyTitle(events[k].event)
    {
      assert k < n ==> events[..n][k] == events[k];
    }
  }

  /** And if its source is the title, a title said "ready" both windows earlier, and no title has said
      working or awaiting-input since. */
  lemma {:induction false} QuietBeforeTitleReady(
    events: seq<Timed>, n: nat, config: Config, status: StatusSource.Status)
    requires n < |events| && HonestSources(events)
    requires status in EmittedAt(events, n, config) && status.signal == StatusSource.Ready
    requires status.source == StatusSource.TitleSource
    ensures exists a: nat ::
              && a < n && events[a].event == TitleArrives(OscTitleSource.Ready)
              && events[a].now + BothWindows(config) <= events[n].now
              && NoBusyTitle(events, a, n + 1)
  {
    var d := Run(events[..n], config);
    RunIsQuiet(events[..n], config);
    OnlyTheTimerSaysReady(d, events[n], config, status);
    var due := d.status.pending.value.due;
    var a: nat :| TitleIsQuiet(events[..n], a, due, BothWindows(config));
    PrefixTitle(events, n, a, due, BothWindows(config));
  }
}
