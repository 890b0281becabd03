/**
 Which statuses are given out over a run, told from the signals taken in: every immediate signal that repeats
 nothing, and every "ready" that stays quiet for its conflict window.
 */
module StatusRuns {
  import StatusSource
  import opened QuietReady
  import opened Wrappers

  type Signalled = StatusSource.Raw
  type Given = StatusSource.Status

  // ----- what a signal says -----

  predicate IsSure(raw: Signalled) {
    if raw.confidence.Some? then raw.confidence.value.High? else raw.source.HookSource?
  }

  /** The status that a signal taken in at a time stands for. */
  function Said(raw: Signalled, now: int): Given {
    StatusSource.Status(raw.signal, raw.source, if IsSure(raw) then StatusSource.High else StatusSource.Low,
                        if raw.ts.Some? then raw.ts.value else now)
  }

  /** Signals that are passed on at once: all but "ready", "unknown" and those that are no signals at all. */
  predicate PassesAtOnce(signal: StatusSource.Signal) {
    match signal
    case Ready => false
    case UnknownSignal => false
    case OtherSignal => false
    case _ => true
  }

  /** The signals that end the wait of a "ready". */
  predicate EndsWait(signal: StatusSource.Signal) {
    signal == StatusSource.Working || signal == StatusSource.Resume || signal == StatusSource.AwaitingInput
  }

  // ----- what has been given out, and what waits -----

  predicate IsOver(events: seq<Timed>) {
    exists i :: 0 <= i < |events| && events[i].event.DestroyBoth?
  }

  /** The last status given out since the status source was reset. */
  function LastGiven(events: seq<Timed>, config: Config): Option<Given> {
    if events == [] then None
    else
      var n := |events| - 1;
      var given := EmittedAt(events, n, config);
      if events[n].event.ResetStatus? then None
      else if given != [] then Some(given[|given| - 1])
      else LastGiven(events[..n], config)
  }

  /** The same signal within the dedup window, and not from a source that is surer. */
  predicate IsRepeat(last: Option<Given>, status: Given, dedupMs: int) {
    && last.Some? && last.value.signal == status.signal && status.ts - last.value.ts < dedupMs
    && !(status.confidence == StatusSource.High && last.value.confidence == StatusSource.Low)
  }

  /** A "ready" that waits: when it is due, the signal it will be given out for, and when that came. */
  datatype Wait = Wait(due: int, raw: Signalled, at: int)

  /** The first "ready" starts the wait, a surer one takes its place without moving the due time, and work, a
      reset or the timer stop it. */
  function WaitAfter(before: Option<Wait>, e: Timed, taken: seq<Signalled>, conflictMs: int): Option<Wait> {
    if e.event.ResetStatus? then None
    else if taken != [] then
      if EndsWait(taken[0].signal) then None
      else if taken[0].signal != StatusSource.Ready then before
      else if before.None? then Some(Wait(e.now + conflictMs, taken[0], e.now))
      else if IsSure(taken[0]) && !IsSure(before.value.raw) then Some(Wait(before.value.due, taken[0], e.now))
      else before
    else if e.event.PendingReadyFires? && before.Some? && before.value.due <= e.now then None
    else before
  }

  function Waiting(events: seq<Timed>, config: Config): Option<Wait> {
    if events == [] || IsOver(events) then None
    else
      var n := |events| - 1;
      WaitAfter(Waiting(events[..n], config), events[n], TakenAt(events, n, config), config.windows.conflictMs)
  }

  /** The status that is up at an event, if any. */
  function UpAt(events: seq<Timed>, n: nat, config: Config): Option<Given>
    requires n < |events|
  {
    var taken, waiting := TakenAt(events, n, config), Waiting(events[..n], config);
    if IsOver(events[..n]) then None
    else if taken != [] then
      if PassesAtOnce(taken[0].signal) then Some(Said(taken[0], events[n].now)) else None
    else if events[n].event.PendingReadyFires? && waiting.Some? && waiting.value.due <= events[n].now then
      Some(Said(waiting.value.raw, waiting.value.at))
    else None
  }

  // ----- the status source keeps these books -----

  function LastOf(given: Option<Given>): Option<StatusSource.Last> {
    if given.None? then None
    else Some(StatusSource.Last(given.value.signal, given.value.confidence, given.value.ts))
  }

  function PendingOf(waiting: Option<Wait>): Option<StatusSource.PendingReady> {
    if waiting.None? then None
    else
      var said := Said(waiting.value.raw, waiting.value.at);
      Some(StatusSource.PendingReady(said.source, said.confidence, said.ts, waiting.value.due))
  }

  ghost predicate KeepsBooks(s: Status, events: seq<Timed>, config: Config) {
    && (s.isDestroyed <==> IsOver(events))
    && s.last == LastOf(LastGiven(events, config))
    && s.pending == PendingOf(Waiting(events, config))
    && (Waiting(events, config).Some? ==> Waiting(events, config).value.raw.signal == StatusSource.Ready)
  }

  lemma {:induction false} OverStep(events: seq<Timed>)
    requires events != []
    ensures IsOver(events) <==> IsOver(events[..|events| - 1]) || events[|events| - 1].event.DestroyBoth?
  {
    var n := |events| - 1;
    if IsOver(events[..n]) {
      var i :| 0 <= i < n && events[..n][i].event.DestroyBoth?;
      assert events[i].event.DestroyBoth?;
    }
  }

  lemma {:induction false} OneAtMost(d: Detector, e: Timed, config: Config)
    ensures |StatusPart(d, e, config).1| <= 1 && |Taken(d, e, config)| <= 1
    ensures e.event.ResetStatus? || e.event.PendingReadyFires? ==> Taken(d, e, config) == []
  {
  }

  lemma {:induction false} ResolveGives(s: Status, last: Option<Given>, status: Given, windows: StatusSource.Windows)
    requires s.last == LastOf(last)
    ensures
      StatusSource.Resolved(s, status, windows).1 == if IsRepeat(last, status, windows.dedupMs) then [] else [status]
  {
  }

  lemma {:induction false} IngestGives(
    s: Status, last: Option<Given>, raw: Signalled, now: int, windows: StatusSource.Windows)
    requires s.last == LastOf(last)
    ensures
      var status := Said(raw, now);
      StatusSource.Ingested(s, raw, now, windows).1 ==
        if s.isDestroyed || !PassesAtOnce(raw.signal) || IsRepeat(last, status, windows.dedupMs) then [] else [status]
  {
    ResolveGives(s, last, Said(raw, now), windows);
    ResolveGives(s.(pending := None), last, Said(raw, now), windows);
  }

  lemma {:induction false} TimerGives(
    s: Status, last: Option<Given>, waiting: Option<Wait>, now: int, windows: StatusSource.Windows)
    requires s.last == LastOf(last) && s.pending == PendingOf(waiting)
    requires waiting.Some? ==> waiting.value.raw.signal == StatusSource.Ready
    ensures
      StatusSource.ReadyTimerFired(s, now, windows).1 ==
        if waiting.None? || now < waiting.value.due || s.isDestroyed
           || IsRepeat(last, Said(waiting.value.raw, waiting.value.at), windows.dedupMs) then []
        else [Said(waiting.value.raw, waiting.value.at)]
  {
    if waiting.Some? {
      ResolveGives(s.(pending := None), last, Said(waiting.value.raw, waiting.value.at), windows);
    }
  }

  /** What an event gives out in a state that the books describe. */
  lemma {:induction false} GivenIsUp(events: seq<Timed>, config: Config)
    requires events != [] && KeepsBooks(Run(events[..|events| - 1], config).status, events[..|events| - 1], config)
    ensures
      var n := |events| - 1;
      var up := UpAt(events, n, config);
      EmittedAt(events, n, config) ==
        if up.None? || IsRepeat(LastGiven(events[..n], config), up.value, config.windows.dedupMs) then []
        else [up.value]
  {
    var n := |events| - 1;
    var s, last, taken := Run(events[..n], config).status, LastGiven(events[..n], config), TakenAt(events, n, config);
    if taken != [] {
      IngestGives(s, last, taken[0], events[n].now, config.windows);
    } else {
      TimerGives(s, last, Waiting(events[..n], config), events[n].now, config.windows);
    }
  }

  lemma {:induction false} IngestWaits(
    s: Status, waiting: Option<Wait>, raw: Signalled, now: int, windows: StatusSource.Windows)
    requires s.pending == PendingOf(waiting) && !s.isDestroyed
    ensures
      StatusSource.Ingested(s, raw, now, windows).0.pending ==
        if EndsWait(raw.signal) then None
        else if raw.signal != StatusSource.Ready then s.pending
        else if waiting.None? then PendingOf(Some(Wait(now + windows.conflictMs, raw, now)))
        else if IsSure(raw) && !IsSure(waiting.value.raw) then PendingOf(Some(Wait(waiting.value.due, raw, now)))
        else s.pending
    ensures !StatusSource.Ingested(s, raw, now, windows).0.isDestroyed
  {
  }

  lemma {:induction false} PendingFollows(events: seq<Timed>, config: Config)
    requires events != [] && KeepsBooks(Run(events[..|events| - 1], config).status, events[..|events| - 1], config)
    requires DestroyedIsSilent(Run(events[..|events| - 1], config))
    ensures Run(events, config).status.isDestroyed <==> IsOver(events)
    ensures Run(events, config).status.pending == PendingOf(Waiting(events, config))
    ensures Waiting(events, config).Some? ==> Waiting(events, config).value.raw.signal == StatusSource.Ready
  {
    var n := |events| - 1;
    var before := Run(events[..n], config);
    OverStep(events);
    OneAtMost(before, events[n], config);
    DestroyedStaysSilent(before, events[n], config);
    var taken := TakenAt(events, n, config);
    if taken != [] && !IsOver(events) {
      IngestWaits(before.status, Waiting(events[..n], config), taken[0], events[n].now, config.windows);
    }
    StatusPartEnds(before, events[n], config);
  }

  lemma {:induction false} StatusPartEnds(d: Detector, e: Timed, config: Config)
    ensures StatusPart(d, e, config).0.isDestroyed <==> d.status.isDestroyed || e.event.DestroyBoth?
  {
  }

  lemma {:induction false} LastFollows(events: seq<Timed>, config: Config)
    requires events != [] && KeepsBooks(Run(events[..|events| - 1], config).status, events[..|events| - 1], config)
    ensures Run(events, config).status.last == LastOf(LastGiven(events, config))
  {
    var n := |events| - 1;
    OneAtMost(Run(events[..n], config), events[n], config);
    GivenIsUp(events, config);
  }

  lemma {:induction false} RunKeepsBooks(events: seq<Timed>, config: Config)
    ensures KeepsBooks(Run(events, config).status, events, config)
  {
    if events != [] {
      var n := |events| - 1;
      RunKeepsBooks(events[..n], config);
      RunIsQuiet(events[..n], config);
      PendingFollows(events, config);
      LastFollows(events, config);
    }
  }

  lemma {:induction false} SameBefore(events: seq<Timed>, n: nat, config: Config)
    requires n < |events|
    ensures events[..n + 1][..n] == events[..n] && events[..n + 1][n] == events[n]
    ensures EmittedAt(events[..n + 1], n, config) == EmittedAt(events, n, config)
    ensures TakenAt(events[..n + 1], n, config) == TakenAt(events, n, config)
    ensures UpAt(events[..n + 1], n, config) == UpAt(events, n, config)
  {
    assert events[..n + 1][..n] == events[..n];
  }

  /** Over every run an event gives out exactly the status that is up, unless it repeats the last one. */
  lemma {:induction false} StatusesGivenOut(events: seq<Timed>, n: nat, config: Config)
    requires n < |events|
    ensures
      var up := UpAt(events, n, config);
      EmittedAt(events, n, config) ==
        if up.None? || IsRepeat(LastGiven(events[..n], config), up.value, config.windows.dedupMs) then []
        else [up.value]
  {
    SameBefore(events, n, config);
    RunKeepsBooks(events[..n], config);
    GivenIsUp(events[..n + 1], config);
  }

  /** An immediate signal taken in by a live source is given out as it came, unless it repeats. */
  lemma {:induction false} ImmediateIsGivenOut(events: seq<Timed>, n: nat, config: Config, raw: Signalled)
    requires n < |events| && !IsOver(events[..n])
    requires TakenAt(events, n, config) == [raw] && PassesAtOnce(raw.signal)
    ensures
      var status := Said(raw, events[n].now);
      EmittedAt(events, n, config) ==
        if IsRepeat(LastGiven(events[..n], config), status, config.windows.dedupMs) then [] else [status]
  {
    StatusesGivenOut(events, n, config);
  }

  // ----- a "ready" that stays quiet -----

  /** Nothing happens that ends a wait for what is due then. */
  predicate LetsWait(events: seq<Timed>, k: nat, config: Config, due: int)
    requires k < |events|
  {
    && (forall raw :: raw in TakenAt(events, k, config) ==> !EndsWait(raw.signal))
    && !events[k].event.ResetStatus? && !events[k].event.DestroyBoth?
    && !(events[k].event.PendingReadyFires? && due <= events[k].now)
  }

  ghost predicate AllLetWait(events: seq<Timed>, j: nat, m: nat, config: Config, due: int)
    requires m <= |events|
  {
    forall k :: j < k < m ==> LetsWait(events, k, config, due)
  }

  /** The signal that a wait begun at j stands for: that of j, or the surer one that took its place. */
  ghost predicate StandsFor(events: seq<Timed>, j: nat, m: nat, config: Config, waiting: Wait)
    requires j < m <= |events|
  {
    exists k: nat :: j <= k < m && CameAt(events, j, k, config, waiting)
  }

  ghost predicate CameAt(events: seq<Timed>, j: nat, k: nat, config: Config, waiting: Wait)
    requires k < |events|
  {
    && TakenAt(events, k, config) == [waiting.raw] && waiting.at == events[k].now
    && waiting.raw.signal == StatusSource.Ready && (k > j ==> IsSure(waiting.raw))
  }

  /** Before m a "ready" waits that has since j, due then. */
  ghost predicate Waits(events: seq<Timed>, j: nat, m: nat, config: Config, due: int)
    requires j < m <= |events|
  {
    && Waiting(events[..m], config).Some? && Waiting(events[..m], config).value.due == due
    && StandsFor(events, j, m, config, Waiting(events[..m], config).value)
  }

  lemma {:induction false} WaitingStep(events: seq<Timed>, n: nat, config: Config)
    requires n < |events|
    ensures IsOver(events[..n + 1]) <==> IsOver(events[..n]) || events[n].event.DestroyBoth?
    ensures !IsOver(events[..n + 1]) ==>
              var before, taken := Waiting(events[..n], config), TakenAt(events, n, config);
              Waiting(events[..n + 1], config) == WaitAfter(before, events[n], taken, config.windows.conflictMs)
  {
    SameBefore(events, n, config);
    OverStep(events[..n + 1]);
  }

  lemma {:induction false} CameEarlier(
    events: seq<Timed>, j: nat, n: nat, config: Config, waiting: Wait)
    requires j < n < |events| && StandsFor(events, j, n, config, waiting)
    ensures StandsFor(events, j, n + 1, config, waiting)
  {
    var k: nat :| j <= k < n && CameAt(events, j, k, config, waiting);
    assert CameAt(events, j, k, config, waiting);
  }

  /** An event that lets a "ready" wait leaves it waiting, or puts a surer one in its place. */
  lemma {:induction false} WaitStep(events: seq<Timed>, j: nat, n: nat, config: Config, before: Wait)
    requires j < n < |events| && !IsOver(events[..n]) && Waiting(events[..n], config) == Some(before)
    requires LetsWait(events, n, config, before.due) && StandsFor(events, j, n, config, before)
    ensures !IsOver(events[..n + 1]) && Waiting(events[..n + 1], config).Some?
    ensures
      var w := Waiting(events[..n + 1], config).value;
      w.due == before.due && StandsFor(events, j, n + 1, config, w)
  {
    WaitingStep(events, n, config);
    OneAtMost(Run(events[..n], config), events[n], config);
    var taken := TakenAt(events, n, config);
    assert taken != [] ==> taken == [taken[0]] && taken[0] in taken;
    var w := Waiting(events[..n + 1], config).value;
    if w == before {
      CameEarlier(events, j, n, config, before);
    } else {
      assert CameAt(events, j, n, config, w);
    }
  }

  ghost predicate StillWaits(events: seq<Timed>, j: nat, m: nat, config: Config, due: int)
    requires j < m <= |events|
  {
    !IsOver(events[..m]) && Waits(events, j, m, config, due)
  }

  /** A "ready" comes to a live source in which none waits. */
  ghost predicate StartsWait(events: seq<Timed>, j: nat, config: Config)
    requires j < |events|
  {
    && !IsOver(events[..j]) && Waiting(events[..j], config).None?
    && |TakenAt(events, j, config)| == 1 && TakenAt(events, j, config)[0].signal == StatusSource.Ready
  }

  lemma {:induction false} WaitBegins(events: seq<Timed>, j: nat, config: Config)
    requires j < |events| && StartsWait(events, j, config)
    ensures StillWaits(events, j, j + 1, config, events[j].now + config.windows.conflictMs)
  {
    WaitingStep(events, j, config);
    TakenIsNoEnd(Run(events[..j], config), events[j], config);
    var w := Waiting(events[..j + 1], config).value;
    assert CameAt(events, j, j, config, w);
  }

  lemma {:induction false} TakenIsNoEnd(d: Detector, e: Timed, config: Config)
    requires Taken(d, e, config) != []
    ensures !e.event.ResetStatus? && !e.event.DestroyBoth? && !e.event.PendingReadyFires?
  {
  }

  lemma {:induction false} WaitsOn(events: seq<Timed>, j: nat, n: nat, config: Config, due: int)
    requires j < n < |events| && StillWaits(events, j, n, config, due) && LetsWait(events, n, config, due)
    ensures StillWaits(events, j, n + 1, config, due)
  {
    WaitStep(events, j, n, config, Waiting(events[..n], config).value);
  }

  lemma {:induction false} WaitGoesOn(events: seq<Timed>, j: nat, m: nat, config: Config, due: int)
    requires j < m <= |events| && StillWaits(events, j, j + 1, config, due) && AllLetWait(events, j, m, config, due)
    ensures StillWaits(events, j, m, config, due)
    decreases m
  {
    if m > j + 1 {
      var n := m - 1;
      assert LetsWait(events, n, config, due);
      WaitGoesOn(events, j, n, config, due);
      WaitsOn(events, j, n, config, due);
    }
  }

  lemma {:induction false} QuietReadyWaits(events: seq<Timed>, j: nat, m: nat, config: Config, due: int)
    requires j < m < |events| && StartsWait(events, j, config) && AllLetWait(events, j, m, config, due)
    requires due == events[j].now + config.windows.conflictMs
    ensures StillWaits(events, j, m, config, due)
  {
    WaitBegins(events, j, config);
    WaitGoesOn(events, j, m, config, due);
  }

  /** What waited since j is given out at m, unless it repeats. */
  ghost predicate GivenOut(events: seq<Timed>, j: nat, m: nat, config: Config)
    requires j < m < |events|
  {
    var waiting := Waiting(events[..m], config);
    && waiting.Some? && StandsFor(events, j, m, config, waiting.value)
    && var status := Said(waiting.value.raw, waiting.value.at);
       EmittedAt(events, m, config) ==
         if IsRepeat(LastGiven(events[..m], config), status, config.windows.dedupMs) then [] else [status]
  }

  /** The timer gives out what waits and is due. */
  lemma {:induction false} DueIsGivenOut(events: seq<Timed>, j: nat, m: nat, config: Config, due: int)
    requires j < m < |events| && StillWaits(events, j, m, config, due)
    requires events[m].event.PendingReadyFires? && due <= events[m].now
    ensures GivenOut(events, j, m, config)
  {
    OneAtMost(Run(events[..m], config), events[m], config);
    StatusesGivenOut(events, m, config);
  }

  /** A "ready" that comes when none waits, and that nothing busy follows, is given out by the timer once its
      window is over, unless it repeats. */
  lemma {:induction false} QuietReadyIsGivenOut(events: seq<Timed>, j: nat, m: nat, config: Config, due: int)
    requires j < m < |events| && StartsWait(events, j, config)
    requires due == events[j].now + config.windows.conflictMs && AllLetWait(events, j, m, config, due)
    requires events[m].event.PendingReadyFires? && due <= events[m].now
    ensures GivenOut(events, j, m, config)
  {
    QuietReadyWaits(events, j, m, config, due);
    DueIsGivenOut(events, j, m, config, due);
  }

  /** What the title says is taken in as the title's own, at the time of the event. */
  lemma {:induction false} TitleSignalsAreTaken(d: Detector, e: Timed, config: Config)
    requires !e.event.SignalArrives?
    ensures
      var signals := TitlePart(d, e, config).1;
      Taken(d, e, config) ==
        if signals == [] then []
        else
          var signal := match signals[0]
            case SignalWorking => StatusSource.Working
            case SignalAwaiting => StatusSource.AwaitingInput
            case SignalReady => StatusSource.Ready
            case SignalUnknown => StatusSource.UnknownSignal;
          [StatusSource.Raw(signal, StatusSource.TitleSource, None, Some(e.now))]
    ensures |TitlePart(d, e, config).1| <= 1
  {
  }
}
