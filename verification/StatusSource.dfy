/**
 The status source: signals from hooks and titles become statuses. Most are passed on at once; a
 "ready" waits for a conflict window in which nothing says otherwise.
 */
module StatusSource {
  import opened Wrappers

  datatype Signal =
    | Working | AwaitingInput | Resume | Ready
    | SessionStart | SessionEnd | CompactionStart | CompactionEnd
    | UnknownSignal | OtherSignal

  datatype Source = HookSource | TitleSource | OtherSource

  datatype Confidence = Low | High

  /** A signal as it comes in; its confidence may be left to its source, its time to the clock. */
  datatype Raw = Raw(signal: Signal, source: Source, confidence: Option<Confidence>, ts: Option<int>)

  datatype Status = Status(signal: Signal, source: Source, confidence: Confidence, ts: int)

  datatype PendingReady = PendingReady(source: Source, confidence: Confidence, ts: int, due: int)

  datatype Last = Last(signal: Signal, confidence: Confidence, ts: int)

  datatype State = State(pending: Option<PendingReady>, last: Option<Last>, isDestroyed: bool)

  const NEW_STATE := State(None, None, false)

  datatype Windows = Windows(conflictMs: int, dedupMs: int)

  function ConfidenceOf(raw: Raw): Confidence {
    if raw.confidence.Some? then raw.confidence.value else if raw.source == HookSource then High else Low
  }

  function TimeOf(raw: Raw, now: int): int {
    if raw.ts.Some? then raw.ts.value else now
  }

  predicate IsImmediate(signal: Signal) {
    signal in {Working, AwaitingInput, Resume, SessionStart, SessionEnd, CompactionStart, CompactionEnd}
  }

  predicate IsActivity(signal: Signal) {
    signal == Working || signal == Resume
  }

  /** What ends a pending "ready". */
  predicate IsBusy(signal: Signal) {
    IsActivity(signal) || signal == AwaitingInput
  }

  predicate IsRapidDuplicate(s: State, signal: Signal, ts: int, windows: Windows) {
    s.last.Some? && s.last.value.signal == signal && ts - s.last.value.ts < windows.dedupMs
  }

  predicate IsHigherConfidence(s: State, confidence: Confidence) {
    confidence == High && (s.last.None? || s.last.value.confidence == Low)
  }

  function Resolved(s: State, status: Status, windows: Windows): (State, seq<Status>) {
    if IsRapidDuplicate(s, status.signal, status.ts, windows) && !IsHigherConfidence(s, status.confidence) then (s, [])
    else (s.(last := Some(Last(status.signal, status.confidence, status.ts))), [status])
  }

  function PendingWith(s: State, raw: Raw, now: int, windows: Windows): State {
    var confidence, ts := ConfidenceOf(raw), TimeOf(raw, now);
    if s.pending.None? then s.(pending := Some(PendingReady(raw.source, confidence, ts, now + windows.conflictMs)))
    else if confidence == High && s.pending.value.confidence != High then
      s.(pending := Some(PendingReady(raw.source, confidence, ts, s.pending.value.due)))
    else s
  }

  function Ingested(s: State, raw: Raw, now: int, windows: Windows): (State, seq<Status>) {
    if s.isDestroyed then (s, [])
    else if raw.signal == Ready then (PendingWith(s, raw, now, windows), [])
    else if !IsImmediate(raw.signal) then (s, [])
    else
      var s1 := if IsBusy(raw.signal) then s.(pending := None) else s;
      Resolved(s1, Status(raw.signal, raw.source, ConfidenceOf(raw), TimeOf(raw, now)), windows)
  }

  /** The pending timer, once it is due. */
  function ReadyTimerFired(s: State, now: int, windows: Windows): (State, seq<Status>) {
    if s.pending.None? || now < s.pending.value.due then (s, [])
    else
      var p, s1 := s.pending.value, s.(pending := None);
      if s.isDestroyed then (s1, []) else Resolved(s1, Status(Ready, p.source, p.confidence, p.ts), windows)
  }

  function ResetStatus(s: State): State {
    s.(pending := None, last := None)
  }

  function DestroyedStatus(s: State): State {
    s.(pending := None, isDestroyed := true)
  }

  class StatusSource {
    const windows: Windows
    var pendingReadyTimer: Option<int>
    var pendingReadySource: Option<Source>
    var pendingReadyConfidence: Option<Confidence>
    var pendingReadyTs: Option<int>
    var last: Option<Last>
    var isDestroyed: bool
    var statuses: seq<Status>

    /** The four pending fields are set and cleared together. */
    predicate Valid()
      reads this
    {
      && (pendingReadyTimer.Some? <==> pendingReadySource.Some?)
      && (pendingReadyTimer.Some? <==> pendingReadyConfidence.Some?)
      && (pendingReadyTimer.Some? <==> pendingReadyTs.Some?)
    }

    function Value(): State
      requires Valid()
      reads this
    {
      State(if pendingReadyTimer.None? then None
            else Some(PendingReady(pendingReadySource.value, pendingReadyConfidence.value, pendingReadyTs.value,
                                   pendingReadyTimer.value)),
            last, isDestroyed)
    }

    constructor (windows: Windows)
      ensures Valid() && Value() == NEW_STATE && statuses == [] && this.windows == windows
    {
      this.windows := windows;
      pendingReadyTimer, pendingReadySource, pendingReadyConfidence, pendingReadyTs := None, None, None, None;
      last, isDestroyed, statuses := None, false, [];
    }

    method CancelPendingReady()
      requires Valid()
      modifies this`pendingReadyTimer, this`pendingReadySource, this`pendingReadyConfidence, this`pendingReadyTs
      ensures Valid() && Value() == old(Value()).(pending := None)
    {
      if pendingReadyTimer.Some? {
        pendingReadyTimer, pendingReadySource, pendingReadyConfidence, pendingReadyTs := None, None, None, None;
      }
    }

    method Resolve(signal: Signal, source: Source, confidence: Confidence, ts: int)
      requires Valid()
      modifies this`last, this`statuses
      ensures Valid() && Value() == Resolved(old(Value()), Status(signal, source, confidence, ts), windows).0
      ensures statuses == old(statuses) + Resolved(old(Value()), Status(signal, source, confidence, ts), windows).1
    {
      var isRapidDuplicate := last.Some? && last.value.signal == signal && ts - last.value.ts < windows.dedupMs;
      var isHigherConfidence := confidence == High && (last.None? || last.value.confidence == Low);
      if isRapidDuplicate && !isHigherConfidence { return; }
      last := Some(Last(signal, confidence, ts));
      statuses := statuses + [Status(signal, source, confidence, ts)];
    }

    method Ingest(raw: Raw, now: int)
      requires Valid()
      modifies this
      ensures Valid() && Value() == Ingested(old(Value()), raw, now, windows).0
      ensures statuses == old(statuses) + Ingested(old(Value()), raw, now, windows).1
      ensures !old(isDestroyed) && raw.signal !in {Ready, UnknownSignal, OtherSignal} ==>
                var status := Status(raw.signal, raw.source, ConfidenceOf(raw), TimeOf(raw, now));
                var repeats := IsRapidDuplicate(old(Value()), raw.signal, status.ts, windows)
                  && !IsHigherConfidence(old(Value()), status.confidence);
                statuses == old(statuses) + if repeats then [] else [status]
    {
      if isDestroyed { return; }
      var ts, confidence := TimeOf(raw, now), ConfidenceOf(raw);
      if raw.signal == UnknownSignal { return; }
      if raw.signal == AwaitingInput {
        CancelPendingReady();
        Resolve(raw.signal, raw.source, confidence, ts);
        return;
      }
      if raw.signal == Ready {
        if pendingReadyTimer.Some? {
          if confidence == High && pendingReadyConfidence != Some(High) {
            pendingReadySource, pendingReadyConfidence, pendingReadyTs := Some(raw.source), Some(confidence), Some(ts);
          }
          return;
        }
        pendingReadySource, pendingReadyConfidence, pendingReadyTs := Some(raw.source), Some(confidence), Some(ts);
        pendingReadyTimer := Some(now + windows.conflictMs);
        return;
      }
      if IsImmediate(raw.signal) {
        if IsActivity(raw.signal) {
          CancelPendingReady();
        }
        Resolve(raw.signal, raw.source, confidence, ts);
      }
    }

    method PendingReadyFired(now: int)
      requires Valid()
      modifies this
      ensures Valid() && Value() == ReadyTimerFired(old(Value()), now, windows).0
      ensures statuses == old(statuses) + ReadyTimerFired(old(Value()), now, windows).1
    {
      if pendingReadyTimer.None? || now < pendingReadyTimer.value { return; }
      var source, confidence, ts := pendingReadySource.value, pendingReadyConfidence.value, pendingReadyTs.value;
      pendingReadyTimer, pendingReadySource, pendingReadyConfidence, pendingReadyTs := None, None, None, None;
      if isDestroyed { return; }
      Resolve(Ready, source, confidence, ts);
    }

    method Reset()
      requires Valid()
      modifies this
      ensures Valid() && Value() == ResetStatus(old(Value())) && statuses == old(statuses)
    {
      CancelPendingReady();
      last := None;
    }

    method Destroy()
      requires Valid()
      modifies this
      ensures Valid() && Value() == DestroyedStatus(old(Value())) && statuses == old(statuses)
    {
      isDestroyed := true;
      CancelPendingReady();
    }
  }
}
