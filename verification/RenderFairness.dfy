/**
 What one frame does to the sinks, and how long a sink can wait: at most budget sinks are serviced per
 frame, and with n sinks a serviceable one is reached within n - budget + 1 frames.
 */
module RenderFairness {
  import opened RenderScheduler
  import opened RenderRuns

  // ----- one frame -----

  lemma {:induction false} ServiceTakesAllOrSends(queue: seq<Entry>, maxChunk: nat)
    ensures Draw(queue, 0, maxChunk).taken == [] ==> Draw(queue, 0, maxChunk).left == []
  {
    if queue != [] && queue[0].Action? {
      ServiceTakesAllOrSends(queue[1..], maxChunk);
    }
  }

  lemma {:induction false} ServicedOnceIsEnough(s: Sink, maxChunk: nat)
    ensures !Serviceable(Serviced(s, maxChunk))
  {
    ServiceTakesAllOrSends(s.queue, maxChunk);
  }

  /** The identities serviced from place k on. */
  function ServedFrom(s: State, k: nat, serviced: nat, config: Config): set<nat>
    requires k <= |s.order|
    decreases |s.order| - k
  {
    if k == |s.order| || serviced >= config.budget then {}
    else if IsServicedAt(s, k) then
      {s.names[s.order[Turn(s, k)]]} + ServedFrom(ServicedAt(s, k, config), k + 1, serviced + 1, config)
    else ServedFrom(ServicedAt(s, k, config), k + 1, serviced, config)
  }

  /** From s to s' exactly the sinks in `served` were serviced, all of them serviceable, once each. */
  predicate Serves(s: State, s': State, served: set<nat>, maxChunk: nat) {
    && s'.sinks.Keys == s.sinks.Keys
    && (forall i :: i in served ==> ServiceableAt(s, i) && s'.sinks[i] == Serviced(s.sinks[i], maxChunk))
    && (forall i :: i in s.sinks && i !in served ==> s'.sinks[i] == s.sinks[i])
  }

  lemma {:induction false} ServesOneMore(s: State, s1: State, s': State, identity: nat, served: set<nat>, maxChunk: nat)
    requires ServiceableAt(s, identity)
    requires s1 == s.(sinks := s.sinks[identity := Serviced(s.sinks[identity], maxChunk)])
    requires Serves(s1, s', served, maxChunk)
    ensures Serves(s, s', {identity} + served, maxChunk)
    ensures |{identity} + served| == 1 + |served|
  {
    ServicedOnceIsEnough(s.sinks[identity], maxChunk);
    assert identity !in served;
  }

  lemma {:induction false} TickFromServes(s: State, k: nat, serviced: nat, config: Config)
    requires k <= |s.order| && serviced <= config.budget
    ensures
      var served := ServedFrom(s, k, serviced, config);
      |served| <= config.budget - serviced && Serves(s, TickFrom(s, k, serviced, config), served, config.maxChunkBytes)
    decreases |s.order| - k
  {
    if k < |s.order| && serviced < config.budget {
      var s1 := ServicedAt(s, k, config);
      if IsServicedAt(s, k) {
        TickFromServes(s1, k + 1, serviced + 1, config);
        ServesOneMore(s, s1, TickFrom(s, k, serviced, config), s.names[s.order[Turn(s, k)]],
          ServedFrom(s1, k + 1, serviced + 1, config), config.maxChunkBytes);
      } else {
        TickFromServes(s1, k + 1, serviced, config);
      }
    }
  }

  /** One frame services at most budget sinks, each of them serviceable and each once; the others keep
      everything. */
  lemma {:induction false} TickServes(s: State, config: Config)
    requires s.isArmed
    ensures
      var served := ServedFrom(s.(isArmed := false), 0, 0, config);
      |served| <= config.budget && Serves(s, Tick(s, config), served, config.maxChunkBytes)
  {
    TickFromServes(s.(isArmed := false), 0, 0, config);
  }

  // ----- who is reached -----

  /** How many places from the start of the round the sink at p is looked at. */
  function Distance(p: nat, rr: nat, n: nat): nat
    requires p < n && rr < n
  {
    if p >= rr then p - rr else p + n - rr
  }

  lemma {:induction false} Wrapped(x: nat, n: nat)
    requires 0 < n && x < 2 * n
    ensures x % n == if x < n then x else x - n
  {
  }

  lemma {:induction false} TurnAt(s: State, k: nat, p: nat)
    requires s.order != [] && s.rr < |s.order| && k < |s.order| && p < |s.order|
    ensures Turn(s, k) == p <==> k == Distance(p, s.rr, |s.order|)
  {
    Wrapped(s.rr + k, |s.order|);
  }

  predicate IsAt(s: State, p: nat, identity: nat) {
    p < |s.order| && s.order[p] in s.names && s.names[s.order[p]] == identity && s.rr < |s.order|
  }

  lemma {:induction false} ReachedFrom(s: State, k: nat, serviced: nat, config: Config, p: nat, identity: nat)
    requires IsAt(s, p, identity) && ServiceableAt(s, identity) && NamesDiffer(s) && OrderListsNames(s)
    requires k <= Distance(p, s.rr, |s.order|)
    requires serviced + (Distance(p, s.rr, |s.order|) - k) < config.budget
    ensures identity in ServedFrom(s, k, serviced, config)
    decreases |s.order| - k
  {
    var d := Distance(p, s.rr, |s.order|);
    TurnAt(s, k, p);
    if k < d {
      var s1 := ServicedAt(s, k, config);
      assert s.order[Turn(s, k)] != s.order[p];
      assert s1.sinks[identity] == s.sinks[identity];
      ReachedFrom(s1, k + 1, if IsServicedAt(s, k) then serviced + 1 else serviced, config, p, identity);
    }
  }

  // ----- over the events of a wait -----

  /** No sink comes or goes and nobody stops the frames. */
  predicate KeepsSinks(events: seq<Event>) {
    forall k :: 0 <= k < |events| ==>
      events[k].EnqueueData? || events[k].EnqueueAction? || events[k].BatchReports? || events[k].Frame?
  }

  function Frames(events: seq<Event>): nat {
    if events == [] then 0
    else Frames(events[..|events| - 1]) + if events[|events| - 1].Frame? then 1 else 0
  }

  /** The event at k is a frame in which the sink is serviced. */
  predicate ServedIn(s: State, events: seq<Event>, k: nat, config: Config, identity: nat) {
    k < |events| && events[k] == Frame &&
    var before := Run(s, events[..k], config);
    var after := Step(before, Frame, config);
    && before.isArmed && ServiceableAt(before, identity) && identity in after.sinks
    && after.sinks[identity] == Serviced(before.sinks[identity], config.maxChunkBytes)
  }

  /** The sink still waits, one place nearer for every frame gone by. */
  ghost predicate StillWaiting(s: State, s': State, frames: nat, config: Config, p: nat, identity: nat) {
    && Consistent(s') && !s'.isStopped
    && s'.order == s.order && s'.names == s.names
    && IsAt(s, p, identity) && IsAt(s', p, identity) && ServiceableAt(s', identity)
    && var n := |s.order|;
       && Distance(p, s'.rr, n) + frames == Distance(p, s.rr, n)
       && (frames > 0 ==> Distance(p, s'.rr, n) + 1 >= config.budget)
  }

  /** Everything but the sinks, the frame and the fresh identities is as it was. */
  predicate SameRound(s: State, s': State) {
    s'.order == s.order && s'.names == s.names && s'.rr == s.rr && (s'.isStopped ==> s.isStopped)
  }

  lemma {:induction false} EnqueueKeepsWaiting(s: State, id: string, entry: Entry, identity: nat)
    requires ServiceableAt(s, identity)
    ensures ServiceableAt(Enqueue(s, id, entry), identity) && SameRound(s, Enqueue(s, id, entry))
  {
  }

  lemma {:induction false} ReportKeepsWaiting(s: State, reporter: nat, identity: nat)
    requires ServiceableAt(s, identity)
    ensures ServiceableAt(Report(s, reporter), identity) && SameRound(s, Report(s, reporter))
  {
  }

  lemma {:induction false} WaitingGoesOn(
    s: State, s': State, frames: nat, event: Event, config: Config, p: nat, identity: nat)
    requires StillWaiting(s, s', frames, config, p, identity)
    requires event.EnqueueData? || event.EnqueueAction? || event.BatchReports?
    ensures StillWaiting(s, Step(s', event, config), frames, config, p, identity)
  {
    StepKeepsConsistent(s', event, config);
    if event.EnqueueData? {
      EnqueueKeepsWaiting(s', event.id, Data(event.text), identity);
    } else if event.EnqueueAction? {
      EnqueueKeepsWaiting(s', event.id, Action(event.action), identity);
    } else {
      ReportKeepsWaiting(s', event.identity, identity);
    }
  }

  lemma {:induction false} UnservedIsFar(s: State, config: Config, p: nat, identity: nat)
    requires Consistent(s) && IsAt(s, p, identity) && ServiceableAt(s, identity)
    requires identity !in ServedFrom(s.(isArmed := false), 0, 0, config)
    ensures Distance(p, s.rr, |s.order|) >= config.budget
  {
    if Distance(p, s.rr, |s.order|) < config.budget {
      ReachedFrom(s.(isArmed := false), 0, 0, config, p, identity);
    }
  }

  lemma {:induction false} NearerByOne(p: nat, rr: nat, n: nat)
    requires p < n && rr < n && Distance(p, rr, n) > 0
    ensures (rr + 1) % n < n && Distance(p, (rr + 1) % n, n) == Distance(p, rr, n) - 1
  {
    Wrapped(rr + 1, n);
  }

  lemma {:induction false} UnservedKeepsWaiting(s: State, config: Config, identity: nat)
    requires s.isArmed && ServiceableAt(s, identity)
    requires identity !in ServedFrom(s.(isArmed := false), 0, 0, config)
    ensures ServiceableAt(Tick(s, config), identity)
  {
    TickServes(s, config);
  }

  lemma {:induction false} FrameNears(s: State, s': State, frames: nat, config: Config, p: nat, identity: nat)
    requires StillWaiting(s, s', frames, config, p, identity) && config.budget >= 1 && s'.isArmed
    requires identity !in ServedFrom(s'.(isArmed := false), 0, 0, config)
    ensures StillWaiting(s, Tick(s', config), frames + 1, config, p, identity)
  {
    UnservedIsFar(s', config, p, identity);
    NearerByOne(p, s'.rr, |s'.order|);
    TickMovesOn(s', config);
    TickKeepsConsistent(s', config);
    UnservedKeepsWaiting(s', config, identity);
  }

  lemma {:induction false} FrameServesOrNears(s: State, s': State, frames: nat, config: Config, p: nat, identity: nat)
    requires StillWaiting(s, s', frames, config, p, identity) && config.budget >= 1
    ensures s'.isArmed
    ensures
      var after := Tick(s', config);
      || (identity in after.sinks && after.sinks[identity] == Serviced(s'.sinks[identity], config.maxChunkBytes))
      || StillWaiting(s, after, frames + 1, config, p, identity)
  {
    WaitingIsArmed(s', p, identity);
    if identity in ServedFrom(s'.(isArmed := false), 0, 0, config) {
      TickServes(s', config);
    } else {
      FrameNears(s, s', frames, config, p, identity);
    }
  }

  lemma {:induction false} WaitingIsArmed(s: State, p: nat, identity: nat)
    requires Consistent(s) && !s.isStopped && IsAt(s, p, identity) && ServiceableAt(s, identity)
    ensures s.isArmed
  {
    assert s.names[s.order[p]] == identity;
    assert AnyServiceable(s);
  }

  lemma {:induction false} TickMovesOn(s: State, config: Config)
    requires s.isArmed && s.order != []
    ensures
      var s' := Tick(s, config);
      && s'.order == s.order && s'.names == s.names && s'.rr == (s.rr + 1) % |s.order|
      && (s.isStopped || !s'.isStopped)
  {
    TickFromKeepsOrder(s.(isArmed := false), 0, 0, config);
    assert Tick(s, config).isStopped ==> s.isStopped;
  }

  ghost predicate WasServed(s: State, events: seq<Event>, config: Config, identity: nat) {
    exists k: nat :: ServedIn(s, events, k, config, identity)
  }

  lemma {:induction false} ServedEarlier(s: State, events: seq<Event>, config: Config, identity: nat)
    requires events != [] && WasServed(s, events[..|events| - 1], config, identity)
    ensures WasServed(s, events, config, identity)
  {
    var front := events[..|events| - 1];
    var k: nat :| ServedIn(s, front, k, config, identity);
    assert front[..k] == events[..k];
    assert ServedIn(s, events, k, config, identity);
  }

  lemma {:induction false} ServedOrWaiting(s: State, events: seq<Event>, config: Config, p: nat, identity: nat)
    requires StillWaiting(s, s, 0, config, p, identity) && KeepsSinks(events) && config.budget >= 1
    ensures || WasServed(s, events, config, identity)
            || StillWaiting(s, Run(s, events, config), Frames(events), config, p, identity)
    decreases |events|
  {
    if events != [] {
      var last := |events| - 1;
      var front := events[..last];
      ServedOrWaiting(s, front, config, p, identity);
      if WasServed(s, front, config, identity) {
        ServedEarlier(s, events, config, identity);
      } else {
        var s' := Run(s, front, config);
        assert Run(s, events, config) == Step(s', events[last], config);
        if events[last].Frame? {
          FrameServesOrNears(s, s', Frames(front), config, p, identity);
          if !StillWaiting(s, Tick(s', config), Frames(front) + 1, config, p, identity) {
            assert ServedIn(s, events, last, config, identity);
          }
        } else {
          WaitingGoesOn(s, s', Frames(front), events[last], config, p, identity);
        }
      }
    }
  }

  function Bound(n: nat, budget: nat): nat {
    if n <= budget then 1 else n - budget + 1
  }

  /** Bounded wait: while the set of sinks stays the same and frames are not stopped, a serviceable sink
      is serviced within max(1, n - budget + 1) frames, whatever else is enqueued or reported. */
  lemma {:induction false} BoundedWait(s: State, events: seq<Event>, config: Config, id: string)
    requires Consistent(s) && !s.isStopped && config.budget >= 1
    requires id in s.names && Serviceable(s.sinks[s.names[id]])
    requires KeepsSinks(events) && Frames(events) >= Bound(|s.order|, config.budget)
    ensures exists k: nat :: ServedIn(s, events, k, config, s.names[id])
  {
    var p :| 0 <= p < |s.order| && s.order[p] == id;
    var identity := s.names[id];
    ServedOrWaiting(s, events, config, p, identity);
    assert WasServed(s, events, config, identity);
  }
}
