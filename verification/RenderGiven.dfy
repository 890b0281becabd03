/**
 What callers gave to each registered terminal, read off the calls alone, and what became of it: all of it
 has come out or is queued, and what is queued comes out.
 */
module RenderGiven {
  import opened RenderScheduler
  import opened RenderConservation
  import opened RenderRuns
  import opened RenderFairness
  import opened Wrappers

  // ----- registrations and what was given to them, from the calls alone -----

  /** Which registration a name stands for after the calls; registrations are counted from 0. */
  function Holder(events: seq<Event>, id: string): Option<nat> {
    if events == [] then None
    else
      var front, last := events[..|events| - 1], events[|events| - 1];
      if last == RegisterSink(id) && Holder(front, id).None? then Some(Registrations(front))
      else if last == UnregisterSink(id) then None
      else Holder(front, id)
  }

  ghost predicate IsHeld(events: seq<Event>, identity: nat) {
    exists id :: Holder(events, id) == Some(identity)
  }

  function Registrations(events: seq<Event>): nat {
    if events == [] then 0
    else
      var front, last := events[..|events| - 1], events[|events| - 1];
      Registrations(front) + if last.RegisterSink? && Holder(front, last.id).None? then 1 else 0
  }

  /** The data that is not empty, and the actions, sent to a name while the registration held it. */
  function Given(events: seq<Event>, identity: nat): seq<Entry> {
    if events == [] then []
    else
      var front, last := events[..|events| - 1], events[|events| - 1];
      match last
      case EnqueueData(id, text) =>
        if Holder(front, id) == Some(identity) && text != "" then Given(front, identity) + [Data(text)]
        else Given(front, identity)
      case EnqueueAction(id, action) =>
        if Holder(front, id) == Some(identity) then Given(front, identity) + [Action(action)]
        else Given(front, identity)
      case _ => Given(front, identity)
  }

  // ----- the scheduler keeps these books -----

  predicate HoldsName(s: State, id: string, holder: Option<nat>) {
    if id in s.names then holder == Some(s.names[id]) else holder.None?
  }

  predicate IsNamed(s: State, identity: nat) {
    exists id :: id in s.names && s.names[id] == identity
  }

  predicate HasGiven(s: State, identity: nat, count: nat, given: seq<Entry>) {
    && (identity in s.sinks <==> identity < count)
    && (identity in s.sinks ==>
          && s.sinks[identity].enqueued == given
          && (s.sinks[identity].live <==> IsNamed(s, identity)))
    && (identity !in s.sinks ==> given == [])
  }

  ghost predicate KeepsBooks(s: State, events: seq<Event>) {
    && s.identities == Registrations(events)
    && (forall id :: HoldsName(s, id, Holder(events, id)))
    && (forall identity: nat :: HasGiven(s, identity, Registrations(events), Given(events, identity)))
  }

  /** Only given entries and the life of sinks matter to the books. */
  lemma {:induction false} SameBooks(s: State, s': State, identity: nat, count: nat, given: seq<Entry>)
    requires HasGiven(s, identity, count, given)
    requires s'.names == s.names && s'.sinks.Keys == s.sinks.Keys
    requires identity in s.sinks ==>
               s'.sinks[identity].enqueued == s.sinks[identity].enqueued
               && s'.sinks[identity].live == s.sinks[identity].live
    ensures HasGiven(s', identity, count, given)
  {
    assert IsNamed(s', identity) <==> IsNamed(s, identity);
  }

  predicate SameGiven(s: State, s': State) {
    && s'.names == s.names && s'.identities == s.identities && s'.sinks.Keys == s.sinks.Keys
    && forall i :: i in s.sinks ==> s'.sinks[i].enqueued == s.sinks[i].enqueued && s'.sinks[i].live == s.sinks[i].live
  }

  lemma {:induction false} TickGivesNothing(s: State, config: Config)
    ensures SameGiven(s, Tick(s, config))
  {
    if s.isArmed {
      TickFromKeepsOrder(s.(isArmed := false), 0, 0, config);
      TickServes(s, config);
    }
  }

  lemma {:induction false} ReportGivesNothing(s: State, identity: nat)
    ensures SameGiven(s, Report(s, identity))
  {
  }

  lemma {:induction false} RegisterKeepsBooks(events: seq<Event>, id: string, config: Config)
    requires events != [] && events[|events| - 1] == RegisterSink(id)
    requires
      var front := events[..|events| - 1];
      Consistent(Run(NEW_STATE, front, config)) && KeepsBooks(Run(NEW_STATE, front, config), front)
    ensures KeepsBooks(Run(NEW_STATE, events, config), events)
  {
    var front := events[..|events| - 1];
    var s := Run(NEW_STATE, front, config);
    var s' := Register(s, id);
    assert HoldsName(s, id, Holder(front, id));
    forall other
      ensures HoldsName(s', other, Holder(events, other))
    {
      assert HoldsName(s, other, Holder(front, other));
    }
    forall identity: nat
      ensures HasGiven(s', identity, Registrations(events), Given(events, identity))
    {
      assert HasGiven(s, identity, Registrations(front), Given(front, identity));
      if id in s.names {
        SameBooks(s, s', identity, Registrations(front), Given(front, identity));
      } else {
        NamedAfterRegister(s, id, identity);
      }
    }
  }

  lemma {:induction false} NamedAfterRegister(s: State, id: string, identity: nat)
    requires id !in s.names
    ensures IsNamed(Register(s, id), identity) <==> IsNamed(s, identity) || identity == s.identities
  {
    var s' := Register(s, id);
    if IsNamed(s, identity) {
      var name :| name in s.names && s.names[name] == identity;
      assert name in s'.names && s'.names[name] == identity;
    }
    assert id in s'.names && s'.names[id] == s.identities;
  }

  lemma {:induction false} NamedAfterUnregister(s: State, id: string, identity: nat)
    requires NamesLead(s) && NamesDiffer(s) && id in s.names
    ensures IsNamed(Unregister(s, id), identity) <==> IsNamed(s, identity) && identity != s.names[id]
  {
    var s' := Unregister(s, id);
    if IsNamed(s, identity) && identity != s.names[id] {
      var name :| name in s.names && s.names[name] == identity;
      assert name in s'.names && s'.names[name] == identity;
    }
  }

  lemma {:induction false} UnregisterKeepsBooks(events: seq<Event>, id: string, config: Config)
    requires events != [] && events[|events| - 1] == UnregisterSink(id)
    requires
      var front := events[..|events| - 1];
      Consistent(Run(NEW_STATE, front, config)) && KeepsBooks(Run(NEW_STATE, front, config), front)
    ensures KeepsBooks(Run(NEW_STATE, events, config), events)
  {
    var front := events[..|events| - 1];
    var s := Run(NEW_STATE, front, config);
    var s' := Unregister(s, id);
    forall other
      ensures HoldsName(s', other, Holder(events, other))
    {
      assert HoldsName(s, other, Holder(front, other));
    }
    forall identity: nat
      ensures HasGiven(s', identity, Registrations(events), Given(events, identity))
    {
      assert HasGiven(s, identity, Registrations(front), Given(front, identity));
      if id in s.names {
        NamedAfterUnregister(s, id, identity);
      }
    }
  }

  lemma {:induction false} EntryKeepsBooks(events: seq<Event>, id: string, entry: Entry, config: Config)
    requires events != []
    requires
      var last := events[|events| - 1];
      if entry.Data? then last == EnqueueData(id, entry.text) else last == EnqueueAction(id, entry.id)
    requires
      var front := events[..|events| - 1];
      Consistent(Run(NEW_STATE, front, config)) && KeepsBooks(Run(NEW_STATE, front, config), front)
    ensures KeepsBooks(Run(NEW_STATE, events, config), events)
  {
    var front := events[..|events| - 1];
    var s := Run(NEW_STATE, front, config);
    var s' := Enqueue(s, id, entry);
    assert HoldsName(s, id, Holder(front, id));
    forall other
      ensures HoldsName(s', other, Holder(events, other))
    {
      assert HoldsName(s, other, Holder(front, other));
    }
    forall identity: nat
      ensures HasGiven(s', identity, Registrations(events), Given(events, identity))
    {
      assert HasGiven(s, identity, Registrations(front), Given(front, identity));
      assert IsNamed(s', identity) <==> IsNamed(s, identity);
    }
  }

  lemma {:induction false} OthersKeepBooks(events: seq<Event>, config: Config)
    requires events != []
    requires
      var last := events[|events| - 1];
      last.BatchReports? || last.Frame? || last.StopFrames?
    requires
      var front := events[..|events| - 1];
      Consistent(Run(NEW_STATE, front, config)) && KeepsBooks(Run(NEW_STATE, front, config), front)
    ensures KeepsBooks(Run(NEW_STATE, events, config), events)
  {
    var front, last := events[..|events| - 1], events[|events| - 1];
    var s := Run(NEW_STATE, front, config);
    match last {
      case BatchReports(identity) => ReportGivesNothing(s, identity);
      case Frame => TickGivesNothing(s, config);
      case _ =>
    }
    BooksStay(s, Step(s, last, config), front, events);
  }

  lemma {:induction false} BooksStay(s: State, s': State, front: seq<Event>, events: seq<Event>)
    requires KeepsBooks(s, front) && SameGiven(s, s')
    requires Registrations(events) == Registrations(front)
    requires forall id :: Holder(events, id) == Holder(front, id)
    requires forall identity :: Given(events, identity) == Given(front, identity)
    ensures KeepsBooks(s', events)
  {
    forall id
      ensures HoldsName(s', id, Holder(events, id))
    {
      assert HoldsName(s, id, Holder(front, id));
    }
    forall identity: nat
      ensures HasGiven(s', identity, Registrations(events), Given(events, identity))
    {
      SameBooks(s, s', identity, Registrations(front), Given(front, identity));
    }
  }

  lemma {:induction false} RunKeepsBooks(events: seq<Event>, config: Config)
    ensures KeepsBooks(Run(NEW_STATE, events, config), events)
  {
    if events != [] {
      var front := events[..|events| - 1];
      RunKeepsBooks(front, config);
      RunKeepsConsistent(front, config);
      match events[|events| - 1]
      case RegisterSink(id) => RegisterKeepsBooks(events, id, config);
      case UnregisterSink(id) => UnregisterKeepsBooks(events, id, config);
      case EnqueueData(id, text) => EntryKeepsBooks(events, id, Data(text), config);
      case EnqueueAction(id, action) => EntryKeepsBooks(events, id, Action(action), config);
      case _ => OthersKeepBooks(events, config);
    }
  }

  /** Over every run, for every registration: what came out followed by what is queued is what was given to
      it, in order, and it lives as long as a name stands for it. */
  lemma {:induction false} WhatWasGivenIsKept(events: seq<Event>, config: Config, identity: nat)
    requires identity < Registrations(events)
    ensures
      var s := Run(NEW_STATE, events, config);
      && identity in s.sinks
      && Atoms(Given(events, identity)) == AtomsOut(s.sinks[identity].outs) + Atoms(s.sinks[identity].queue)
      && (s.sinks[identity].live <==> IsHeld(events, identity))
  {
    RunKeepsBooks(events, config);
    RunKeepsOrdered(events, config);
    var s := Run(NEW_STATE, events, config);
    assert HasGiven(s, identity, Registrations(events), Given(events, identity));
    if IsNamed(s, identity) {
      var id :| id in s.names && s.names[id] == identity;
      assert HoldsName(s, id, Holder(events, id));
    }
    if IsHeld(events, identity) {
      var id :| Holder(events, id) == Some(identity);
      assert HoldsName(s, id, Holder(events, id));
      assert id in s.names && s.names[id] == identity;
      assert IsNamed(s, identity);
    }
  }

  /** When an action runs, exactly what was given before it has come out, every earlier batch has
      reported, and it was given that action. */
  lemma {:induction false} ActionWaitsForWhatWasGiven(events: seq<Event>, config: Config, identity: nat, k: nat)
    returns (m: nat)
    requires
      var s := Run(NEW_STATE, events, config);
      identity in s.sinks && k < |s.sinks[identity].outs| && s.sinks[identity].outs[k].Ran?
    ensures
      var outs, given := Run(NEW_STATE, events, config).sinks[identity].outs, Given(events, identity);
      && m < |given| && given[m] == Action(outs[k].id) && AtomsOut(outs[..k]) == Atoms(given[..m])
      && forall j: nat :: j < k && outs[j].Batch? ==> ReportedAfter(outs[..k], j)
  {
    RunKeepsBooks(events, config);
    RunKeepsOrdered(events, config);
    var s := Run(NEW_STATE, events, config);
    assert HasGiven(s, identity, Registrations(events), Given(events, identity));
    m := ActionsAreBarriers(s.sinks[identity], config.maxChunkBytes, k);
  }

  /** An entry for a registered name is queued behind the others, whatever is in flight, and a frame will come. */
  predicate TakesEntry(s: State, id: string, entry: Entry, after: State) {
    id in s.names && entry != Data("") ==>
      var i := s.names[id];
      && i in s.sinks && i in after.sinks && after.isArmed
      && after.sinks[i].queue == s.sinks[i].queue + [entry]
      && after.sinks[i].enqueued == s.sinks[i].enqueued + [entry]
  }

  lemma {:induction false} EntryIsTaken(s: State, id: string, entry: Entry)
    requires NamesLead(s)
    ensures TakesEntry(s, id, entry, Enqueue(s, id, entry))
  {
  }

  // ----- what is queued comes out -----

  /** A batch that reports is heard: the sink is free again, and if it has more a frame is armed for it. */
  lemma {:induction false} ReportIsHeard(events: seq<Event>, config: Config, id: string)
    requires
      var s := Run(NEW_STATE, events, config);
      id in s.names && s.names[id] in s.sinks && s.sinks[s.names[id]].inFlight
    ensures
      var s := Run(NEW_STATE, events, config);
      var i := s.names[id];
      var s' := Step(s, BatchReports(i), config);
      && i in s'.sinks && !s'.sinks[i].inFlight
      && s'.sinks[i].outs == s.sinks[i].outs + [Reported] && s'.sinks[i].queue == s.sinks[i].queue
      && (s.sinks[i].queue != [] ==> Serviceable(s'.sinks[i]) && s'.isArmed)
  {
    RunKeepsConsistent(events, config);
  }

  /** Stopping the frames lets none come, and what is given, registered and reported stays as it is, until
      something is enqueued or a batch reports with more to come. */
  lemma {:induction false} StoppedIsStill(s: State, config: Config)
    ensures
      var s' := Step(s, StopFrames, config);
      !s'.isArmed && s' == s.(isArmed := false, isStopped := s'.isStopped) && Step(s', Frame, config) == s'
  {
  }

  /** What is queued for a registered sink waits for a frame or for the sink's open batch, and for nothing
      else. */
  lemma {:induction false} QueuedIsServiceable(s: State, config: Config, id: string)
    requires Consistent(s) && AllOrdered(s, config.maxChunkBytes)
    requires id in s.names && s.sinks[s.names[id]].queue != []
    ensures Serviceable(s.sinks[s.names[id]]) || s.sinks[s.names[id]].inFlight
  {
    assert Ordered(s.sinks[s.names[id]], config.maxChunkBytes);
  }

  /** A service takes as much as fits: what it leaves starts with an action behind text, or with a text that
      would exceed the cap. */
  lemma {:induction false} ServiceIsFull(queue: seq<Entry>, consumed: nat, maxChunk: nat)
    requires consumed <= maxChunk
    ensures
      var drawn := Draw(queue, consumed, maxChunk);
      drawn.left != [] ==>
        match drawn.left[0]
        case Action(_) => consumed + |Flat(drawn.taken)| > 0
        case Data(text) =>
          consumed + |Flat(drawn.taken)| + |text| > maxChunk && (maxChunk > 0 ==> consumed + |Flat(drawn.taken)| > 0)
    decreases |queue|
  {
    if queue != [] {
      match queue[0]
      case Action(_) =>
        if consumed == 0 {
          ServiceIsFull(queue[1..], 0, maxChunk);
        }
      case Data(text) =>
        if consumed + |text| <= maxChunk {
          var rest := Draw(queue[1..], consumed + |text|, maxChunk);
          ServiceIsFull(queue[1..], consumed + |text|, maxChunk);
          assert ([text] + rest.taken)[1..] == rest.taken;
        } else if consumed == 0 && text != "" {
          assert Flat([text[..maxChunk]]) == text[..maxChunk] + Flat([]);
        }
    }
  }

  function Weight(s: State, identity: nat): nat {
    if identity in s.sinks then |Atoms(s.sinks[identity].queue)| else 0
  }

  lemma {:induction false} SomeAtoms(queue: seq<Entry>)
    requires queue != [] && NoEmptyData(queue)
    ensures |Atoms(queue)| > 0
  {
    if queue[0].Data? {
      assert |Letters(queue[0].text)| > 0;
    }
  }

  lemma {:induction false} ManyLetters(text: string)
    ensures |Letters(text)| == |text|
  {
    if text != "" {
      ManyLetters(text[1..]);
    }
  }

  lemma {:induction false} ServiceShrinks(sink: Sink, maxChunk: nat)
    requires Serviceable(sink) && NoEmptyData(sink.queue) && maxChunk >= 1
    ensures |Atoms(Serviced(sink, maxChunk).queue)| < |Atoms(sink.queue)|
  {
    var drawn := Draw(sink.queue, 0, maxChunk);
    DrawConserves(sink.queue, 0, maxChunk);
    ServiceIsFull(sink.queue, 0, maxChunk);
    ManyLetters(Flat(drawn.taken));
    SomeAtoms(sink.queue);
  }

  /** The registered sink goes on with no more queued than before. */
  ghost predicate GoesOn(s: State, s': State, config: Config, id: string) {
    && Consistent(s') && AllOrdered(s', config.maxChunkBytes) && !s'.isStopped
    && s'.names == s.names && s'.order == s.order && id in s'.names
    && var i := s'.names[id];
       i in s.sinks && s'.sinks[i].enqueued == s.sinks[i].enqueued && Weight(s', i) <= Weight(s, i)
  }

  predicate GivesTo(event: Event, id: string) {
    (event.EnqueueData? || event.EnqueueAction?) && event.id == id
  }

  lemma {:induction false} FrameShrinks(s: State, config: Config, identity: nat)
    requires AllOrdered(s, config.maxChunkBytes) && config.maxChunkBytes >= 1 && identity in s.sinks
    ensures Weight(Tick(s, config), identity) <= Weight(s, identity)
  {
    if s.isArmed {
      TickServes(s, config);
      if identity in ServedFrom(s.(isArmed := false), 0, 0, config) {
        assert Ordered(s.sinks[identity], config.maxChunkBytes);
        ServiceShrinks(s.sinks[identity], config.maxChunkBytes);
      }
    }
  }

  lemma {:induction false} TickKeepsOrder(s: State, config: Config)
    ensures Tick(s, config).order == s.order && (Tick(s, config).isStopped ==> s.isStopped)
  {
    if s.isArmed {
      TickFromKeepsOrder(s.(isArmed := false), 0, 0, config);
    }
  }

  /** What an event does to the names and to one sink, when it gives that sink nothing. */
  predicate PassesBy(s: State, s': State, id: string) {
    && s'.order == s.order && s'.names == s.names && (s'.isStopped ==> s.isStopped)
    && (id in s.names && s.names[id] in s.sinks ==>
          var i := s.names[id];
          i in s'.sinks && s'.sinks[i].enqueued == s.sinks[i].enqueued && Weight(s', i) <= Weight(s, i))
  }

  lemma {:induction false} EntryPassesBy(s: State, other: string, entry: Entry, id: string)
    requires NamesDiffer(s) && id in s.names && other != id
    ensures PassesBy(s, Enqueue(s, other, entry), id)
  {
  }

  lemma {:induction false} ReportPassesBy(s: State, reporter: nat, id: string)
    ensures PassesBy(s, Report(s, reporter), id)
  {
  }

  lemma {:induction false} FramePassesBy(s: State, config: Config, id: string)
    requires AllOrdered(s, config.maxChunkBytes) && config.maxChunkBytes >= 1
    ensures PassesBy(s, Tick(s, config), id)
  {
    TickKeepsOrder(s, config);
    TickGivesNothing(s, config);
    if id in s.names && s.names[id] in s.sinks {
      FrameShrinks(s, config, s.names[id]);
    }
  }

  lemma {:induction false} EventPassesBy(s: State, event: Event, config: Config, id: string)
    requires GoesOn(s, s, config, id) && KeepsSinks([event]) && !GivesTo(event, id) && config.maxChunkBytes >= 1
    ensures PassesBy(s, Step(s, event, config), id)
  {
    assert [event][0] == event;
    match event
    case Frame => FramePassesBy(s, config, id);
    case BatchReports(identity) => ReportPassesBy(s, identity, id);
    case EnqueueData(other, text) => EntryPassesBy(s, other, Data(text), id);
    case EnqueueAction(other, action) => EntryPassesBy(s, other, Action(action), id);
  }

  lemma {:induction false} StepGoesOn(s: State, event: Event, config: Config, id: string)
    requires GoesOn(s, s, config, id) && KeepsSinks([event]) && !GivesTo(event, id) && config.maxChunkBytes >= 1
    ensures GoesOn(s, Step(s, event, config), config, id)
  {
    StepKeepsConsistent(s, event, config);
    StepKeepsOrdered(s, event, config);
    EventPassesBy(s, event, config, id);
  }

  ghost predicate LeavesAlone(events: seq<Event>, id: string) {
    KeepsSinks(events) && forall k :: 0 <= k < |events| ==> !GivesTo(events[k], id)
  }

  lemma {:induction false} RunGoesOn(s: State, events: seq<Event>, config: Config, id: string)
    requires GoesOn(s, s, config, id) && LeavesAlone(events, id) && config.maxChunkBytes >= 1
    ensures GoesOn(s, Run(s, events, config), config, id)
  {
    if events != [] {
      var n := |events| - 1;
      RunGoesOn(s, events[..n], config, id);
      StepGoesOn(Run(s, events[..n], config), events[n], config, id);
    }
  }

  lemma {:induction false} RunInTwo(s: State, events: seq<Event>, k: nat, config: Config)
    requires k <= |events|
    ensures Run(s, events, config) == Run(Run(s, events[..k], config), events[k..], config)
    decreases |events|
  {
    if k == |events| {
      assert events[..k] == events;
    } else {
      var n := |events| - 1;
      var front, back := events[..n], events[k..];
      RunInTwo(s, front, k, config);
      assert front[..k] == events[..k];
      assert back != [] && back[..|back| - 1] == front[k..] && back[|back| - 1] == events[n];
    }
  }

  /** Frames enough for the sink to be serviced, whatever is given to other sinks and reported meanwhile,
      and at the end the report of its batch, if it has one open. */
  ghost predicate IsRound(events: seq<Event>, id: string, identity: nat, frames: nat) {
    && events != [] && LeavesAlone(events, id) && events[|events| - 1] == BatchReports(identity)
    && Frames(events[..|events| - 1]) >= frames
  }

  lemma {:induction false} ServedWeighsLess(before: State, after: State, config: Config, identity: nat)
    requires AllOrdered(before, config.maxChunkBytes) && ServiceableAt(before, identity) && config.maxChunkBytes >= 1
    requires identity in after.sinks && after.sinks[identity] == Serviced(before.sinks[identity], config.maxChunkBytes)
    ensures Weight(after, identity) < Weight(before, identity)
  {
    assert Ordered(before.sinks[identity], config.maxChunkBytes);
    ServiceShrinks(before.sinks[identity], config.maxChunkBytes);
  }

  lemma {:induction false} ServedThenOn(
    s: State, before: State, back: seq<Event>, config: Config, id: string)
    requires id in s.names && GoesOn(s, before, config, id) && ServiceableAt(before, s.names[id])
    requires config.maxChunkBytes >= 1 && LeavesAlone(back, id)
    requires
      var after := Step(before, Frame, config);
      s.names[id] in after.sinks
      && after.sinks[s.names[id]] == Serviced(before.sinks[s.names[id]], config.maxChunkBytes)
    ensures Weight(Run(Step(before, Frame, config), back, config), s.names[id]) < Weight(s, s.names[id])
  {
    var after := Step(before, Frame, config);
    ServedWeighsLess(before, after, config, s.names[id]);
    StepGoesOn(before, Frame, config, id);
    RunGoesOn(after, back, config, id);
  }

  lemma {:induction false} LeavesAloneInParts(events: seq<Event>, id: string, k: nat)
    requires LeavesAlone(events, id) && k <= |events|
    ensures LeavesAlone(events[..k], id) && LeavesAlone(events[k..], id)
  {
    assert forall j :: 0 <= j < |events| - k ==> events[k..][j] == events[k + j];
  }

  lemma {:induction false} RunFrame(s: State, events: seq<Event>, k: nat, config: Config)
    requires k < |events| && events[k] == Frame
    ensures Run(s, events, config) == Run(Step(Run(s, events[..k], config), Frame, config), events[k + 1..], config)
  {
    RunInTwo(s, events, k + 1, config);
    assert events[..k + 1][..k] == events[..k];
  }

  lemma {:induction false} ServedShrinks(s: State, events: seq<Event>, config: Config, id: string, k: nat)
    requires GoesOn(s, s, config, id) && LeavesAlone(events, id) && config.maxChunkBytes >= 1
    requires ServedIn(s, events, k, config, s.names[id])
    ensures Weight(Run(s, events, config), s.names[id]) < Weight(s, s.names[id])
  {
    LeavesAloneInParts(events, id, k);
    LeavesAloneInParts(events, id, k + 1);
    RunFrame(s, events, k, config);
    RunGoesOn(s, events[..k], config, id);
    ServedThenOn(s, Run(s, events[..k], config), events[k + 1..], config, id);
  }

  lemma {:induction false} FramesShrink(s: State, events: seq<Event>, config: Config, id: string)
    requires GoesOn(s, s, config, id) && config.maxChunkBytes >= 1 && config.budget >= 1 && LeavesAlone(events, id)
    requires Frames(events) >= Bound(|s.order|, config.budget)
    requires !s.sinks[s.names[id]].inFlight && s.sinks[s.names[id]].queue != []
    ensures Weight(Run(s, events, config), s.names[id]) < Weight(s, s.names[id])
  {
    QueuedIsServiceable(s, config, id);
    BoundedWait(s, events, config, id);
    var k: nat :| ServedIn(s, events, k, config, s.names[id]);
    ServedShrinks(s, events, config, id, k);
  }

  lemma {:induction false} ReportFrees(s: State, before: State, config: Config, id: string)
    requires id in s.names && GoesOn(s, before, config, id) && config.maxChunkBytes >= 1
    ensures
      var i, after := s.names[id], Step(before, BatchReports(s.names[id]), config);
      GoesOn(s, after, config, id) && !after.sinks[i].inFlight && Weight(after, i) <= Weight(before, i)
  {
    assert [BatchReports(s.names[id])][0].BatchReports?;
    StepGoesOn(before, BatchReports(s.names[id]), config, id);
  }

  /** A round leaves the sink free and, if it was free and had something queued, with less. */
  lemma {:induction false} RoundShrinks(s: State, round: seq<Event>, config: Config, id: string)
    requires GoesOn(s, s, config, id) && config.maxChunkBytes >= 1 && config.budget >= 1
    requires IsRound(round, id, s.names[id], Bound(|s.order|, config.budget))
    ensures
      var i, s' := s.names[id], Run(s, round, config);
      && GoesOn(s, s', config, id) && !s'.sinks[i].inFlight
      && (!s.sinks[i].inFlight && s.sinks[i].queue != [] ==> Weight(s', i) < Weight(s, i))
  {
    var i, front := s.names[id], round[..|round| - 1];
    LeavesAloneInParts(round, id, |round| - 1);
    RunGoesOn(s, front, config, id);
    ReportFrees(s, Run(s, front, config), config, id);
    if !s.sinks[i].inFlight && s.sinks[i].queue != [] {
      FramesShrink(s, front, config, id);
    }
  }

  function Flattened(rounds: seq<seq<Event>>): seq<Event> {
    if rounds == [] then [] else rounds[0] + Flattened(rounds[1..])
  }

  lemma {:induction false} RoundThenRest(s: State, rounds: seq<seq<Event>>, config: Config)
    requires rounds != []
    ensures Run(s, Flattened(rounds), config) == Run(Run(s, rounds[0], config), Flattened(rounds[1..]), config)
  {
    var all := Flattened(rounds);
    RunInTwo(s, all, |rounds[0]|, config);
    assert all[..|rounds[0]|] == rounds[0] && all[|rounds[0]|..] == Flattened(rounds[1..]);
  }

  lemma {:induction false} RoundsEmptyTheQueue(s: State, rounds: seq<seq<Event>>, config: Config, id: string)
    requires GoesOn(s, s, config, id) && config.maxChunkBytes >= 1 && config.budget >= 1
    requires forall r :: r in rounds ==> IsRound(r, id, s.names[id], Bound(|s.order|, config.budget))
    requires !s.sinks[s.names[id]].inFlight && |rounds| >= Weight(s, s.names[id])
    ensures GoesOn(s, Run(s, Flattened(rounds), config), config, id)
    ensures Run(s, Flattened(rounds), config).sinks[s.names[id]].queue == []
    decreases |rounds|
  {
    var i := s.names[id];
    assert Ordered(s.sinks[i], config.maxChunkBytes);
    if s.sinks[i].queue != [] {
      SomeAtoms(s.sinks[i].queue);
    }
    if rounds != [] {
      var s' := Run(s, rounds[0], config);
      RoundShrinks(s, rounds[0], config, id);
      RoundThenRest(s, rounds, config);
      if s.sinks[i].queue == [] {
        RoundsKeepEmpty(s', rounds[1..], config, id);
      } else {
        RoundsEmptyTheQueue(s', rounds[1..], config, id);
      }
    }
  }

  lemma {:induction false} RoundsKeepEmpty(s: State, rounds: seq<seq<Event>>, config: Config, id: string)
    requires GoesOn(s, s, config, id) && config.maxChunkBytes >= 1 && config.budget >= 1
    requires forall r :: r in rounds ==> IsRound(r, id, s.names[id], Bound(|s.order|, config.budget))
    requires Weight(s, s.names[id]) == 0
    ensures GoesOn(s, Run(s, Flattened(rounds), config), config, id)
    ensures Run(s, Flattened(rounds), config).sinks[s.names[id]].queue == []
    decreases |rounds|
  {
    assert Ordered(s.sinks[s.names[id]], config.maxChunkBytes);
    if s.sinks[s.names[id]].queue != [] {
      SomeAtoms(s.sinks[s.names[id]].queue);
    }
    if rounds != [] {
      RoundShrinks(s, rounds[0], config, id);
      RoundThenRest(s, rounds, config);
      RoundsKeepEmpty(Run(s, rounds[0], config), rounds[1..], config, id);
    }
  }

  /** Everything given comes out: after any run that did not end in a stop, a registered sink that is given
      nothing more has an empty queue after one round for each letter and action queued, and one for the
      batch that may be open, so that exactly what it was given has come out. */
  lemma {:induction false} EverythingComesOut(
    events: seq<Event>, rounds: seq<seq<Event>>, config: Config, id: string)
    requires config.maxChunkBytes >= 1 && config.budget >= 1 && !Run(NEW_STATE, events, config).isStopped
    requires
      var s := Run(NEW_STATE, events, config);
      && id in s.names && |rounds| > Weight(s, s.names[id])
      && forall r :: r in rounds ==> IsRound(r, id, s.names[id], Bound(|s.order|, config.budget))
    ensures
      var s := Run(NEW_STATE, events, config);
      var s' := Run(s, Flattened(rounds), config);
      s.names[id] in s'.sinks && AtomsOut(s'.sinks[s.names[id]].outs) == Atoms(Given(events, s.names[id]))
  {
    var s := Run(NEW_STATE, events, config);
    var i := s.names[id];
    RunKeepsBooks(events, config);
    RunKeepsOrdered(events, config);
    RunKeepsConsistent(events, config);
    assert HasGiven(s, i, Registrations(events), Given(events, i));
    RoundShrinks(s, rounds[0], config, id);
    RoundThenRest(s, rounds, config);
    RoundsEmptyTheQueue(Run(s, rounds[0], config), rounds[1..], config, id);
    assert Ordered(Run(s, Flattened(rounds), config).sinks[i], config.maxChunkBytes);
  }
}
