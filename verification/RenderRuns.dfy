/**
 The scheduler over whole runs: what is registered stays consistent, nothing serviceable is left
 without a frame, an unregistered sink is never heard again, every sink's output is in order, and the
 wait for a service is bounded.
 */
module RenderRuns {
  import opened RenderScheduler
  import opened RenderConservation

  // ----- consistency and the armed frame -----

  predicate Distinct(order: seq<string>) {
    forall i, j :: 0 <= i < j < |order| ==> order[i] != order[j]
  }

  predicate NamesLead(s: State) {
    forall id :: id in s.names ==> s.names[id] in s.sinks && s.sinks[s.names[id]].live
  }

  predicate NamesDiffer(s: State) {
    forall id, other :: id in s.names && other in s.names && s.names[id] == s.names[other] ==> id == other
  }

  predicate IdentitiesUsed(s: State) {
    forall i :: i in s.sinks ==> i < s.identities
  }

  ghost predicate OrderListsNames(s: State) {
    Distinct(s.order) && (forall id :: id in s.order <==> id in s.names)
  }

  /** Between events a serviceable sink has a frame coming, unless frames were stopped. */
  predicate WakeupPending(s: State) {
    AnyServiceable(s) ==> s.isArmed || s.isStopped
  }

  ghost predicate Consistent(s: State) {
    && NamesLead(s)
    && NamesDiffer(s)
    && IdentitiesUsed(s)
    && OrderListsNames(s)
    && (s.rr == 0 || s.rr < |s.order|)
    && WakeupPending(s)
  }

  predicate ServiceableAt(s: State, identity: nat) {
    identity in s.sinks && Serviceable(s.sinks[identity])
  }

  lemma {:induction false} WithoutNameIsExact(order: seq<string>, id: string)
    requires Distinct(order)
    ensures Distinct(WithoutName(order, id))
    ensures forall other :: other in WithoutName(order, id) <==> other in order && other != id
    ensures |WithoutName(order, id)| <= |order|
  {
    var index := IndexIn(order, id);
    var rest := WithoutName(order, id);
    if index != -1 {
      forall other | other in order && other != id ensures other in rest {
        var k :| 0 <= k < |order| && order[k] == other;
        assert rest[if k < index then k else k - 1] == other;
      }
      forall other | other in rest ensures other in order && other != id {
        var k :| 0 <= k < |rest| && rest[k] == other;
        assert order[if k < index then k else k + 1] == other;
      }
    }
  }

  lemma {:induction false} RegisterKeepsConsistent(s: State, id: string)
    requires Consistent(s)
    ensures Consistent(Register(s, id))
  {
    var s' := Register(s, id);
    if id in s.names {
      assert s'.sinks == s.sinks;
    } else {
      assert forall other :: other in s'.order <==> other in s'.names;
      StillPending(s, s');
    }
  }

  lemma {:induction false} StillPending(s: State, s': State)
    requires WakeupPending(s)
    requires s'.isArmed == s.isArmed && s'.isStopped == s.isStopped
    requires forall id :: id in s'.names && s'.names[id] in s'.sinks && Serviceable(s'.sinks[s'.names[id]])
               ==> id in s.names && s.names[id] in s.sinks && Serviceable(s.sinks[s.names[id]])
    ensures WakeupPending(s')
  {
  }

  lemma {:induction false} UnregisterKeepsConsistent(s: State, id: string)
    requires Consistent(s)
    ensures Consistent(Unregister(s, id))
  {
    var s' := Unregister(s, id);
    if id in s.names {
      WithoutNameIsExact(s.order, id);
      StillPending(s, s');
    }
  }

  lemma {:induction false} EnqueueKeepsConsistent(s: State, id: string, entry: Entry)
    requires Consistent(s)
    ensures Consistent(Enqueue(s, id, entry))
  {
  }

  lemma {:induction false} ReportKeepsConsistent(s: State, identity: nat)
    requires Consistent(s)
    ensures Consistent(Report(s, identity))
  {
    var s' := Report(s, identity);
    if identity in s.sinks && s.sinks[identity].live && s.sinks[identity].inFlight {
      assert NamesLead(s') && IdentitiesUsed(s');
      if s.sinks[identity].queue == [] {
        StillPending(s, s');
      }
    }
  }

  lemma {:induction false} ServicedAtKeepsNames(s: State, k: nat, config: Config)
    requires k < |s.order| && NamesLead(s) && IdentitiesUsed(s)
    ensures NamesLead(ServicedAt(s, k, config)) && IdentitiesUsed(ServicedAt(s, k, config))
  {
  }

  lemma {:induction false} TickFromKeepsNames(s: State, k: nat, serviced: nat, config: Config)
    requires k <= |s.order| && NamesLead(s) && IdentitiesUsed(s)
    ensures
      var s' := TickFrom(s, k, serviced, config);
      NamesLead(s') && IdentitiesUsed(s') && s' == s.(sinks := s'.sinks)
    decreases |s.order| - k
  {
    if k < |s.order| && serviced < config.budget {
      ServicedAtKeepsNames(s, k, config);
      var next := if IsServicedAt(s, k) then serviced + 1 else serviced;
      TickFromKeepsNames(ServicedAt(s, k, config), k + 1, next, config);
    }
  }

  lemma {:induction false} TickKeepsConsistent(s: State, config: Config)
    requires Consistent(s)
    ensures Consistent(Tick(s, config))
  {
    if s.isArmed {
      TickFromKeepsNames(s.(isArmed := false), 0, 0, config);
    }
  }

  lemma {:induction false} StepKeepsConsistent(s: State, event: Event, config: Config)
    requires Consistent(s)
    ensures Consistent(Step(s, event, config))
  {
    match event
    case RegisterSink(id) => RegisterKeepsConsistent(s, id);
    case UnregisterSink(id) => UnregisterKeepsConsistent(s, id);
    case EnqueueData(id, text) => EnqueueKeepsConsistent(s, id, Data(text));
    case EnqueueAction(id, action) => EnqueueKeepsConsistent(s, id, Action(action));
    case BatchReports(identity) => ReportKeepsConsistent(s, identity);
    case Frame => TickKeepsConsistent(s, config);
    case StopFrames =>
  }

  /** No lost wakeup, over every run: while a registered sink could be serviced a frame is armed, unless
      frames were stopped and nothing has armed one since. */
  lemma {:induction false} RunKeepsConsistent(events: seq<Event>, config: Config)
    ensures Consistent(Run(NEW_STATE, events, config))
  {
    if events != [] {
      RunKeepsConsistent(events[..|events| - 1], config);
      StepKeepsConsistent(Run(NEW_STATE, events[..|events| - 1], config), events[|events| - 1], config);
    }
  }

  // ----- order of output -----

  lemma {:induction false} StepKeepsOrdered(s: State, event: Event, config: Config)
    requires NamesLead(s) && AllOrdered(s, config.maxChunkBytes)
    ensures AllOrdered(Step(s, event, config), config.maxChunkBytes)
  {
    match event
    case RegisterSink(id) => RegisterKeepsOrdered(s, id, config.maxChunkBytes);
    case UnregisterSink(id) => UnregisterKeepsOrdered(s, id, config.maxChunkBytes);
    case EnqueueData(id, text) => EnqueueKeepsAllOrdered(s, id, Data(text), config.maxChunkBytes);
    case EnqueueAction(id, action) => EnqueueKeepsAllOrdered(s, id, Action(action), config.maxChunkBytes);
    case BatchReports(identity) => ReportKeepsOrdered(s, identity, config.maxChunkBytes);
    case Frame => TickKeepsOrdered(s, config);
    case StopFrames =>
  }

  /** Over every run, each sink ever registered has put out, in order, exactly what was enqueued for it
      and is no longer queued; actions and batches wait for the open batch; writes and batches keep
      their caps; and the dirty flag says whether anything is queued. */
  lemma {:induction false} RunKeepsOrdered(events: seq<Event>, config: Config)
    ensures AllOrdered(Run(NEW_STATE, events, config), config.maxChunkBytes)
  {
    if events != [] {
      var front := events[..|events| - 1];
      RunKeepsOrdered(front, config);
      RunKeepsConsistent(front, config);
      StepKeepsOrdered(Run(NEW_STATE, front, config), events[|events| - 1], config);
    }
  }

  // ----- actions are barriers -----

  lemma {:induction false} AlternatesPrefix(outs: seq<Out>, k: nat)
    requires Alternates(outs) && k <= |outs|
    ensures Alternates(outs[..k])
    decreases |outs|
  {
    if k == |outs| {
      assert outs[..k] == outs;
    } else {
      AlternatesPrefix(outs[..|outs| - 1], k);
      assert outs[..|outs| - 1][..k] == outs[..k];
    }
  }

  /** The batch at j has reported within these outputs. */
  predicate ReportedAfter(outs: seq<Out>, j: nat) {
    exists r: nat :: j < r < |outs| && outs[r].Reported?
  }

  lemma {:induction false} ClosedMeansReported(outs: seq<Out>, j: nat)
    requires Alternates(outs) && !IsOpen(outs) && j < |outs| && outs[j].Batch?
    ensures ReportedAfter(outs, j)
    decreases |outs|
  {
    var last := |outs| - 1;
    if outs[last].Reported? {
      assert j < last;
    } else {
      assert outs[last].Ran?;
      ClosedMeansReported(outs[..last], j);
      var r: nat :| j < r < last && outs[..last][r].Reported?;
      assert outs[r].Reported?;
    }
  }

  lemma {:induction false} LettersAreLetters(text: string, p: nat)
    requires p < |Letters(text)|
    ensures Letters(text)[p].Letter?
    decreases |text|
  {
    if p > 0 {
      LettersAreLetters(text[1..], p - 1);
    }
  }

  /** An action among the atoms comes from one entry, and the entries before that one make up exactly
      the atoms before it. */
  lemma {:induction false} ActionOwnsItsAtom(entries: seq<Entry>, p: nat) returns (m: nat)
    requires p < |Atoms(entries)| && Atoms(entries)[p].Act?
    ensures m < |entries| && entries[m] == Action(Atoms(entries)[p].id)
    ensures Atoms(entries[..m]) == Atoms(entries)[..p]
    decreases |entries|
  {
    var first := EntryAtoms(entries[0]);
    if p < |first| {
      if entries[0].Data? {
        LettersAreLetters(entries[0].text, p);
      }
      m := 0;
      assert entries[..0] == [];
    } else {
      var rest := ActionOwnsItsAtom(entries[1..], p - |first|);
      m := rest + 1;
      assert entries[..m][0] == entries[0] && entries[..m][1..] == entries[1..][..rest];
      assert Atoms(entries)[..p] == first + Atoms(entries[1..])[..p - |first|];
    }
  }

  lemma {:induction false} AtomsUpTo(outs: seq<Out>, k: nat)
    requires k < |outs|
    ensures AtomsOut(outs) == AtomsOut(outs[..k]) + OutAtoms(outs[k]) + AtomsOut(outs[k + 1..])
  {
    AtomsOutAppend(outs[..k], outs[k]);
    AtomsOutConcat(outs[..k] + [outs[k]], outs[k + 1..]);
    assert outs == outs[..k] + [outs[k]] + outs[k + 1..];
  }

  lemma {:induction false} EarlierBatchesReported(outs: seq<Out>, k: nat)
    requires Alternates(outs) && k < |outs| && outs[k].Ran?
    ensures forall j: nat :: j < k && outs[j].Batch? ==> ReportedAfter(outs[..k], j)
  {
    AlternatesPrefix(outs, k + 1);
    assert outs[..k + 1][..k] == outs[..k];
    forall j: nat | j < k && outs[j].Batch? ensures ReportedAfter(outs[..k], j) {
      ClosedMeansReported(outs[..k], j);
    }
  }

  /** When an action runs, everything enqueued before it has come out and nothing enqueued after it has,
      and every batch handed over until then has reported drained. */
  lemma {:induction false} ActionsAreBarriers(s: Sink, maxChunk: nat, k: nat) returns (m: nat)
    requires Ordered(s, maxChunk) && k < |s.outs| && s.outs[k].Ran?
    ensures m < |s.enqueued| && s.enqueued[m] == Action(s.outs[k].id)
    ensures AtomsOut(s.outs[..k]) == Atoms(s.enqueued[..m])
    ensures forall j: nat :: j < k && s.outs[j].Batch? ==> ReportedAfter(s.outs[..k], j)
  {
    AtomsUpTo(s.outs, k);
    var before := AtomsOut(s.outs[..k]);
    PlaceOfAtom(Atoms(s.enqueued), before, Act(s.outs[k].id), AtomsOut(s.outs[k + 1..]), Atoms(s.queue));
    m := ActionOwnsItsAtom(s.enqueued, |before|);
    EarlierBatchesReported(s.outs, k);
  }

  lemma {:induction false} PlaceOfAtom(
    whole: seq<Atom>, before: seq<Atom>, a: Atom, after: seq<Atom>, queued: seq<Atom>)
    requires whole == before + [a] + after + queued
    ensures |before| < |whole| && whole[|before|] == a && whole[..|before|] == before
  {
  }

  // ----- how often an action runs -----

  function ActsIn(atoms: seq<Atom>, id: nat): nat {
    if atoms == [] then 0 else (if atoms[0] == Act(id) then 1 else 0) + ActsIn(atoms[1..], id)
  }

  function TimesEnqueued(entries: seq<Entry>, id: nat): nat {
    if entries == [] then 0 else (if entries[0] == Action(id) then 1 else 0) + TimesEnqueued(entries[1..], id)
  }

  function TimesRun(outs: seq<Out>, id: nat): nat {
    if outs == [] then 0 else (if outs[0] == Ran(id) then 1 else 0) + TimesRun(outs[1..], id)
  }

  lemma {:induction false} ActsConcat(a: seq<Atom>, b: seq<Atom>, id: nat)
    ensures ActsIn(a + b, id) == ActsIn(a, id) + ActsIn(b, id)
  {
    if a == [] {
      assert a + b == b;
    } else {
      assert (a + b)[0] == a[0] && (a + b)[1..] == a[1..] + b;
      ActsConcat(a[1..], b, id);
    }
  }

  lemma {:induction false} NoActsInLetters(text: string, id: nat)
    ensures ActsIn(Letters(text), id) == 0
  {
    if text != "" {
      NoActsInLetters(text[1..], id);
      assert Letters(text)[1..] == Letters(text[1..]);
    }
  }

  lemma {:induction false} EnqueuedActs(entries: seq<Entry>, id: nat)
    ensures ActsIn(Atoms(entries), id) == TimesEnqueued(entries, id)
  {
    if entries != [] {
      EnqueuedActs(entries[1..], id);
      ActsConcat(EntryAtoms(entries[0]), Atoms(entries[1..]), id);
      if entries[0].Data? {
        NoActsInLetters(entries[0].text, id);
      }
    }
  }

  lemma {:induction false} RunActs(outs: seq<Out>, id: nat)
    ensures ActsIn(AtomsOut(outs), id) == TimesRun(outs, id)
  {
    if outs != [] {
      RunActs(outs[1..], id);
      ActsConcat(OutAtoms(outs[0]), AtomsOut(outs[1..]), id);
      if outs[0].Batch? {
        NoActsInLetters(Flat(outs[0].writes), id);
      }
    }
  }

  /** An action has run as often as it was enqueued, less the times it is still queued: an action
      enqueued once runs at most once. */
  lemma {:induction false} ActionsRunOnceEach(s: Sink, maxChunk: nat, id: nat)
    requires Ordered(s, maxChunk)
    ensures TimesRun(s.outs, id) + TimesEnqueued(s.queue, id) == TimesEnqueued(s.enqueued, id)
  {
    EnqueuedActs(s.enqueued, id);
    EnqueuedActs(s.queue, id);
    RunActs(s.outs, id);
    ActsConcat(AtomsOut(s.outs), Atoms(s.queue), id);
  }

  // ----- an unregistered sink -----

  predicate IsGone(s: State, identity: nat) {
    identity in s.sinks && !s.sinks[identity].live
  }

  lemma {:induction false} TickFromLeavesTheGone(s: State, k: nat, serviced: nat, config: Config, identity: nat)
    requires k <= |s.order| && IsGone(s, identity)
    ensures
      var s' := TickFrom(s, k, serviced, config);
      identity in s'.sinks && s'.sinks[identity] == s.sinks[identity]
    decreases |s.order| - k
  {
    if k < |s.order| && serviced < config.budget {
      TickFromLeavesTheGone(ServicedAt(s, k, config), k + 1, if IsServicedAt(s, k) then serviced + 1 else serviced,
        config, identity);
    }
  }

  lemma {:induction false} StepLeavesTheGone(s: State, event: Event, config: Config, identity: nat)
    requires Consistent(s) && IsGone(s, identity)
    ensures
      var s' := Step(s, event, config);
      IsGone(s', identity) && s'.sinks[identity] == s.sinks[identity]
  {
    if event.Frame? && s.isArmed {
      TickFromLeavesTheGone(s.(isArmed := false), 0, 0, config, identity);
    }
  }

  /** Once unregistered, a sink stays as it is whatever follows, and the drain report it may still owe
      changes nothing, even when its name has been registered again. */
  lemma {:induction false} TheGoneStayGone(s: State, events: seq<Event>, config: Config, identity: nat)
    requires Consistent(s) && IsGone(s, identity)
    ensures
      var s' := Run(s, events, config);
      && Consistent(s')
      && IsGone(s', identity) && s'.sinks[identity] == s.sinks[identity]
      && Report(s', identity) == s'
  {
    if events != [] {
      var front := events[..|events| - 1];
      TheGoneStayGone(s, front, config, identity);
      StepKeepsConsistent(Run(s, front, config), events[|events| - 1], config);
      StepLeavesTheGone(Run(s, front, config), events[|events| - 1], config, identity);
    }
  }

  /** Registering a name again starts a sink of its own. */
  lemma {:induction false} RegisteredAgainIsNew(s: State, id: string)
    requires Consistent(s) && id in s.names
    ensures
      var s' := Register(Unregister(s, id), id);
      && id in s'.names && s'.names[id] !in s.sinks
      && s'.sinks[s'.names[id]] == NEW_SINK
      && IsGone(s', s.names[id])
  {
  }
}
