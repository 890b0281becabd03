/**
 The panel over every run of the store: it hears of each page, trim and reset, in the order in which the
 store tells of them, while it comes on and off the screen. A list it has not given up as stale is the
 list the resident turns would be rendered to.
 */
module TracePanelRuns {
  import opened TraceRecords
  import opened TraceStoreCore
  import opened TraceStoreProtocol
  import opened TraceStoreRuns
  import opened TraceWindowRuns
  import opened TracePanel
  import opened Wrappers

  /** `hasList` says that a list is on the page: an empty trace shows a text instead. */
  datatype PanelView = PanelView(sections: seq<Section>, hasList: bool, isStale: bool)

  function TurnsOf(s: Store): seq<Turn> {
    if s.selected.Some? then s.selected.value.grouping.turns else []
  }

  /** Building from scratch, which a panel off the screen puts off. */
  function Built(turns: seq<Turn>): PanelView {
    PanelView(Mirror(turns), turns != [], false)
  }

  function RenderedAgain(v: PanelView, isVisible: bool, turns: seq<Turn>): PanelView {
    if isVisible then Built(turns) else v.(isStale := true)
  }

  predicate CanUpdate(v: PanelView, isVisible: bool) {
    isVisible && !v.isStale && v.hasList
  }

  /** A page at the end: its deltas, the trim that follows, and a rebuild if the deltas were not applied. */
  function AppendHeard(v: PanelView, isVisible: bool, g: View, records: seq<Record>): PanelView {
    var after := Appended(g, records);
    var trim, kept := TrimOf(after.turns, MAX_RESIDENT_ROWS), Trimmed(after, MAX_RESIDENT_ROWS).turns;
    var v1 :=
      if CanUpdate(v, isVisible) then
        v.(sections := Replayed(v.sections, Deltas(g.turns, records, after.calls), after.turns))
      else v.(hasList := false);
    var v2 := v1.(sections := TrimApplied(v1.sections, trim));
    if CanUpdate(v, isVisible) then v2 else RenderedAgain(v2, isVisible, kept)
  }

  /** A page in front: its report unless that asks for a re-render, the trim, and a rebuild otherwise. */
  function PrependHeard(v: PanelView, isVisible: bool, g: View, records: seq<Record>): PanelView {
    var after, report := Prepended(g, records), PrependReport(g, records);
    var trim, kept := TrimOf(after.turns, MAX_RESIDENT_ROWS), Trimmed(after, MAX_RESIDENT_ROWS).turns;
    var isInPlace := CanUpdate(v, isVisible) && !report.needsRerender;
    var v1 := if isInPlace then v.(sections := PrependApplied(v.sections, report, after.turns)) else v;
    var v2 := v1.(sections := TrimApplied(v1.sections, trim));
    if isInPlace then v2 else RenderedAgain(v2, isVisible, kept)
  }

  /** The event replaces the selected window by a fresh one, or by none. */
  predicate Resets(s: Store, event: Event, around: Surroundings) {
    match event
    case Response(reply) => OutcomeOf(s, reply) == Reset
    case SelectSession(id) => IsOption(s.options, id) && s.selectedId != Some(id)
    case SetSessions(sessions) =>
      var s1 := s.(options := Options(sessions));
      Selection(s1, around.isLooking) != s1.selectedId
    case ShowSelection => Selection(s, true) != s.selectedId
    case _ => false
  }

  /** After a reset the list is stale until it is built again; other events build it again when a failure
      is to be shown or the panel comes on the screen with a stale list, or leave it. */
  function OtherHeard(v: PanelView, s: Store, event: Event, around: Surroundings): PanelView {
    var turns := TurnsOf(Step(s, event, around));
    if Resets(s, event, around) then
      var stale := v.(isStale := true);
      if event.ShowSelection? then Built(turns) else RenderedAgain(stale, around.isLooking, turns)
    else
      match event
      case ShowSelection => if v.isStale then Built(turns) else v
      case TimerFired(timer) => if timer in s.armedTimers then RenderedAgain(v, around.isLooking, turns) else v
      case TraceError(id, _) =>
        if s.pending.Some? && s.pending.value.request.id == id then RenderedAgain(v, around.isLooking, turns) else v
      case ConnectionState(isConnected) => if isConnected then v else RenderedAgain(v, around.isLooking, turns)
      case _ => v
  }

  function Heard(v: PanelView, s: Store, event: Event, around: Surroundings): PanelView {
    if !TakesIn(s, event) then OtherHeard(v, s, event, around)
    else
      var g := s.selected.value.grouping;
      if OutcomeOf(s, event.reply).PrependPage? then PrependHeard(v, around.isLooking, g, event.reply.records)
      else AppendHeard(v, around.isLooking, g, event.reply.records)
  }

  function Shown(events: seq<(Event, Surroundings)>): PanelView {
    if events == [] then Built([])
    else
      var n := |events| - 1;
      Heard(Shown(events[..n]), Run(events[..n]), events[n].0, events[n].1)
  }

  // ----- the list and the turns -----

  ghost predicate Mirrors(v: PanelView, turns: seq<Turn>) {
    !v.isStale ==> v.sections == Mirror(turns) && (v.hasList <==> turns != [])
  }

  lemma {:induction false} TrimKeepsSome(g: View, cap: int)
    ensures g.turns != [] ==> Trimmed(g, cap).turns != []
  {
    DroppedTurnsInRange(g.turns, cap);
  }

  lemma {:induction false} AppendIsMirrored(v: PanelView, isVisible: bool, g: View, records: seq<Record>)
    requires Mirrors(v, g.turns)
    ensures Mirrors(AppendHeard(v, isVisible, g, records), Trimmed(Appended(g, records), MAX_RESIDENT_ROWS).turns)
  {
    if CanUpdate(v, isVisible) {
      var after := Appended(g, records);
      ReplayRendersAppend(g, records);
      ReplayRendersTrim(after, MAX_RESIDENT_ROWS);
      TurnsStay(g.turns, records, after.calls);
      TrimKeepsSome(after, MAX_RESIDENT_ROWS);
    }
  }

  lemma {:induction false} TurnsStay(turns: seq<Turn>, records: seq<Record>, calls: CallIndex)
    ensures |WithRecords(turns, records, calls)| >= |turns|
  {
    if records != [] {
      TurnsStay(turns, records[..|records| - 1], calls);
    }
  }

  lemma {:induction false} PrependIsMirrored(v: PanelView, isVisible: bool, g: View, records: seq<Record>)
    requires Mirrors(v, g.turns)
    ensures Mirrors(PrependHeard(v, isVisible, g, records), Trimmed(Prepended(g, records), MAX_RESIDENT_ROWS).turns)
  {
    if CanUpdate(v, isVisible) && !PrependReport(g, records).needsRerender {
      ReplayRendersPrepend(g, records);
      ReplayRendersTrim(Prepended(g, records), MAX_RESIDENT_ROWS);
      TrimKeepsSome(Prepended(g, records), MAX_RESIDENT_ROWS);
    }
  }

  /** Without a page and without a reset the turns stay. */
  lemma {:induction false} OtherRepliesKeepTurns(s: Store, reply: Reply, around: Surroundings)
    requires SingleFlight(s) && !TakesIn(s, Response(reply)) && OutcomeOf(s, reply) != Reset
    ensures Responded(s, reply, around).selected == s.selected
  {
    RespondedCases(s, reply, around);
    SendingKeepsWindow(s, false, around);
    SendingKeepsWindow(Cleared(s).(failure := None), false, around);
  }

  lemma {:induction false} OtherStepsKeepTurns(s: Store, event: Event, around: Surroundings)
    requires SingleFlight(s) && !TakesIn(s, event) && !Resets(s, event, around)
    ensures TurnsOf(Step(s, event, around)) == TurnsOf(s)
  {
    match event
    case Response(reply) => OtherRepliesKeepTurns(s, reply, around);
    case ShowSelection => SendingKeepsWindow(SelectionApplied(s, true), true, around);
    case _ => SendingKeepsWindow(s, false, around);
  }

  lemma {:induction false} HeardIsMirrored(v: PanelView, s: Store, event: Event, around: Surroundings)
    requires SingleFlight(s) && Mirrors(v, TurnsOf(s))
    ensures Mirrors(Heard(v, s, event, around), TurnsOf(Step(s, event, around)))
  {
    if TakesIn(s, event) {
      TakenInTrims(s, event.reply, around);
      var g := s.selected.value.grouping;
      if OutcomeOf(s, event.reply).PrependPage? {
        PrependIsMirrored(v, around.isLooking, g, event.reply.records);
      } else {
        AppendIsMirrored(v, around.isLooking, g, event.reply.records);
      }
    } else if !Resets(s, event, around) {
      OtherStepsKeepTurns(s, event, around);
    }
  }

  /** Over every run of store and panel, a list that is not stale is the one the resident turns render to. */
  lemma {:induction false} PanelMirrorsStore(events: seq<(Event, Surroundings)>)
    ensures Mirrors(Shown(events), TurnsOf(Run(events)))
  {
    if events != [] {
      var n := |events| - 1;
      PanelMirrorsStore(events[..n]);
      RunKeepsSingleFlight(events[..n]);
      HeardIsMirrored(Shown(events[..n]), Run(events[..n]), events[n].0, events[n].1);
    }
  }

  /** An event seen by a panel on the screen makes no list stale, and showing the view ends staleness. */
  lemma {:induction false} VisibleStaysFresh(v: PanelView, s: Store, event: Event, around: Surroundings)
    requires event.ShowSelection? || (around.isLooking && !v.isStale)
    ensures !Heard(v, s, event, around).isStale
  {
  }

  /** A list is stale only since something happened off the screen, and only until the view is shown. */
  lemma {:induction false} StaleMeansHidden(events: seq<(Event, Surroundings)>) returns (i: nat)
    requires Shown(events).isStale
    ensures i < |events| && !events[i].1.isLooking
    ensures forall k :: i <= k < |events| ==> !events[k].0.ShowSelection?
  {
    var n := |events| - 1;
    var front := events[..n];
    if events[n].0.ShowSelection? || (events[n].1.isLooking && !Shown(front).isStale) {
      VisibleStaysFresh(Shown(front), Run(front), events[n].0, events[n].1);
      assert false;
    } else if !events[n].1.isLooking {
      i := n;
    } else {
      i := StaleMeansHidden(front);
    }
  }

  /** A page or a reset that comes while the panel is on the screen leaves no stale list behind. */
  lemma {:induction false} PageRefreshes(v: PanelView, s: Store, event: Event, around: Surroundings)
    requires around.isLooking && (TakesIn(s, event) || Resets(s, event, around))
    ensures !Heard(v, s, event, around).isStale
  {
  }
}
