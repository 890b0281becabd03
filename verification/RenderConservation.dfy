/**
 What a terminal sees of what was enqueued for it: everything, once and in order, with an action
 acting as a barrier between the bytes before it and the bytes after it.
 */
module RenderConservation {
  import opened RenderScheduler

  // ----- what is enqueued and what comes out, letter by letter -----

  datatype Atom = Letter(c: char) | Act(id: nat)

  function Letters(text: string): seq<Atom> {
    if text == [] then [] else [Letter(text[0])] + Letters(text[1..])
  }

  function Flat(writes: seq<string>): string {
    if writes == [] then [] else writes[0] + Flat(writes[1..])
  }

  function EntryAtoms(entry: Entry): seq<Atom> {
    match entry
    case Data(text) => Letters(text)
    case Action(id) => [Act(id)]
  }

  function Atoms(entries: seq<Entry>): seq<Atom> {
    if entries == [] then [] else EntryAtoms(entries[0]) + Atoms(entries[1..])
  }

  function OutAtoms(o: Out): seq<Atom> {
    match o
    case Ran(id) => [Act(id)]
    case Batch(writes) => Letters(Flat(writes))
    case Reported => []
  }

  function AtomsOut(outs: seq<Out>): seq<Atom> {
    if outs == [] then [] else OutAtoms(outs[0]) + AtomsOut(outs[1..])
  }

  lemma {:induction false} LettersConcat(a: string, b: string)
    ensures Letters(a + b) == Letters(a) + Letters(b)
  {
    if a == [] {
      assert a + b == b;
    } else {
      assert (a + b)[0] == a[0] && (a + b)[1..] == a[1..] + b;
      LettersConcat(a[1..], b);
    }
  }

  lemma {:induction false} FlatConcat(a: seq<string>, b: seq<string>)
    ensures Flat(a + b) == Flat(a) + Flat(b)
  {
    if a == [] {
      assert a + b == b;
    } else {
      assert (a + b)[0] == a[0] && (a + b)[1..] == a[1..] + b;
      FlatConcat(a[1..], b);
    }
  }

  lemma {:induction false} AtomsConcat(a: seq<Entry>, b: seq<Entry>)
    ensures Atoms(a + b) == Atoms(a) + Atoms(b)
  {
    if a == [] {
      assert a + b == b;
    } else {
      assert (a + b)[0] == a[0] && (a + b)[1..] == a[1..] + b;
      AtomsConcat(a[1..], b);
    }
  }

  lemma {:induction false} AtomsOutConcat(a: seq<Out>, b: seq<Out>)
    ensures AtomsOut(a + b) == AtomsOut(a) + AtomsOut(b)
  {
    if a == [] {
      assert a + b == b;
    } else {
      assert (a + b)[0] == a[0] && (a + b)[1..] == a[1..] + b;
      AtomsOutConcat(a[1..], b);
    }
  }

  // ----- slicing -----

  predicate Sliced(writes: seq<string>) {
    forall w :: w in writes ==> |w| <= 16 * 1024
  }

  /** Cutting a text into slices loses nothing, and no slice is longer than 16 KiB. */
  lemma {:induction false} SlicesKeepTheText(text: string)
    ensures Flat(Slices(text)) == text
    ensures Sliced(Slices(text)) && Slices(text) != []
    decreases |text|
  {
    if |text| <= WRITE_SLICE_BYTES {
      assert Flat([text]) == text + Flat([]);
    } else {
      var head, tail := text[..WRITE_SLICE_BYTES], text[WRITE_SLICE_BYTES..];
      SlicesKeepTheText(tail);
      FlatConcat([head], Slices(tail));
      assert Flat([head]) == head + Flat([]);
      assert head + tail == text;
    }
  }

  lemma {:induction false} AllSlicesKeepTheTexts(texts: seq<string>)
    ensures Flat(AllSlices(texts)) == Flat(texts)
    ensures Sliced(AllSlices(texts)) && (texts != [] ==> AllSlices(texts) != [])
  {
    if texts != [] {
      var front, last := texts[..|texts| - 1], texts[|texts| - 1];
      AllSlicesKeepTheTexts(front);
      SlicesKeepTheText(last);
      FlatConcat(AllSlices(front), Slices(last));
      FlatConcat(front, [last]);
      assert Flat([last]) == last + Flat([]);
      assert front + [last] == texts;
    }
  }

  // ----- drawing from a queue -----

  predicate NoEmptyData(queue: seq<Entry>) {
    queue != [] ==> queue[0] != Data("") && NoEmptyData(queue[1..])
  }

  lemma {:induction false} NoEmptyDataAppend(queue: seq<Entry>, entry: Entry)
    requires NoEmptyData(queue) && entry != Data("")
    ensures NoEmptyData(queue + [entry])
  {
    if queue == [] {
      assert queue + [entry] == [entry];
    } else {
      assert (queue + [entry])[0] == queue[0] && (queue + [entry])[1..] == queue[1..] + [entry];
      NoEmptyDataAppend(queue[1..], entry);
    }
  }

  function DrawnAtoms(drawn: Drawn): seq<Atom> {
    AtomsOut(RunOuts(drawn.ran)) + Letters(Flat(drawn.taken)) + Atoms(drawn.left)
  }

  /** One service draws the front of the queue: actions first, then text up to the cap. Nothing is
      lost or moved; without text everything was an action. */
  lemma {:induction false} DrawConserves(queue: seq<Entry>, consumed: nat, maxChunk: nat)
    requires NoEmptyData(queue) && consumed <= maxChunk
    ensures
      var drawn := Draw(queue, consumed, maxChunk);
      && Atoms(queue) == DrawnAtoms(drawn)
      && NoEmptyData(drawn.left)
      && consumed + |Flat(drawn.taken)| <= maxChunk
      && (consumed > 0 ==> drawn.ran == [])
      && (consumed == 0 && drawn.taken == [] ==> drawn.left == [])
  {
    if queue != [] {
      match queue[0]
      case Action(id) =>
        if consumed == 0 {
          DrawConserves(queue[1..], 0, maxChunk);
          DrawActionFirst(id, Draw(queue[1..], 0, maxChunk));
        }
      case Data(text) =>
        if consumed + |text| <= maxChunk {
          DrawConserves(queue[1..], consumed + |text|, maxChunk);
          DrawTextFirst(text, Draw(queue[1..], consumed + |text|, maxChunk));
        } else if consumed == 0 {
          DrawPart(text, queue[1..], maxChunk);
        }
    }
  }

  lemma {:induction false} DrawActionFirst(id: nat, rest: Drawn)
    ensures DrawnAtoms(rest.(ran := [id] + rest.ran)) == [Act(id)] + DrawnAtoms(rest)
  {
    var ids := [id] + rest.ran;
    assert ids[0] == id && ids[1..] == rest.ran;
    AtomsOutConcat([Ran(id)], RunOuts(rest.ran));
    assert AtomsOut([Ran(id)]) == [Act(id)] + AtomsOut([]);
  }

  lemma {:induction false} DrawTextFirst(text: string, rest: Drawn)
    requires rest.ran == []
    ensures DrawnAtoms(rest.(taken := [text] + rest.taken)) == Letters(text) + DrawnAtoms(rest)
    ensures |Flat([text] + rest.taken)| == |text| + |Flat(rest.taken)|
  {
    var taken := [text] + rest.taken;
    assert taken[0] == text && taken[1..] == rest.taken;
    LettersConcat(text, Flat(rest.taken));
  }

  lemma {:induction false} DrawPart(text: string, others: seq<Entry>, maxChunk: nat)
    requires |text| > maxChunk && NoEmptyData(others)
    ensures
      var drawn := Drawn([], [text[..maxChunk]], [Data(text[maxChunk..])] + others);
      && DrawnAtoms(drawn) == Letters(text) + Atoms(others)
      && NoEmptyData(drawn.left)
      && Flat(drawn.taken) == text[..maxChunk]
  {
    assert AtomsOut(RunOuts([])) == [];
    var head, tail := text[..maxChunk], text[maxChunk..];
    assert Flat([head]) == head + Flat([]);
    var left := [Data(tail)] + others;
    assert left[0] == Data(tail) && left[1..] == others;
    LettersConcat(head, tail);
    assert head + tail == text;
    assert Atoms(left) == Letters(tail) + Atoms(others);
    var drawn := Drawn([], [head], left);
    assert Flat(drawn.taken) == head;
    assert DrawnAtoms(drawn) == AtomsOut(RunOuts([])) + Letters(head) + Atoms(left);
    assert DrawnAtoms(drawn) == Letters(head) + (Letters(tail) + Atoms(others));
  }

  // ----- back-pressure -----

  /** A batch has been handed over that has not reported. */
  predicate IsOpen(outs: seq<Out>) {
    outs != [] &&
    match outs[|outs| - 1]
    case Ran(_) => IsOpen(outs[..|outs| - 1])
    case Batch(_) => true
    case Reported => false
  }

  /** Actions run and batches start only when no batch is open; only an open batch reports. */
  predicate Alternates(outs: seq<Out>) {
    outs != [] ==>
      var front := outs[..|outs| - 1];
      Alternates(front) && (outs[|outs| - 1].Reported? <==> IsOpen(front))
  }

  predicate WithinCaps(o: Out, maxChunk: nat) {
    o.Batch? ==> Sliced(o.writes) && o.writes != [] && |Flat(o.writes)| <= maxChunk
  }

  /** Every write is at most 16 KiB and every batch at most the chunk cap. */
  predicate Capped(outs: seq<Out>, maxChunk: nat) {
    outs != [] ==> Capped(outs[..|outs| - 1], maxChunk) && WithinCaps(outs[|outs| - 1], maxChunk)
  }

  lemma {:induction false} ActionsKeepClosed(outs: seq<Out>, ids: seq<nat>, maxChunk: nat)
    requires Alternates(outs) && !IsOpen(outs) && Capped(outs, maxChunk)
    ensures
      var outs' := outs + RunOuts(ids);
      Alternates(outs') && !IsOpen(outs') && Capped(outs', maxChunk)
    decreases |ids|
  {
    if ids == [] {
      assert outs + RunOuts(ids) == outs;
    } else {
      AppendOut(outs, Ran(ids[0]), maxChunk);
      ActionsKeepClosed(outs + [Ran(ids[0])], ids[1..], maxChunk);
      assert outs + RunOuts(ids) == outs + [Ran(ids[0])] + RunOuts(ids[1..]);
    }
  }

  lemma {:induction false} AppendOut(outs: seq<Out>, o: Out, maxChunk: nat)
    requires Alternates(outs) && (o.Reported? <==> IsOpen(outs))
    requires Capped(outs, maxChunk) && WithinCaps(o, maxChunk)
    ensures Alternates(outs + [o]) && Capped(outs + [o], maxChunk)
    ensures IsOpen(outs + [o]) <==> o.Batch?
  {
    assert (outs + [o])[..|outs|] == outs;
  }

  // ----- what every sink keeps -----

  /** Everything enqueued has come out or is still queued, in the order in which it was enqueued. */
  predicate Conserved(s: Sink) {
    Atoms(s.enqueued) == AtomsOut(s.outs) + Atoms(s.queue)
  }

  predicate Ordered(s: Sink, maxChunk: nat) {
    && Conserved(s)
    && Alternates(s.outs)
    && (s.live ==> (s.inFlight <==> IsOpen(s.outs)))
    && (s.dirty <==> s.queue != [])
    && NoEmptyData(s.queue)
    && Capped(s.outs, maxChunk)
  }

  lemma {:induction false} Regrouped<T>(whole: seq<T>, out: seq<T>, queued: seq<T>, added: seq<T>)
    requires whole == out + queued
    ensures whole + added == out + (queued + added)
  {
  }

  lemma {:induction false} Moved<T>(whole: seq<T>, out: seq<T>, queued: seq<T>, a: seq<T>, b: seq<T>, left: seq<T>)
    requires whole == out + queued && queued == a + b + left
    ensures whole == out + a + b + left
  {
  }

  lemma {:induction false} EnqueueConserves(s: Sink, entry: Entry)
    requires Conserved(s)
    ensures Conserved(Enqueued(s, entry))
  {
    AtomsConcat(s.enqueued, [entry]);
    AtomsConcat(s.queue, [entry]);
    Regrouped(Atoms(s.enqueued), AtomsOut(s.outs), Atoms(s.queue), Atoms([entry]));
  }

  lemma {:induction false} EnqueueKeepsOrdered(s: Sink, entry: Entry, maxChunk: nat)
    requires Ordered(s, maxChunk) && entry != Data("")
    ensures Ordered(Enqueued(s, entry), maxChunk)
  {
    EnqueueConserves(s, entry);
    NoEmptyDataAppend(s.queue, entry);
  }

  lemma {:induction false} AtomsOutAppend(outs: seq<Out>, o: Out)
    ensures AtomsOut(outs + [o]) == AtomsOut(outs) + OutAtoms(o)
  {
    AtomsOutConcat(outs, [o]);
    assert AtomsOut([o]) == OutAtoms(o) + AtomsOut([]);
  }

  lemma {:induction false} DrainKeepsOrdered(s: Sink, maxChunk: nat)
    requires Ordered(s, maxChunk)
    ensures Ordered(Drained(s), maxChunk)
  {
    if s.live && s.inFlight {
      AppendOut(s.outs, Reported, maxChunk);
      AtomsOutAppend(s.outs, Reported);
      assert AtomsOut(s.outs + [Reported]) == AtomsOut(s.outs);
    }
  }

  lemma {:induction false} ServiceConserves(s: Sink, maxChunk: nat)
    requires Conserved(s) && NoEmptyData(s.queue)
    ensures Conserved(Serviced(s, maxChunk))
  {
    var drawn := Draw(s.queue, 0, maxChunk);
    DrawConserves(s.queue, 0, maxChunk);
    var ran := RunOuts(drawn.ran);
    AtomsOutConcat(s.outs, ran);
    Moved(Atoms(s.enqueued), AtomsOut(s.outs), Atoms(s.queue), AtomsOut(ran), Letters(Flat(drawn.taken)),
        Atoms(drawn.left));
    if drawn.taken != [] {
      AllSlicesKeepTheTexts(drawn.taken);
      AtomsOutAppend(s.outs + ran, Batch(AllSlices(drawn.taken)));
    }
  }

  lemma {:induction false} ServiceKeepsOrdered(s: Sink, maxChunk: nat)
    requires Ordered(s, maxChunk) && Serviceable(s)
    ensures Ordered(Serviced(s, maxChunk), maxChunk)
    ensures !Serviceable(Serviced(s, maxChunk))
    ensures |Serviced(s, maxChunk).outs| > |s.outs|
  {
    ServiceConserves(s, maxChunk);
    var drawn := Draw(s.queue, 0, maxChunk);
    DrawConserves(s.queue, 0, maxChunk);
    ActionsKeepClosed(s.outs, drawn.ran, maxChunk);
    if drawn.taken == [] {
      DrawRunsSomething(s.queue, maxChunk);
    } else {
      AllSlicesKeepTheTexts(drawn.taken);
      AppendOut(s.outs + RunOuts(drawn.ran), Batch(AllSlices(drawn.taken)), maxChunk);
    }
  }

  lemma {:induction false} DrawRunsSomething(queue: seq<Entry>, maxChunk: nat)
    requires queue != [] && Draw(queue, 0, maxChunk).taken == []
    ensures RunOuts(Draw(queue, 0, maxChunk).ran) != []
  {
  }

  // ----- over every run -----

  predicate AllOrdered(s: State, maxChunk: nat) {
    forall i :: i in s.sinks ==> Ordered(s.sinks[i], maxChunk)
  }

  function WithSink(s: State, identity: nat, sink: Sink): State {
    s.(sinks := s.sinks[identity := sink])
  }

  lemma {:induction false} WithSinkKeepsOrdered(s: State, identity: nat, sink: Sink, maxChunk: nat)
    requires AllOrdered(s, maxChunk) && Ordered(sink, maxChunk)
    ensures AllOrdered(WithSink(s, identity, sink), maxChunk)
  {
  }

  lemma {:induction false} ServicedAtKeepsOrdered(s: State, k: nat, config: Config)
    requires k < |s.order| && AllOrdered(s, config.maxChunkBytes)
    ensures AllOrdered(ServicedAt(s, k, config), config.maxChunkBytes)
  {
    if IsServicedAt(s, k) {
      var identity := s.names[s.order[Turn(s, k)]];
      ServiceKeepsOrdered(s.sinks[identity], config.maxChunkBytes);
      WithSinkKeepsOrdered(s, identity, Serviced(s.sinks[identity], config.maxChunkBytes), config.maxChunkBytes);
    }
  }

  lemma {:induction false} TickFromKeepsOrdered(s: State, k: nat, serviced: nat, config: Config)
    requires k <= |s.order| && AllOrdered(s, config.maxChunkBytes)
    ensures AllOrdered(TickFrom(s, k, serviced, config), config.maxChunkBytes)
    decreases |s.order| - k
  {
    if k < |s.order| && serviced < config.budget {
      ServicedAtKeepsOrdered(s, k, config);
      var next := if IsServicedAt(s, k) then serviced + 1 else serviced;
      TickFromKeepsOrdered(ServicedAt(s, k, config), k + 1, next, config);
    }
  }

  lemma {:induction false} TickKeepsOrdered(s: State, config: Config)
    requires AllOrdered(s, config.maxChunkBytes)
    ensures AllOrdered(Tick(s, config), config.maxChunkBytes)
  {
    if s.isArmed {
      TickFromKeepsOrdered(s.(isArmed := false), 0, 0, config);
    }
  }

  lemma {:induction false} EnqueueKeepsAllOrdered(s: State, id: string, entry: Entry, maxChunk: nat)
    requires AllOrdered(s, maxChunk)
    ensures AllOrdered(Enqueue(s, id, entry), maxChunk)
  {
    if Registered(s, id) && entry != Data("") {
      var sink := Enqueued(s.sinks[s.names[id]], entry);
      EnqueueKeepsOrdered(s.sinks[s.names[id]], entry, maxChunk);
      WithSinkKeepsOrdered(s, s.names[id], sink, maxChunk);
    }
  }

  lemma {:induction false} ReportKeepsOrdered(s: State, identity: nat, maxChunk: nat)
    requires AllOrdered(s, maxChunk)
    ensures AllOrdered(Report(s, identity), maxChunk)
  {
    if identity in s.sinks && s.sinks[identity].live && s.sinks[identity].inFlight {
      var sink := Drained(s.sinks[identity]);
      DrainKeepsOrdered(s.sinks[identity], maxChunk);
      WithSinkKeepsOrdered(s, identity, sink, maxChunk);
    }
  }

  lemma {:induction false} UnregisterKeepsOrdered(s: State, id: string, maxChunk: nat)
    requires AllOrdered(s, maxChunk)
    ensures AllOrdered(Unregister(s, id), maxChunk)
  {
    if Registered(s, id) {
      WithSinkKeepsOrdered(s, s.names[id], s.sinks[s.names[id]].(live := false), maxChunk);
    }
  }

  /** A registered sink is live already, so registering its name again only renews what it writes to. */
  lemma {:induction false} RegisterKeepsOrdered(s: State, id: string, maxChunk: nat)
    requires AllOrdered(s, maxChunk) && (Registered(s, id) ==> s.sinks[s.names[id]].live)
    ensures AllOrdered(Register(s, id), maxChunk)
  {
    if Registered(s, id) {
      WithSinkKeepsOrdered(s, s.names[id], s.sinks[s.names[id]].(live := true), maxChunk);
    } else {
      WithSinkKeepsOrdered(s, s.identities, NEW_SINK, maxChunk);
    }
  }
}
