/**
 The terminal render scheduler: sinks with queues of output and actions, serviced round-robin a few at
 a time per frame, a batch in flight per sink at most. The functions say what each event does to the
 scheduler's state; `RenderSinks` and `RenderSchedulers` do it in place.
 */
module RenderScheduler {

  const WRITE_SLICE_BYTES := 16 * 1024
  const COMPACT_THRESHOLD := 64

  datatype Entry = Data(text: string) | Action(id: nat)

  /** What a sink's terminal sees, in order: an action run, a batch of writes handed over, and the
      report that the batch drained. */
  datatype Out = Ran(id: nat) | Batch(writes: seq<string>) | Reported

  /** A registered terminal. `queue` is what is still to be read; the two histories record everything
      ever enqueued and everything that came out. */
  datatype Sink = Sink(
    queue: seq<Entry>, inFlight: bool, dirty: bool, live: bool, enqueued: seq<Entry>, outs: seq<Out>)

  const NEW_SINK := Sink([], false, false, true, [], [])

  datatype Config = Config(budget: nat, maxChunkBytes: nat)

  // ----- servicing one sink -----

  /** What one service draws from a queue: the actions it runs, the texts it takes, what it leaves. */
  datatype Drawn = Drawn(ran: seq<nat>, taken: seq<string>, left: seq<Entry>)

  function Draw(queue: seq<Entry>, consumed: nat, maxChunk: nat): Drawn {
    if queue == [] then Drawn([], [], [])
    else
      match queue[0]
      case Action(id) =>
        if consumed > 0 then Drawn([], [], queue)
        else
          var rest := Draw(queue[1..], 0, maxChunk);
          rest.(ran := [id] + rest.ran)
      case Data(text) =>
        if consumed + |text| <= maxChunk then
          var rest := Draw(queue[1..], consumed + |text|, maxChunk);
          rest.(taken := [text] + rest.taken)
        else if consumed == 0 then Drawn([], [text[..maxChunk]], [Data(text[maxChunk..])] + queue[1..])
        else Drawn([], [], queue)
  }

  function Slices(text: string): seq<string> {
    if |text| <= WRITE_SLICE_BYTES then [text]
    else [text[..WRITE_SLICE_BYTES]] + Slices(text[WRITE_SLICE_BYTES..])
  }

  function AllSlices(texts: seq<string>): seq<string> {
    if texts == [] then [] else AllSlices(texts[..|texts| - 1]) + Slices(texts[|texts| - 1])
  }

  function RunOuts(ids: seq<nat>): seq<Out> {
    if ids == [] then [] else [Ran(ids[0])] + RunOuts(ids[1..])
  }

  predicate Serviceable(s: Sink) {
    s.live && s.dirty && !s.inFlight && s.queue != []
  }

  function Serviced(s: Sink, maxChunk: nat): Sink {
    var drawn := Draw(s.queue, 0, maxChunk);
    var outs := s.outs + RunOuts(drawn.ran);
    var s1 := s.(queue := drawn.left, dirty := drawn.left != []);
    if drawn.taken == [] then s1.(outs := outs)
    else s1.(inFlight := true, outs := outs + [Batch(AllSlices(drawn.taken))])
  }

  function Drained(s: Sink): Sink {
    if !s.live || !s.inFlight then s
    else s.(inFlight := false, dirty := s.dirty || s.queue != [], outs := s.outs + [Reported])
  }

  function Enqueued(s: Sink, entry: Entry): Sink {
    s.(queue := s.queue + [entry], dirty := true, enqueued := s.enqueued + [entry])
  }

  // ----- the scheduler -----

  /** Sinks live in a table under an identity of their own; a name leads to the sink registered under
      it. `isStopped` remembers that the last thing to happen to the frame was a stop. */
  datatype State = State(
    sinks: map<nat, Sink>, names: map<string, nat>, order: seq<string>, rr: nat, isArmed: bool, isStopped: bool,
    identities: nat)

  const NEW_STATE := State(map[], map[], [], 0, false, false, 0)

  function Armed(s: State): State {
    s.(isArmed := true, isStopped := false)
  }

  predicate Registered(s: State, id: string) {
    id in s.names && s.names[id] in s.sinks
  }

  predicate AnyServiceable(s: State) {
    exists id :: id in s.names && s.names[id] in s.sinks && Serviceable(s.sinks[s.names[id]])
  }

  function Register(s: State, id: string): State {
    if Registered(s, id) then s.(sinks := s.sinks[s.names[id] := s.sinks[s.names[id]].(live := true)])
    else s.(sinks := s.sinks[s.identities := NEW_SINK], names := s.names[id := s.identities],
            order := s.order + [id], identities := s.identities + 1)
  }

  function IndexIn(order: seq<string>, id: string): (index: int)
    ensures -1 <= index < |order| && (index == -1 <==> id !in order)
    ensures index >= 0 ==> order[index] == id
  {
    if order == [] then -1
    else if order[0] == id then 0
    else
      var rest := IndexIn(order[1..], id);
      if rest == -1 then -1 else rest + 1
  }

  function WithoutName(order: seq<string>, id: string): seq<string> {
    var index := IndexIn(order, id);
    if index == -1 then order else order[..index] + order[index + 1..]
  }

  function Unregister(s: State, id: string): State {
    if !Registered(s, id) then s
    else
      var order := WithoutName(s.order, id);
      s.(sinks := s.sinks[s.names[id] := s.sinks[s.names[id]].(live := false)],
         names := s.names - {id}, order := order, rr := if s.rr >= |order| then 0 else s.rr)
  }

  function Enqueue(s: State, id: string, entry: Entry): State {
    if !Registered(s, id) || entry == Data("") then s
    else Armed(s.(sinks := s.sinks[s.names[id] := Enqueued(s.sinks[s.names[id]], entry)]))
  }

  /** A batch of a sink reports: a sink that is no longer registered does not notice. */
  function Report(s: State, identity: nat): State {
    if identity !in s.sinks || !s.sinks[identity].live || !s.sinks[identity].inFlight then s
    else
      var sink := Drained(s.sinks[identity]);
      var s1 := s.(sinks := s.sinks[identity := sink]);
      if sink.queue != [] then Armed(s1) else s1
  }

  /** The sink a tick looks at in its k-th place. */
  function Turn(s: State, k: nat): nat
    requires s.order != []
  {
    (s.rr + k) % |s.order|
  }

  function ServicedAt(s: State, k: nat, config: Config): State
    requires s.order != []
  {
    var id := s.order[Turn(s, k)];
    if Registered(s, id) && Serviceable(s.sinks[s.names[id]]) then
      s.(sinks := s.sinks[s.names[id] := Serviced(s.sinks[s.names[id]], config.maxChunkBytes)])
    else s
  }

  predicate IsServicedAt(s: State, k: nat)
    requires s.order != []
  {
    var id := s.order[Turn(s, k)];
    Registered(s, id) && Serviceable(s.sinks[s.names[id]])
  }

  /** The places from k on, as long as the budget lasts. */
  function TickFrom(s: State, k: nat, serviced: nat, config: Config): State
    requires k <= |s.order|
    decreases |s.order| - k
  {
    if k == |s.order| || serviced >= config.budget then s
    else
      TickFrom(ServicedAt(s, k, config), k + 1, if IsServicedAt(s, k) then serviced + 1 else serviced, config)
  }

  lemma {:induction false} TickFromKeepsOrder(s: State, k: nat, serviced: nat, config: Config)
    requires k <= |s.order|
    ensures
      var s' := TickFrom(s, k, serviced, config);
      s' == s.(sinks := s'.sinks)
    decreases |s.order| - k
  {
    if k < |s.order| && serviced < config.budget {
      var next := if IsServicedAt(s, k) then serviced + 1 else serviced;
      TickFromKeepsOrder(ServicedAt(s, k, config), k + 1, next, config);
    }
  }

  /** The end of a frame: the next round starts one place further, in another frame if one is wanted. */
  function RoundEnded(s: State): State {
    var s1 := if s.order == [] then s else s.(rr := (s.rr + 1) % |s.order|);
    if AnyServiceable(s1) then Armed(s1) else s1
  }

  function Tick(s: State, config: Config): State {
    if !s.isArmed then s else RoundEnded(TickFrom(s.(isArmed := false), 0, 0, config))
  }

  function Stop(s: State): State {
    if s.isArmed then s.(isArmed := false, isStopped := true) else s
  }

  datatype Event =
    | RegisterSink(id: string)
    | UnregisterSink(id: string)
    | EnqueueData(id: string, text: string)
    | EnqueueAction(id: string, action: nat)
    | BatchReports(identity: nat)
    | Frame
    | StopFrames

  function Step(s: State, event: Event, config: Config): State {
    match event
    case RegisterSink(id) => Register(s, id)
    case UnregisterSink(id) => Unregister(s, id)
    case EnqueueData(id, text) => Enqueue(s, id, Data(text))
    case EnqueueAction(id, action) => Enqueue(s, id, Action(action))
    case BatchReports(identity) => Report(s, identity)
    case Frame => Tick(s, config)
    case StopFrames => Stop(s)
  }

  function Run(s: State, events: seq<Event>, config: Config): State {
    if events == [] then s else Step(Run(s, events[..|events| - 1], config), events[|events| - 1], config)
  }
}
