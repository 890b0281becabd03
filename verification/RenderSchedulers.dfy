/**
 The scheduler in place: the table of sinks and the tick that goes round them. Every method does to the
 state what `RenderScheduler` says, and every call keeps what is proved of its runs.
 */
module RenderSchedulers {
  import opened RenderConservation
  import opened RenderRuns
  import opened RenderScheduler
  import opened RenderSinks
  import opened RenderGiven

  class Scheduler {
    const config: Config
    var sinks: map<string, TerminalSink>
    var order: seq<string>
    var rr: nat
    var isArmed: bool
    ghost var isStopped: bool
    /** Every sink ever registered at its identity, the values of them all, and the identities that the
        names lead to. */
    ghost var table: seq<TerminalSink>
    ghost var values: map<nat, Sink>
    ghost var names: map<string, nat>

    ghost predicate Holds(i: nat)
      requires i < |table|
      reads this`table, this`values, table
    {
      table[i].identity == i && table[i].Valid() && i in values && table[i].Value() == values[i]
    }

    ghost predicate TableHoldsSinks()
      reads this`table, this`values, table
    {
      forall i: nat {:trigger Holds(i)} :: i < |table| ==> Holds(i)
    }

    ghost predicate Leads(id: string)
      requires id in names && id in sinks
      reads this`table, this`names, this`sinks
    {
      names[id] == sinks[id].identity && names[id] < |table| && table[names[id]] == sinks[id]
    }

    ghost predicate NamesLeadToSinks()
      reads this`table, this`names, this`sinks
    {
      names.Keys == sinks.Keys && (forall id {:trigger Leads(id)} :: id in sinks ==> Leads(id))
    }

    /** The fields and the sinks stand for a state. */
    ghost predicate Represents()
      reads this, table
    {
      TableHoldsSinks() && NamesLeadToSinks()
    }

    /** Names, order and sinks agree, a serviceable sink has a frame coming unless frames were stopped,
        and every sink's output is in order. */
    ghost predicate Valid()
      reads this, table
    {
      Represents() && Consistent(State()) && AllOrdered(State(), config.maxChunkBytes)
    }

    lemma {:induction false} StepIsValid(event: Event)
      requires Valid()
      ensures
        var s := Step(State(), event, config);
        Consistent(s) && AllOrdered(s, config.maxChunkBytes)
    {
      StepKeepsConsistent(State(), event, config);
      StepKeepsOrdered(State(), event, config);
    }

    /** The state the fields stand for. */
    ghost function State(): State
      reads this
    {
      RenderScheduler.State(values, names, order, rr, isArmed, isStopped, |table|)
    }

    /** A sink is where its name leads. */
    lemma {:induction false} SinkOf(id: string)
      requires Represents() && id in sinks
      ensures names[id] < |table| && table[names[id]] == sinks[id] && Holds(names[id])
    {
      assert Leads(id);
    }

    twostate lemma {:induction false} OneSinkChanged(i: nat)
      requires old(TableHoldsSinks()) && i < |table| && table == old(table)
      requires table[i].identity == i && table[i].Valid() && values == old(values)[i := table[i].Value()]
      requires forall j :: 0 <= j < |table| && table[j] != table[i] ==> unchanged(table[j])
      ensures TableHoldsSinks()
    {
      forall j: nat | j < |table| ensures Holds(j) {
        assert old(Holds(j));
      }
    }

    twostate lemma {:induction false} SinkAdded(new sink: TerminalSink)
      requires old(TableHoldsSinks()) && table == old(table) + [sink]
      requires sink.identity == old(|table|) && sink.Valid() && values == old(values)[old(|table|) := sink.Value()]
      requires forall other :: other in old(table) ==> unchanged(other)
      ensures TableHoldsSinks()
    {
      forall j: nat | j < |table| ensures Holds(j) {
        if j < old(|table|) {
          assert old(Holds(j));
          assert table[j] == old(table)[j] && table[j] in old(table);
        }
      }
    }

    twostate lemma {:induction false} NamesStillLead(id: string)
      requires old(NamesLeadToSinks())
      requires names.Keys == sinks.Keys && old(table) <= table
      requires forall other :: other in sinks && other != id ==>
                 other in old(sinks) && sinks[other] == old(sinks)[other] && names[other] == old(names)[other]
      requires id in sinks ==> Leads(id)
      ensures NamesLeadToSinks()
    {
      forall other | other in sinks ensures Leads(other) {
        if other != id {
          assert old(Leads(other));
        }
      }
    }

    lemma {:induction false} ReportIsValid(identity: nat)
      requires Valid()
      ensures
        var s := Report(State(), identity);
        Consistent(s) && AllOrdered(s, config.maxChunkBytes)
    {
      ReportKeepsConsistent(State(), identity);
      ReportKeepsOrdered(State(), identity, config.maxChunkBytes);
    }

    constructor (config: Config)
      ensures Valid() && this.config == config && State() == NEW_STATE
    {
      this.config := config;
      sinks, order, rr, isArmed := map[], [], 0, false;
      isStopped, table, values, names := false, [], map[], map[];
      new;
      RunKeepsConsistent([], config);
    }

    method Arm()
      modifies this`isArmed, this`isStopped
      ensures isArmed && !isStopped
    {
      isArmed, isStopped := true, false;
    }

    method Admit(id: string)
      requires Represents()
      modifies this, table
      ensures Represents() && State() == RenderScheduler.Register(old(State()), id)
    {
      if id in sinks {
        SinkOf(id);
        sinks[id].live := true;
        values := values[names[id] := sinks[id].Value()];
        OneSinkChanged(names[id]);
        return;
      }
      var sink := new TerminalSink(|table|);
      sinks := sinks[id := sink];
      order := order + [id];
      names := names[id := |table|];
      values := values[|table| := sink.Value()];
      table := table + [sink];
      SinkAdded(sink);
      NamesStillLead(id);
    }

    method Register(id: string)
      requires Valid()
      modifies this, table
      ensures Valid() && State() == RenderScheduler.Register(old(State()), id)
    {
      StepIsValid(RegisterSink(id));
      Admit(id);
    }

    method Remove(id: string)
      requires Represents() && id in sinks
      modifies this`sinks, this`names, this`order, this`rr
      ensures Represents() && names == old(names) - {id} && order == WithoutName(old(order), id)
      ensures rr == if old(rr) >= |order| then 0 else old(rr)
    {
      sinks := sinks - {id};
      names := names - {id};
      NamesStillLead(id);
      var idx := IndexIn(order, id);
      if idx != -1 {
        order := order[..idx] + order[idx + 1..];
      }
      if rr >= |order| {
        rr := 0;
      }
    }

    method Retire(id: string)
      requires Represents() && id in sinks
      modifies this`values, table
      ensures Represents() && names[id] in old(values)
      ensures values == old(values)[names[id] := old(values)[names[id]].(live := false)]
    {
      SinkOf(id);
      sinks[id].live := false;
      values := values[names[id] := sinks[id].Value()];
      OneSinkChanged(names[id]);
    }

    method Unregister(id: string)
      requires Valid()
      modifies this, table
      ensures Valid() && State() == RenderScheduler.Unregister(old(State()), id)
    {
      StepIsValid(UnregisterSink(id));
      if id !in sinks { return; }
      Retire(id);
      Remove(id);
    }

    method Push(id: string, entry: Entry)
      requires Represents() && entry != Data("")
      modifies this, table
      ensures Represents() && State() == RenderScheduler.Enqueue(old(State()), id, entry)
    {
      if id !in sinks { return; }
      SinkOf(id);
      sinks[id].Push(entry);
      values := values[names[id] := sinks[id].Value()];
      OneSinkChanged(names[id]);
      Arm();
    }

    method Enqueue(id: string, data: string)
      requires Valid()
      modifies this, table
      ensures Valid() && State() == RenderScheduler.Enqueue(old(State()), id, Data(data))
      ensures TakesEntry(old(State()), id, Data(data), State())
    {
      EntryIsTaken(State(), id, Data(data));
      StepIsValid(EnqueueData(id, data));
      if data == "" { return; }
      Push(id, Data(data));
    }

    method EnqueueAction(id: string, action: nat)
      requires Valid()
      modifies this, table
      ensures Valid() && State() == RenderScheduler.Enqueue(old(State()), id, Action(action))
      ensures TakesEntry(old(State()), id, Action(action), State())
    {
      EntryIsTaken(State(), id, Action(action));
      StepIsValid(RenderScheduler.EnqueueAction(id, action));
      Push(id, Action(action));
    }

    method NoteDrained(sink: TerminalSink, ghost identity: nat)
      requires Represents() && identity < |table| && table[identity] == sink && sink.inFlight
      modifies this, table
      ensures Represents() && State() == Report(old(State()), identity)
    {
      assert Holds(identity);
      var wantsFrame := sink.BatchDrained();
      values := values[identity := sink.Value()];
      OneSinkChanged(identity);
      if wantsFrame {
        Arm();
      }
    }

    /** The drain report of a batch of the sink, whether or not the sink is still registered. */
    method BatchDrained(sink: TerminalSink, ghost identity: nat)
      requires Valid() && identity < |table| && table[identity] == sink && sink.inFlight
      modifies this, table
      ensures Valid() && State() == Report(old(State()), identity)
    {
      ReportIsValid(identity);
      NoteDrained(sink, identity);
    }

    ghost predicate IsServiceableUnder(id: string)
      reads this`names, this`values
    {
      id in names && names[id] in values && Serviceable(values[names[id]])
    }

    method IsAnyServiceable() returns (any: bool)
      requires Represents()
      ensures any == AnyServiceable(State())
    {
      var rest := sinks.Keys;
      while rest != {}
        invariant rest <= sinks.Keys
        invariant forall id :: id in sinks && id !in rest ==> !IsServiceableUnder(id)
        decreases |rest|
      {
        var id :| id in rest;
        SinkOf(id);
        if sinks[id].IsServiceable() { return true; }
        rest := rest - {id};
      }
      return false;
    }

    /** Looks at the sink in the k-th place of the round. */
    method ServiceTurn(k: nat) returns (wasServiced: bool)
      requires Represents() && k < |order|
      modifies this`values, table
      ensures Represents() && State() == ServicedAt(old(State()), k, config)
      ensures wasServiced == IsServicedAt(old(State()), k)
    {
      var id := order[(rr + k) % |order|];
      if id !in sinks { return false; }
      SinkOf(id);
      wasServiced := sinks[id].IsServiceable();
      if wasServiced {
        sinks[id].Service(config.maxChunkBytes);
        values := values[names[id] := sinks[id].Value()];
        OneSinkChanged(names[id]);
      }
    }

    /** Goes round the places in order until the budget is spent. */
    method ServiceRound()
      requires Represents()
      modifies this`values, table
      ensures Represents() && State() == TickFrom(old(State()), 0, 0, config)
    {
      var n := |order|;
      var serviced := 0;
      var k := 0;
      while k < n && serviced < config.budget
        invariant Represents() && 0 <= k <= n
        invariant TickFrom(State(), k, serviced, config) == TickFrom(old(State()), 0, 0, config)
      {
        var wasServiced := ServiceTurn(k);
        serviced := if wasServiced then serviced + 1 else serviced;
        k := k + 1;
      }
    }

    method EndRound()
      requires Represents()
      modifies this`rr, this`isArmed, this`isStopped
      ensures Represents() && State() == RoundEnded(old(State()))
    {
      var n := |order|;
      if n > 0 {
        rr := (rr + 1) % n;
      }
      var any := IsAnyServiceable();
      if any {
        Arm();
      }
    }

    method ServiceFrame()
      requires Represents() && isArmed
      modifies this, table
      ensures Represents() && State() == RenderScheduler.Tick(old(State()), config)
    {
      isArmed := false;
      ServiceRound();
      EndRound();
    }

    /** One frame. */
    method Tick()
      requires Valid() && isArmed
      modifies this, table
      ensures Valid() && State() == RenderScheduler.Tick(old(State()), config)
    {
      StepIsValid(Frame);
      ServiceFrame();
    }

    method Stop()
      requires Valid()
      modifies this`isArmed, this`isStopped
      ensures Valid() && State() == RenderScheduler.Stop(old(State()))
    {
      StepIsValid(StopFrames);
      if isArmed {
        isArmed, isStopped := false, true;
      }
    }

    /** Between two calls: a sink with something to do has a frame coming, unless frames were stopped. */
    lemma {:induction false} WakeupIsComing(id: string)
      requires Valid() && id in names && Serviceable(values[names[id]])
      ensures isArmed || isStopped
    {
      assert AnyServiceable(State());
    }
  }
}
