/** The hub as the object it is in Go; each method is a step, or for `run` a run of steps, of the machine. */
module AdminHubManager {
  import opened AdminHub

  lemma {:induction false} RunLast(s: State, steps: seq<Step>, step: Step)
    requires CanRun(s, steps) && Enabled(Run(s, steps), step)
    ensures CanRun(s, steps + [step]) && Run(s, steps + [step]) == Apply(Run(s, steps), step)
    decreases |steps|
  {
    if steps == [] {
      assert [step][1..] == [] && steps + [step] == [step];
    } else {
      assert (steps + [step])[1..] == steps[1..] + [step];
      RunLast(Apply(s, steps[0]), steps[1..], step);
    }
  }

  /** The connections left, and what became of them all, once only those in `todo` have yet to be met. */
  function LeftAfter(connections: set<ConnId>, clients: map<ConnId, Client>, todo: set<ConnId>): set<ConnId>
    requires connections <= clients.Keys
  {
    set c | c in connections && (c in todo || |clients[c].queue| < CAPACITY)
  }

  function ClientsAfter(connections: set<ConnId>, clients: map<ConnId, Client>, todo: set<ConnId>, msg: Message,
                        position: nat): map<ConnId, Client> {
    map c | c in clients :: if c in connections && c !in todo then Meet(clients[c], msg, position) else clients[c]
  }

  lemma MeetOne(connections: set<ConnId>, clients: map<ConnId, Client>, todo: set<ConnId>, msg: Message,
                position: nat, c: ConnId)
    requires todo <= connections <= clients.Keys && c in todo
    ensures var met := ClientsAfter(connections, clients, todo, msg, position);
            var left := LeftAfter(connections, clients, todo);
            && c in met && met[c] == clients[c]
            && ClientsAfter(connections, clients, todo - {c}, msg, position)
               == met[c := Meet(clients[c], msg, position)]
            && LeftAfter(connections, clients, todo - {c})
               == if |clients[c].queue| < CAPACITY then left else left - {c}
  {
  }

  lemma MeetNone(connections: set<ConnId>, clients: map<ConnId, Client>, msg: Message, position: nat)
    requires connections <= clients.Keys
    ensures ClientsAfter(connections, clients, connections, msg, position) == clients
    ensures LeftAfter(connections, clients, connections) == connections
  {
  }

  /** The fan-out of one message as a run of the machine, one step per connection. */
  lemma {:induction false} FanIsRun(s: State, connections: set<ConnId>, clients: map<ConnId, Client>, todo: set<ConnId>)
    returns (steps: seq<Step>)
    requires s.phase.Fanning? && s.phase.todo == todo && s.log != [] && todo <= connections <= clients.Keys
    requires s.clients == ClientsAfter(connections, clients, todo, s.phase.msg, |s.log| - 1)
    requires s.connections == LeftAfter(connections, clients, todo)
    ensures CanRun(s, steps)
    ensures Run(s, steps) == s.(phase := Fanning(s.phase.msg, {}), connections := LeftAfter(connections, clients, {}),
                                clients := ClientsAfter(connections, clients, {}, s.phase.msg, |s.log| - 1))
    decreases todo
  {
    if todo == {} {
      steps := [];
    } else {
      var c :| c in todo;
      MeetOne(connections, clients, todo, s.phase.msg, |s.log| - 1, c);
      var t := Apply(s, FanTo(c));
      var rest := FanIsRun(t, connections, clients, todo - {c});
      RunFirst(s, FanTo(c), rest);
      steps := [FanTo(c)] + rest;
    }
  }

  /** A whole round of `run`. */
  lemma DispatchIsRun(s: State) returns (steps: seq<Step>)
    requires s.phase.Idle? && s.broadcast != [] && s.connections <= s.clients.Keys
    ensures CanRun(s, steps)
    ensures var msg := s.broadcast[0];
            Run(s, steps) == s.(broadcast := s.broadcast[1..], log := s.log + [msg],
                                connections := LeftAfter(s.connections, s.clients, {}),
                                clients := ClientsAfter(s.connections, s.clients, {}, msg, |s.log|))
  {
    var s1 := Apply(s, Dequeue);
    var s2 := Apply(s1, LockForReading);
    MeetNone(s.connections, s.clients, s.broadcast[0], |s.log|);
    var fans := FanIsRun(s2, s.connections, s.clients, s.connections);
    RunLast(s2, fans, Unlock);
    RunFirst(s1, LockForReading, fans + [Unlock]);
    RunFirst(s, Dequeue, [LockForReading] + (fans + [Unlock]));
    steps := [Dequeue] + ([LockForReading] + (fans + [Unlock]));
  }

  /** Connections with room have got the message and stay, those without are closed and gone, others are as before. */
  ghost predicate Dispatched(connections0: set<ConnId>, clients0: map<ConnId, Client>, msg: Message,
                             connections: set<ConnId>, clients: map<ConnId, Client>) {
    && connections <= connections0 <= clients0.Keys == clients.Keys
    && (forall c :: c in connections0 && |clients0[c].queue| < 256 ==>
          c in connections && clients[c].queue == clients0[c].queue + [Fanned(msg)]
          && clients[c].closed == clients0[c].closed)
    && (forall c :: c in connections0 && |clients0[c].queue| >= 256 ==>
          c !in connections && clients[c].queue == clients0[c].queue && clients[c].closed)
    && (forall c :: c in clients0 && c !in connections0 ==> clients[c] == clients0[c])
  }

  lemma FannedIsDispatched(connections: set<ConnId>, clients: map<ConnId, Client>, msg: Message, position: nat)
    requires connections <= clients.Keys
    ensures Dispatched(connections, clients, msg, LeftAfter(connections, clients, {}),
                       ClientsAfter(connections, clients, {}, msg, position))
  {
  }

  class Hub {
    var broadcast: seq<Message>
    var connections: set<ConnId>
    var clients: map<ConnId, Client>
    /** Messages fanned out so far. */
    var rounds: nat

    ghost predicate Shows(s: State)
      reads this
    {
      s.broadcast == broadcast && s.connections == connections && s.clients == clients && |s.log| == rounds
    }

    constructor ()
      ensures Shows(Initial())
    {
      broadcast, connections, clients, rounds := [], {}, map[], 0;
    }

    /** BroadcastDeviceUpdate, BroadcastDeviceList and BroadcastProgress all end in this send. */
    method Broadcast(msg: Message, ghost s: State) returns (taken: bool)
      requires Shows(s)
      modifies this
      ensures Shows(Apply(s, Offer(msg)))
      ensures taken <==> |old(broadcast)| < 256
      ensures broadcast == if taken then old(broadcast) + [msg] else old(broadcast)
    {
      taken := |broadcast| < CAPACITY;
      if taken {
        broadcast := broadcast + [msg];
      }
    }

    /**
     One round of `run`, from its receive to its unlock. Whatever order the connections come in, those with
     room get the oldest message, those without are closed and dropped, and nobody else is touched.
     */
    method RunOnce(ghost s: State) returns (ghost steps: seq<Step>)
      requires Shows(s) && s.phase.Idle? && connections <= clients.Keys && broadcast != []
      modifies this
      ensures CanRun(s, steps) && Shows(Run(s, steps)) && Run(s, steps).phase.Idle?
      ensures Run(s, steps).log == s.log + [old(broadcast)[0]] && broadcast == old(broadcast)[1..]
      ensures connections == LeftAfter(old(connections), old(clients), {})
      ensures clients == ClientsAfter(old(connections), old(clients), {}, old(broadcast)[0], old(rounds))
      ensures Dispatched(old(connections), old(clients), old(broadcast)[0], connections, clients)
    {
      steps := DispatchIsRun(s);
      var msg := broadcast[0];
      broadcast, rounds := broadcast[1..], rounds + 1;
      FanOut(msg);
      FannedIsDispatched(old(connections), old(clients), msg, old(rounds));
    }

    /** The loop over the connections. */
    method FanOut(msg: Message)
      requires connections <= clients.Keys && 0 < rounds
      modifies this`connections, this`clients
      ensures connections == LeftAfter(old(connections), old(clients), {})
      ensures clients == ClientsAfter(old(connections), old(clients), {}, msg, rounds - 1)
    {
      ghost var connections0, clients0 := connections, clients;
      var todo := connections;
      MeetNone(connections, clients, msg, rounds - 1);
      while todo != {}
        invariant todo <= connections0 <= clients0.Keys
        invariant connections == LeftAfter(connections0, clients0, todo)
        invariant clients == ClientsAfter(connections0, clients0, todo, msg, rounds - 1)
        decreases todo
      {
        var c :| c in todo;
        MeetOne(connections0, clients0, todo, msg, rounds - 1, c);
        if |clients[c].queue| < CAPACITY {
          clients := clients[c := Put(clients[c], Fanned(msg))];
        } else {
          clients := clients[c := clients[c].(closed := true, closings := clients[c].closings + 1, left := rounds - 1)];
          connections := connections - {c};
        }
        todo := todo - {c};
      }
    }

    /** The locked part of HandleConnection. */
    method Register(c: ConnId, ghost s: State)
      requires Shows(s) && Enabled(s, Connect(c))
      modifies this
      ensures Shows(Apply(s, Connect(c)))
      ensures connections == old(connections) + {c} && clients[c].queue == []
    {
      connections := connections + {c};
      clients := clients[c := Fresh(rounds)];
    }

    /** True when the send hits a channel that `run` has closed. */
    method SendDeviceList(c: ConnId, data: Message, ghost s: State) returns (panicked: bool)
      requires Shows(s) && Enabled(s, AdminHub.SendDeviceList(c, data))
      modifies this
      ensures Shows(Apply(s, AdminHub.SendDeviceList(c, data)))
      ensures panicked <==> old(clients)[c].closed
      ensures connections == old(connections) && c in clients
      ensures clients[c].queue == old(clients)[c].queue
                                  + if !panicked && |old(clients)[c].queue| < 256 then [Snapshot(data)] else []
    {
      var client := clients[c];
      panicked := client.closed;
      if panicked {
        clients := clients[c := client.(stage := Aborted)];
      } else if |client.queue| < CAPACITY {
        clients := clients[c := Put(client, Snapshot(data)).(stage := Pumping)];
      } else {
        clients := clients[c := client.(stage := Pumping)];
      }
    }

    /** readPump's removal of its connection; the channel is not closed. */
    method Remove(c: ConnId, ghost s: State)
      requires Shows(s) && Enabled(s, Leave(c))
      modifies this
      ensures Shows(Apply(s, Leave(c)))
      ensures connections == old(connections) - {c} && c in clients && clients[c].queue == old(clients)[c].queue
    {
      if c in connections {
        clients := clients[c := clients[c].(left := rounds)];
      }
      connections := connections - {c};
    }
  }
}
