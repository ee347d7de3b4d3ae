/**
 The broadcast hub of internal/admin/ws_manager.go as a step machine: a bounded FIFO of messages
 fanned out by one goroutine to a bounded FIFO per connection, dropping connections that are full.
 */
module AdminHub {

  type ConnId = nat
  type Message = string

  /** Capacity of `broadcast` and of every `send` channel. */
  const CAPACITY: nat := 256

  /** What a send channel holds: a message put there by `run`, or the device list of `sendDeviceList`. */
  datatype Item = Fanned(msg: Message) | Snapshot(data: Message)

  /** How far `HandleConnection` has come: the pumps start after the snapshot, or never if it panicked. */
  datatype Stage = Joining | Pumping | Aborted

  /**
   A connection. `queue` and `closed` are its send channel; the rest is history: all items ever put in,
   those taken out by writePump, and between which positions of the log of fanned-out messages it was connected.
   */
  datatype Client = Client(queue: seq<Item>, closed: bool, stage: Stage,
                           sent: seq<Item>, taken: seq<Item>, closings: nat,
                           joined: nat, left: int)

  /** `left` of a connection that is still in the map. */
  const STAYS: int := -1

  datatype Phase = Idle | Dequeued(msg: Message) | Fanning(msg: Message, todo: set<ConnId>)

  /** `log` lists the messages whose fan-out has begun, `accepted` those that found room in `broadcast`. */
  datatype State = State(broadcast: seq<Message>, phase: Phase, connections: set<ConnId>,
                         clients: map<ConnId, Client>, log: seq<Message>, accepted: seq<Message>)

  datatype Step =
    | Offer(msg: Message)
      // run
    | Dequeue
    | LockForReading
    | FanTo(c: ConnId)
    | Unlock
      // HandleConnection
    | Connect(c: ConnId)
    | SendDeviceList(c: ConnId, data: Message)
    | SkipDeviceList(c: ConnId)
      // the pumps
    | Drain(c: ConnId)
    | Leave(c: ConnId)

  function Put(client: Client, item: Item): Client {
    client.(queue := client.queue + [item], sent := client.sent + [item])
  }

  function Fresh(joined: nat): Client {
    Client([], false, Joining, [], [], 0, joined, STAYS)
  }

  /** `run` meets one connection: enqueue, or close and drop when the channel is full. */
  function Meet(client: Client, msg: Message, position: nat): Client {
    if |client.queue| < CAPACITY then Put(client, Fanned(msg))
    else client.(closed := true, closings := client.closings + 1, left := position)
  }

  predicate Enabled(s: State, step: Step) {
    match step
    case Offer(_) => true
    case Dequeue => s.phase.Idle? && s.broadcast != []
    case LockForReading => s.phase.Dequeued?
    case FanTo(c) => s.phase.Fanning? && c in s.phase.todo && c in s.clients && s.log != []
    case Unlock => s.phase.Fanning? && s.phase.todo == {}
    case Connect(c) => c !in s.clients && !s.phase.Fanning?
    case SendDeviceList(c, _) => c in s.clients && s.clients[c].stage == Joining
    case SkipDeviceList(c) => c in s.clients && s.clients[c].stage == Joining
    case Drain(c) => c in s.clients && s.clients[c].stage == Pumping && s.clients[c].queue != []
    case Leave(c) => c in s.clients && s.clients[c].stage == Pumping && !s.phase.Fanning?
  }

  function Apply(s: State, step: Step): State
    requires Enabled(s, step)
  {
    match step
    case Offer(msg) =>
      if |s.broadcast| < CAPACITY then s.(broadcast := s.broadcast + [msg], accepted := s.accepted + [msg]) else s
    case Dequeue => s.(phase := Dequeued(s.broadcast[0]), broadcast := s.broadcast[1..])
    case LockForReading => s.(phase := Fanning(s.phase.msg, s.connections), log := s.log + [s.phase.msg])
    case FanTo(c) =>
      var client := s.clients[c];
      s.(phase := s.phase.(todo := s.phase.todo - {c}),
         clients := s.clients[c := Meet(client, s.phase.msg, |s.log| - 1)],
         connections := if |client.queue| < CAPACITY then s.connections else s.connections - {c})
    case Unlock => s.(phase := Idle)
    case Connect(c) =>
      s.(connections := s.connections + {c}, clients := s.clients[c := Fresh(|s.log|)])
    case SendDeviceList(c, data) =>
      var client := s.clients[c];
      s.(clients := s.clients[c :=
        if client.closed then client.(stage := Aborted)
        else (if |client.queue| < CAPACITY then Put(client, Snapshot(data)) else client).(stage := Pumping)])
    case SkipDeviceList(c) => s.(clients := s.clients[c := s.clients[c].(stage := Pumping)])
    case Drain(c) =>
      var client := s.clients[c];
      s.(clients := s.clients[c := client.(queue := client.queue[1..], taken := client.taken + [client.queue[0]])])
    case Leave(c) =>
      s.(connections := s.connections - {c},
         clients := if c in s.connections then s.clients[c := s.clients[c].(left := |s.log|)] else s.clients)
  }

  function Initial(): State {
    State([], Idle, {}, map[], [], [])
  }

  predicate CanRun(s: State, steps: seq<Step>)
    decreases |steps|
  {
    steps == [] || (Enabled(s, steps[0]) && CanRun(Apply(s, steps[0]), steps[1..]))
  }

  function Run(s: State, steps: seq<Step>): State
    requires CanRun(s, steps)
    decreases |steps|
  {
    if steps == [] then s else Run(Apply(s, steps[0]), steps[1..])
  }

  // ---------------------------------------------------------------- invariant

  /** The messages among some items that came from `run`, in order. */
  function FromRun(items: seq<Item>): seq<Message> {
    if items == [] then []
    else FromRun(items[..|items| - 1]) + if items[|items| - 1].Fanned? then [items[|items| - 1].msg] else []
  }

  function Snapshots(items: seq<Item>): nat {
    if items == [] then 0
    else Snapshots(items[..|items| - 1]) + if items[|items| - 1].Snapshot? then 1 else 0
  }

  lemma PutAppends(items: seq<Item>, item: Item)
    ensures FromRun(items + [item]) == FromRun(items) + if item.Fanned? then [item.msg] else []
    ensures Snapshots(items + [item]) == Snapshots(items) + if item.Snapshot? then 1 else 0
  {
  }

  /** The position in the log up to which a connection has been served. */
  function Served(client: Client): nat {
    client.joined + |FromRun(client.sent)|
  }

  /** What `run` put into a channel is a contiguous slice of the log that starts where the connection joined. */
  ghost predicate IsSlice(client: Client, log: seq<Message>) {
    Served(client) <= |log| && FromRun(client.sent) == log[client.joined..Served(client)]
  }

  ghost predicate ClientOk(client: Client, log: seq<Message>) {
    && |client.queue| <= CAPACITY
    && client.sent == client.taken + client.queue
    && IsSlice(client, log)
    && client.closings == (if client.closed then 1 else 0)
    && (client.closed ==> client.left != STAYS && client.left < |log|)
    && (client.left != STAYS ==> client.left == Served(client))
    && Snapshots(client.sent) <= (if client.stage == Pumping then 1 else 0)
    && (client.stage != Pumping ==> client.taken == [])
    && (client.stage != Pumping && client.left != STAYS ==> client.closed && |client.sent| == CAPACITY)
  }

  /** Whether the fan-out of the log's last message has yet to come to a connection. */
  function Due(s: State, c: ConnId): nat {
    if s.phase.Fanning? && c in s.phase.todo then 1 else 0
  }

  /** Where a connection in the map stands: served up to the log's end, or one short while the fan-out is due. */
  predicate UpToDate(s: State, c: ConnId)
    requires c in s.clients
  {
    Served(s.clients[c]) == |s.log| - Due(s, c)
  }

  ghost predicate StandsWell(s: State, c: ConnId)
    requires c in s.clients
  {
    && ClientOk(s.clients[c], s.log)
    && (c in s.connections <==> s.clients[c].left == STAYS)
    && (c in s.connections ==> UpToDate(s, c))
  }

  function InHand(phase: Phase): seq<Message> {
    if phase.Dequeued? then [phase.msg] else []
  }

  ghost predicate Inv(s: State) {
    && |s.broadcast| <= CAPACITY
    && s.accepted == s.log + InHand(s.phase) + s.broadcast
    && s.connections <= s.clients.Keys
    && (s.phase.Fanning? ==>
          s.phase.todo <= s.connections && s.log != [] && s.log[|s.log| - 1] == s.phase.msg)
    && (forall c :: c in s.clients ==> StandsWell(s, c))
  }

  lemma LogGrows(client: Client, log: seq<Message>, msg: Message)
    requires ClientOk(client, log)
    ensures ClientOk(client, log + [msg])
  {
  }

  /** Messages move between `broadcast` and the hand of `run`; the log and the connections stay as they are. */
  lemma QueueMoveKeepsInv(s: State, t: State)
    requires Inv(s) && t == s.(broadcast := t.broadcast, phase := t.phase, accepted := t.accepted)
    requires |t.broadcast| <= CAPACITY && t.accepted == t.log + InHand(t.phase) + t.broadcast
    requires t.phase == s.phase || (!t.phase.Fanning? && (s.phase.Fanning? ==> s.phase.todo == {}))
    ensures Inv(t)
  {
    forall c | c in t.clients ensures StandsWell(t, c) {
      assert StandsWell(s, c) && Due(t, c) == Due(s, c);
    }
  }

  lemma QuietStepKeepsInv(s: State, step: Step)
    requires Inv(s) && Enabled(s, step) && (step.Offer? || step.Dequeue? || step.Unlock?)
    ensures Inv(Apply(s, step))
  {
    var t := Apply(s, step);
    assert t.accepted == t.log + InHand(t.phase) + t.broadcast;
    QueueMoveKeepsInv(s, t);
  }

  /** Every connection in the map is now due, and one behind the log that has grown by one. */
  lemma LockKeepsInv(s: State)
    requires Inv(s) && Enabled(s, LockForReading)
    ensures Inv(Apply(s, LockForReading))
  {
    var t := Apply(s, LockForReading);
    forall c | c in t.clients ensures StandsWell(t, c) {
      assert StandsWell(s, c);
      LogGrows(s.clients[c], s.log, s.phase.msg);
    }
  }

  lemma MeetWithRoom(client: Client, log: seq<Message>, msg: Message)
    requires ClientOk(client, log) && client.left == STAYS && |client.queue| < CAPACITY
    requires log != [] && log[|log| - 1] == msg && Served(client) == |log| - 1
    ensures ClientOk(Put(client, Fanned(msg)), log) && Served(Put(client, Fanned(msg))) == |log|
  {
  }

  lemma MeetWithoutRoom(client: Client, log: seq<Message>)
    requires ClientOk(client, log) && client.left == STAYS && |client.queue| == CAPACITY
    requires log != [] && Served(client) == |log| - 1
    ensures ClientOk(client.(closed := true, closings := client.closings + 1, left := |log| - 1), log)
  {
  }

  lemma MeetKeepsClient(client: Client, log: seq<Message>, msg: Message)
    requires ClientOk(client, log) && client.left == STAYS
    requires log != [] && log[|log| - 1] == msg && Served(client) == |log| - 1
    ensures var met := Meet(client, msg, |log| - 1);
            ClientOk(met, log)
            && (met.left == STAYS <==> |client.queue| < CAPACITY) && (met.left == STAYS ==> Served(met) == |log|)
  {
    if |client.queue| < CAPACITY {
      MeetWithRoom(client, log, msg);
    } else {
      MeetWithoutRoom(client, log);
    }
  }

  /** When only `c` changes, and leaves the todo list or not, every other connection stands where it stood. */
  lemma OthersStandAsBefore(s: State, t: State, c: ConnId)
    requires Inv(s)
    requires t.log == s.log && t.clients.Keys == s.clients.Keys + {c}
    requires forall k :: k in s.clients && k != c ==> t.clients[k] == s.clients[k]
    requires s.phase == t.phase
             || (s.phase.Fanning? && t.phase == Fanning(s.phase.msg, s.phase.todo - {c}))
    requires t.connections - {c} == s.connections - {c} && t.connections <= t.clients.Keys
    ensures forall k :: k in t.clients && k != c ==> StandsWell(t, k)
  {
    forall k | k in t.clients && k != c ensures StandsWell(t, k) {
      assert k in t.connections - {c} <==> k in s.connections - {c};
      assert StandsWell(s, k);
    }
  }

  /** The state after the fan-out has met `c`, given what became of it. */
  function Met(s: State, c: ConnId, client: Client, stays: bool): State
    requires s.phase.Fanning?
  {
    s.(phase := s.phase.(todo := s.phase.todo - {c}), clients := s.clients[c := client],
       connections := if stays then s.connections else s.connections - {c})
  }

  lemma MetKeepsInv(s: State, c: ConnId, client: Client, stays: bool)
    requires Inv(s) && s.phase.Fanning? && c in s.phase.todo && c in s.connections
    requires ClientOk(client, s.log) && (stays <==> client.left == STAYS)
    requires stays ==> Served(client) == |s.log|
    ensures Inv(Met(s, c, client, stays))
  {
    OthersStandAsBefore(s, Met(s, c, client, stays), c);
  }

  /** A connection that the fan-out comes to is in the map and one message behind. */
  lemma DueStandsOneBehind(s: State, c: ConnId)
    requires Inv(s) && Enabled(s, FanTo(c))
    ensures c in s.connections && ClientOk(s.clients[c], s.log) && s.clients[c].left == STAYS
    ensures Served(s.clients[c]) == |s.log| - 1 && s.log[|s.log| - 1] == s.phase.msg
  {
    assert StandsWell(s, c);
  }

  function FanOutcome(s: State, c: ConnId): Client
    requires Enabled(s, FanTo(c))
  {
    Meet(s.clients[c], s.phase.msg, |s.log| - 1)
  }

  lemma FanKeepsInv(s: State, c: ConnId)
    requires Inv(s) && Enabled(s, FanTo(c))
    ensures Inv(Met(s, c, FanOutcome(s, c), |s.clients[c].queue| < CAPACITY))
  {
    DueStandsOneBehind(s, c);
    MeetKeepsClient(s.clients[c], s.log, s.phase.msg);
    MetKeepsInv(s, c, FanOutcome(s, c), |s.clients[c].queue| < CAPACITY);
  }

  lemma FanIsMet(s: State, c: ConnId)
    requires Enabled(s, FanTo(c))
    ensures Apply(s, FanTo(c)) == Met(s, c, FanOutcome(s, c), |s.clients[c].queue| < CAPACITY)
  {
  }

  lemma SnapshotKeepsClient(client: Client, log: seq<Message>, data: Message)
    requires ClientOk(client, log) && client.stage == Joining && !client.closed && |client.queue| < CAPACITY
    ensures ClientOk(Put(client, Snapshot(data)).(stage := Pumping), log)
    ensures Served(Put(client, Snapshot(data))) == Served(client)
  {
  }

  lemma DrainKeepsClient(client: Client, log: seq<Message>)
    requires ClientOk(client, log) && client.stage == Pumping && client.queue != []
    ensures ClientOk(client.(queue := client.queue[1..], taken := client.taken + [client.queue[0]]), log)
  {
  }

  /** A client whose channel history from `run` and whose place in the map stay the same. */
  lemma ReplaceClientKeepsInv(s: State, c: ConnId, client: Client)
    requires Inv(s) && c in s.clients && ClientOk(client, s.log)
    requires Served(client) == Served(s.clients[c]) && client.left == s.clients[c].left
    ensures Inv(s.(clients := s.clients[c := client]))
  {
  }

  lemma DrainKeepsInv(s: State, c: ConnId)
    requires Inv(s) && Enabled(s, Drain(c))
    ensures Inv(Apply(s, Drain(c)))
  {
    var client := s.clients[c];
    assert StandsWell(s, c);
    DrainKeepsClient(client, s.log);
    ReplaceClientKeepsInv(s, c, client.(queue := client.queue[1..], taken := client.taken + [client.queue[0]]));
  }

  lemma SnapshotKeepsInv(s: State, c: ConnId, data: Message)
    requires Inv(s) && Enabled(s, SendDeviceList(c, data))
    ensures Inv(Apply(s, SendDeviceList(c, data)))
  {
    var client := s.clients[c];
    assert StandsWell(s, c);
    if client.closed {
      ReplaceClientKeepsInv(s, c, client.(stage := Aborted));
    } else if |client.queue| < CAPACITY {
      SnapshotKeepsClient(client, s.log, data);
      ReplaceClientKeepsInv(s, c, Put(client, Snapshot(data)).(stage := Pumping));
    } else {
      ReplaceClientKeepsInv(s, c, client.(stage := Pumping));
    }
  }

  lemma SkipKeepsInv(s: State, c: ConnId)
    requires Inv(s) && Enabled(s, SkipDeviceList(c))
    ensures Inv(Apply(s, SkipDeviceList(c)))
  {
    assert StandsWell(s, c);
    ReplaceClientKeepsInv(s, c, s.clients[c].(stage := Pumping));
  }

  lemma ConnectKeepsInv(s: State, c: ConnId)
    requires Inv(s) && Enabled(s, Connect(c))
    ensures Inv(Apply(s, Connect(c)))
  {
  }

  lemma LeaveKeepsClient(client: Client, log: seq<Message>)
    requires ClientOk(client, log) && client.stage == Pumping && client.left == STAYS && Served(client) == |log|
    ensures ClientOk(client.(left := |log|), log)
  {
  }

  /** A connection in the map leaves it. */
  lemma LeaverKeepsInv(s: State, c: ConnId)
    requires Inv(s) && c in s.connections && s.clients[c].stage == Pumping && !s.phase.Fanning?
    ensures Inv(s.(connections := s.connections - {c}, clients := s.clients[c := s.clients[c].(left := |s.log|)]))
  {
    var client := s.clients[c].(left := |s.log|);
    var t := s.(connections := s.connections - {c}, clients := s.clients[c := client]);
    assert StandsWell(s, c);
    LeaveKeepsClient(s.clients[c], s.log);
    OthersStandAsBefore(s, t, c);
    assert StandsWell(t, c);
  }

  lemma LeaveKeepsInv(s: State, c: ConnId)
    requires Inv(s) && Enabled(s, Leave(c))
    ensures Inv(Apply(s, Leave(c)))
  {
    if c in s.connections {
      LeaverKeepsInv(s, c);
    } else {
      assert s.connections - {c} == s.connections;
      assert Apply(s, Leave(c)) == s;
    }
  }

  lemma StepKeepsInv(s: State, step: Step)
    requires Inv(s) && Enabled(s, step)
    ensures Inv(Apply(s, step))
  {
    match step
    case FanTo(c) => FanIsMet(s, c); FanKeepsInv(s, c);
    case Connect(c) => ConnectKeepsInv(s, c);
    case SendDeviceList(c, data) => SnapshotKeepsInv(s, c, data);
    case SkipDeviceList(c) => SkipKeepsInv(s, c);
    case Drain(c) => DrainKeepsInv(s, c);
    case Leave(c) => LeaveKeepsInv(s, c);
    case LockForReading => LockKeepsInv(s);
    case _ => QuietStepKeepsInv(s, step);
  }

  lemma {:induction false} RunKeepsInv(s: State, steps: seq<Step>)
    requires Inv(s) && CanRun(s, steps)
    ensures Inv(Run(s, steps))
    decreases |steps|
  {
    if steps != [] {
      StepKeepsInv(s, steps[0]);
      RunKeepsInv(Apply(s, steps[0]), steps[1..]);
    }
  }

  // ---------------------------------------------------------------- what every run guarantees

  lemma ReachableInv(steps: seq<Step>)
    requires CanRun(Initial(), steps)
    ensures Inv(Run(Initial(), steps))
  {
    RunKeepsInv(Initial(), steps);
  }

  /**
   Gap-free delivery. The messages `run` put into a connection's channel are the log of fanned-out messages
   from the position where it joined to the one where it left, or to the log's end while it is connected and
   no fan-out is due to it; at most one snapshot is among them; and the pump has taken them in order.
   */
  lemma GapFree(steps: seq<Step>, c: ConnId)
    requires CanRun(Initial(), steps) && c in Run(Initial(), steps).clients
    ensures var s := Run(Initial(), steps);
            var client := s.clients[c];
            && 0 <= client.joined <= Served(client) <= |s.log|
            && FromRun(client.sent) == s.log[client.joined..Served(client)]
            && Snapshots(client.sent) <= 1
            && client.taken <= client.sent && client.sent[|client.taken|..] == client.queue
            && (c !in s.connections ==> Served(client) == client.left)
            && (c in s.connections && !s.phase.Fanning? ==> Served(client) == |s.log|)
            && (c in s.connections ==> |s.log| - 1 <= Served(client))
  {
    var s := Run(Initial(), steps);
    ReachableInv(steps);
    assert StandsWell(s, c);
  }

  /** The log is what was accepted, in order: nothing between `broadcast` and the log is lost or swapped. */
  lemma AcceptedInOrder(steps: seq<Step>)
    requires CanRun(Initial(), steps)
    ensures var s := Run(Initial(), steps);
            s.log <= s.accepted && s.accepted[|s.log|..] == InHand(s.phase) + s.broadcast && |s.broadcast| <= CAPACITY
  {
    ReachableInv(steps);
    var s := Run(Initial(), steps);
    assert s.accepted == s.log + (InHand(s.phase) + s.broadcast);
  }

  /** What writePump has taken is, snapshot apart, itself a gap-free piece of the log from the joining on. */
  lemma TakenIsGapFree(steps: seq<Step>, c: ConnId)
    requires CanRun(Initial(), steps) && c in Run(Initial(), steps).clients
    ensures var s := Run(Initial(), steps);
            var client := s.clients[c];
            client.joined + |FromRun(client.taken)| <= |s.log|
            && FromRun(client.taken) == s.log[client.joined..client.joined + |FromRun(client.taken)|]
  {
    var s := Run(Initial(), steps);
    ReachableInv(steps);
    assert StandsWell(s, c);
    TakenIsSlice(s.clients[c], s.log);
  }

  lemma TakenIsSlice(client: Client, log: seq<Message>)
    requires IsSlice(client, log) && client.sent == client.taken + client.queue
    ensures client.joined + |FromRun(client.taken)| <= |log|
    ensures FromRun(client.taken) == log[client.joined..client.joined + |FromRun(client.taken)|]
  {
    FromRunOfPrefix(client.taken, client.queue);
    var n := |FromRun(client.taken)|;
    assert FromRun(client.taken) == FromRun(client.sent)[..n];
  }

  lemma {:induction false} FromRunOfPrefix(a: seq<Item>, b: seq<Item>)
    ensures FromRun(a) <= FromRun(a + b)
    decreases |b|
  {
    if b == [] {
      assert a + b == a;
    } else {
      var n := |b| - 1;
      assert a + b == (a + b[..n]) + [b[n]];
      PutAppends(a + b[..n], b[n]);
      FromRunOfPrefix(a, b[..n]);
    }
  }

  /** The device lists among some items, in order. */
  function Lists(items: seq<Item>): seq<Message> {
    if items == [] then []
    else Lists(items[..|items| - 1]) + if items[|items| - 1].Snapshot? then [items[|items| - 1].data] else []
  }

  lemma ListAppended(items: seq<Item>, item: Item)
    ensures Lists(items + [item]) == Lists(items) + if item.Snapshot? then [item.data] else []
  {
    assert (items + [item])[..|items|] == items;
  }

  lemma {:induction false} NoSnapshotNoList(items: seq<Item>)
    requires Snapshots(items) == 0
    ensures Lists(items) == []
  {
    if items != [] {
      NoSnapshotNoList(items[..|items| - 1]);
    }
  }

  /** What steps leave of a connection that is past its device list: nothing is sent to it but by the fan-out. */
  predicate SentStays(client: Client, after: Client) {
    after.stage != Joining && after.sent == client.sent
  }

  lemma OtherStepKeepsSent(s: State, step: Step, c: ConnId)
    requires Enabled(s, step) && !step.FanTo? && c in s.clients && s.clients[c].stage != Joining
    ensures c in Apply(s, step).clients && SentStays(s.clients[c], Apply(s, step).clients[c])
  {
  }

  lemma FanKeepsLists(s: State, k: ConnId, c: ConnId)
    requires Enabled(s, FanTo(k)) && c in s.clients && s.clients[c].stage != Joining
    ensures c in Apply(s, FanTo(k)).clients && Apply(s, FanTo(k)).clients[c].stage != Joining
    ensures Lists(Apply(s, FanTo(k)).clients[c].sent) == Lists(s.clients[c].sent)
  {
    if k == c {
      ListAppended(s.clients[c].sent, Fanned(s.phase.msg));
    }
  }

  /** No step but sendDeviceList's puts a device list into a channel, and that comes before the pumps. */
  lemma StepKeepsLists(s: State, step: Step, c: ConnId)
    requires Enabled(s, step) && c in s.clients && s.clients[c].stage != Joining
    ensures c in Apply(s, step).clients && Apply(s, step).clients[c].stage != Joining
    ensures Lists(Apply(s, step).clients[c].sent) == Lists(s.clients[c].sent)
  {
    if step.FanTo? {
      FanKeepsLists(s, step.c, c);
    } else {
      OtherStepKeepsSent(s, step, c);
    }
  }

  lemma {:induction false} RunKeepsLists(s: State, steps: seq<Step>, c: ConnId)
    requires Inv(s) && CanRun(s, steps) && c in s.clients && s.clients[c].stage != Joining
    ensures c in Run(s, steps).clients && Lists(Run(s, steps).clients[c].sent) == Lists(s.clients[c].sent)
    decreases |steps|
  {
    if steps != [] {
      StepKeepsInv(s, steps[0]);
      StepKeepsLists(s, steps[0], c);
      RunKeepsLists(Apply(s, steps[0]), steps[1..], c);
    }
  }

  /**
   A connection whose device list met an open channel with room has it, and only it, among all that is ever put into
   its channel; one whose channel was full or closed never gets any.
   */
  lemma DeviceListIsDelivered(steps: seq<Step>, c: ConnId, data: Message, later: seq<Step>)
    requires CanRun(Initial(), steps) && Enabled(Run(Initial(), steps), SendDeviceList(c, data))
    requires CanRun(Apply(Run(Initial(), steps), SendDeviceList(c, data)), later)
    ensures var client := Run(Initial(), steps).clients[c];
            var end := Run(Apply(Run(Initial(), steps), SendDeviceList(c, data)), later);
            c in end.clients
            && Lists(end.clients[c].sent) == if !client.closed && |client.queue| < 256 then [data] else []
  {
    var s := Run(Initial(), steps);
    ReachableInv(steps);
    assert StandsWell(s, c);
    NoSnapshotNoList(s.clients[c].sent);
    ListAppended(s.clients[c].sent, Snapshot(data));
    StepKeepsInv(s, SendDeviceList(c, data));
    RunKeepsLists(Apply(s, SendDeviceList(c, data)), later, c);
  }

  /** The pumps start, with or without a device list, unless sending it has hit a closed channel. */
  lemma PumpsStart(s: State, c: ConnId, data: Message)
    requires Enabled(s, SkipDeviceList(c)) && Enabled(s, SendDeviceList(c, data))
    ensures Apply(s, SkipDeviceList(c)) == s.(clients := s.clients[c := s.clients[c].(stage := Pumping)])
    ensures Apply(s, SendDeviceList(c, data)).clients[c].stage == if s.clients[c].closed then Aborted else Pumping
  {
  }

  /** `run` closes a channel at most once, and never meets a connection whose channel is closed. */
  lemma NeverSendsOnClosed(steps: seq<Step>, c: ConnId)
    requires CanRun(Initial(), steps) && c in Run(Initial(), steps).clients
    ensures var s := Run(Initial(), steps);
            s.clients[c].closings <= 1 && (Enabled(s, FanTo(c)) ==> !s.clients[c].closed)
  {
    var s := Run(Initial(), steps);
    ReachableInv(steps);
    assert StandsWell(s, c);
  }

  lemma {:induction false} ItemsAreEither(items: seq<Item>)
    ensures |FromRun(items)| + Snapshots(items) == |items|
  {
    if items != [] {
      ItemsAreEither(items[..|items| - 1]);
    }
  }

  /**
   sendDeviceList takes no lock. Its send hits a closed channel exactly when the fan-out has come to the
   connection more than 256 times since it was put into the map.
   */
  lemma SnapshotPanicsExactly(steps: seq<Step>, c: ConnId)
    requires CanRun(Initial(), steps) && c in Run(Initial(), steps).clients
    requires Run(Initial(), steps).clients[c].stage == Joining
    ensures var s := Run(Initial(), steps);
            s.clients[c].closed <==> 256 < |s.log| - Due(s, c) - s.clients[c].joined
  {
    var s := Run(Initial(), steps);
    ReachableInv(steps);
    assert StandsWell(s, c);
    ItemsAreEither(s.clients[c].sent);
  }

  // ---------------------------------------------------------------- beyond capacity

  lemma RunFirst(s: State, step: Step, rest: seq<Step>)
    requires Enabled(s, step) && CanRun(Apply(s, step), rest)
    ensures CanRun(s, [step] + rest) && Run(s, [step] + rest) == Run(Apply(s, step), rest)
  {
  }

  /** One connection that is still waiting for its snapshot, and nothing else going on. */
  predicate Lonely(s: State, c: ConnId) {
    && s.phase.Idle? && s.broadcast == [] && s.connections == {c} && c in s.clients
    && s.clients[c].stage == Joining && !s.clients[c].closed && |s.clients[c].queue| <= CAPACITY
  }

  /** One message offered, dequeued and fanned out. */
  function Round(s: State, c: ConnId): State
    requires Lonely(s, c)
  {
    s.(accepted := s.accepted + ["m"], log := s.log + ["m"],
       clients := s.clients[c := Meet(s.clients[c], "m", |s.log|)],
       connections := if |s.clients[c].queue| < CAPACITY then {c} else {})
  }

  lemma RoundIsRun(s: State, c: ConnId, rest: seq<Step>) returns (steps: seq<Step>)
    requires Lonely(s, c) && CanRun(Round(s, c), rest)
    ensures CanRun(s, steps) && Run(s, steps) == Run(Round(s, c), rest)
  {
    var s1 := Apply(s, Offer("m"));
    var s2 := Apply(s1, Dequeue);
    var s3 := Apply(s2, LockForReading);
    var s4 := Apply(s3, FanTo(c));
    var s5 := Apply(s4, Unlock);
    assert s2.broadcast == [] && s1.broadcast == ["m"];
    assert s5 == Round(s, c) by {
      assert s.connections - {c} == {};
    }
    RunFirst(s4, Unlock, rest);
    RunFirst(s3, FanTo(c), [Unlock] + rest);
    var late := [FanTo(c)] + ([Unlock] + rest);
    RunFirst(s2, LockForReading, late);
    RunFirst(s1, Dequeue, [LockForReading] + late);
    RunFirst(s, Offer("m"), [Dequeue] + ([LockForReading] + late));
    steps := [Offer("m")] + ([Dequeue] + ([LockForReading] + late));
  }

  lemma {:induction false} FillUntilPanic(s: State, c: ConnId) returns (steps: seq<Step>)
    requires Lonely(s, c)
    ensures CanRun(s, steps) && c in Run(s, steps).clients && Run(s, steps).clients[c].stage == Aborted
    decreases CAPACITY - |s.clients[c].queue|
  {
    var t := Round(s, c);
    var rest: seq<Step>;
    if |s.clients[c].queue| < CAPACITY {
      rest := FillUntilPanic(t, c);
    } else {
      rest := [SendDeviceList(c, "devices")];
      RunFirst(t, SendDeviceList(c, "devices"), []);
      assert [SendDeviceList(c, "devices")] + [] == rest;
    }
    steps := RoundIsRun(s, c, rest);
  }

  /** The panic is real: some run closes a channel before its snapshot is sent. */
  lemma SnapshotCanPanic(c: ConnId)
    ensures exists steps :: CanRun(Initial(), steps) && c in Run(Initial(), steps).clients
                            && Run(Initial(), steps).clients[c].stage == Aborted
  {
    var s := Apply(Initial(), Connect(c));
    var rest := FillUntilPanic(s, c);
    RunFirst(Initial(), Connect(c), rest);
  }
}
