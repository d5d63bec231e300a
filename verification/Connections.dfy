/**
 The tunnel client inside the container: `ConnectionManager` and the per-connection tasks
 (`connection.rs`), message dispatch and the reconnect loop (`tunnel.rs`).

 A task outlives its entry in the manager's map: dropping a JoinHandle detaches the task. So
 `tasks` lists every task ever spawned and the map refers into it. An entry of the map holds
 the only sender of that task's channel.
 */
module Connections {
  import opened Wrappers
  import opened Frames
  import opened Logs

  /** `mpsc::channel::<Bytes>(256)` */
  const CHANNEL_CAPACITY := 256

  datatype DialState = Dialing | Dialed | Pumping | Failed

  datatype ReaderState = NotStarted | Reading | Closing | Ended

  /**
   `handle_tcp_connection` with its two pumps. `rxOpen` says the receiving half of the channel
   is alive; `hand` is the chunk the write pump has taken out and not yet written; `pending`
   is the chunk the read pump has read and not yet sent. `written` and `read` are the bytes
   that went into and came out of the service socket. `epoch` numbers the tunnel connection
   whose WebSocket sender the task holds; `port` is the service's, dialled with `proto`.
   */
  datatype Task = Task(
    id: u32, epoch: nat, proto: Proto, port: u16, dial: DialState,
    chan: seq<Bytes>, rxOpen: bool, hand: Option<Bytes>, written: Bytes,
    reader: ReaderState, read: Bytes, pending: Bytes)

  datatype Manager = Manager(connections: map<u32, nat>, tasks: seq<Task>)

  /** One received message: the new manager, what it sends back, or that it waits for channel room. */
  datatype Outcome = Stalled | Handled(mgr: Manager, reply: seq<Message>)

  function Spawned(id: u32, epoch: nat, proto: Proto, port: u16): Task {
    Task(id, epoch, proto, port, Dialing, [], true, None, [], NotStarted, [], [])
  }

  function WithReceiverDropped(t: Task): Task {
    t.(rxOpen := false, chan := [], hand := None)
  }

  ghost predicate WellFormed(m: Manager) {
    forall id <- m.connections :: m.connections[id] < |m.tasks|
  }

  function OnConnect(m: Manager, epoch: nat, id: u32, proto: Proto, port: u16): Manager {
    if id in m.connections then m
    else Manager(m.connections[id := |m.tasks|], m.tasks + [Spawned(id, epoch, proto, port)])
  }

  predicate HasRoom(m: Manager, id: u32)
    requires WellFormed(m)
  {
    id !in m.connections
    || !m.tasks[m.connections[id]].rxOpen
    || |m.tasks[m.connections[id]].chan| < CHANNEL_CAPACITY
  }

  function OnData(m: Manager, id: u32, payload: Bytes): Manager
    requires WellFormed(m)
  {
    if id !in m.connections || !m.tasks[m.connections[id]].rxOpen then m
    else
      var j := m.connections[id];
      m.(tasks := m.tasks[j := m.tasks[j].(chan := m.tasks[j].chan + [payload])])
  }

  function OnClose(m: Manager, id: u32): Manager {
    m.(connections := m.connections - {id})
  }

  function AfterShutdown(m: Manager): Manager {
    m.(connections := map[])
  }

  /** `handle_message`: anything that does not parse changes nothing. */
  function Dispatch(m: Manager, epoch: nat, data: Bytes): Outcome
    requires WellFormed(m)
  {
    match ParseHeader(data)
    case Err(_) => Handled(m, [])
    case Ok(h) =>
      match h.msgType
      case Connect => Handled(OnConnect(m, epoch, h.clientId, h.proto, h.port), [])
      case Data => if HasRoom(m, h.clientId) then Handled(OnData(m, h.clientId, GetPayload(data)), []) else Stalled
      case Close => Handled(OnClose(m, h.clientId), [])
      case Ping => Handled(m, [Message(Pong, h.clientId, 0, [])])
      case _ => Handled(m, [])
  }

  /** The manager object of one tunnel connection. */
  class ConnectionManager {
    const epoch: nat
    var connections: map<u32, nat>
    var tasks: seq<Task>

    ghost function View(): Manager
      reads this
    {
      Manager(connections, tasks)
    }

    ghost predicate Valid()
      reads this
    {
      WellFormed(View())
    }

    /** A new manager knows no connection; tasks of earlier managers may still run. */
    constructor (epoch: nat, tasks: seq<Task>)
      ensures Valid() && View() == Manager(map[], tasks) && this.epoch == epoch
    {
      this.epoch := epoch;
      this.connections := map[];
      this.tasks := tasks;
    }

    method HandleConnect(clientId: u32, proto: Proto, port: u16)
      requires Valid()
      modifies this
      ensures Valid() && View() == OnConnect(old(View()), epoch, clientId, proto, port)
    {
      if clientId in connections {
        return;
      }
      tasks := tasks + [Spawned(clientId, epoch, proto, port)];
      connections := connections[clientId := |tasks| - 1];
    }

    /** Waits (returns false) exactly when the connection's channel is alive and full. */
    method HandleData(clientId: u32, data: Bytes) returns (done: bool)
      requires Valid()
      modifies this
      ensures Valid() && done == old(HasRoom(View(), clientId))
      ensures View() == if done then OnData(old(View()), clientId, data) else old(View())
    {
      if clientId in connections {
        var j := connections[clientId];
        if tasks[j].rxOpen {
          if |tasks[j].chan| >= CHANNEL_CAPACITY {
            return false;
          }
          tasks := tasks[j := tasks[j].(chan := tasks[j].chan + [data])];
        }
      }
      return true;
    }

    method HandleClose(clientId: u32)
      requires Valid()
      modifies this
      ensures Valid() && View() == OnClose(old(View()), clientId)
    {
      if clientId in connections {
        connections := connections - {clientId};
      }
    }

    method Shutdown()
      requires Valid()
      modifies this
      ensures Valid() && View() == AfterShutdown(old(View()))
    {
      connections := map[];
    }

    method HandleMessage(data: Bytes) returns (done: bool, reply: seq<Message>)
      requires Valid()
      modifies this
      ensures Valid()
      ensures match Dispatch(old(View()), epoch, data)
              case Stalled => !done && View() == old(View())
              case Handled(mgr, sent) => done && View() == mgr && reply == sent
    {
      reply := [];
      done := true;
      if |data| < HEADER_SIZE {
        return;
      }
      var header := ParseHeader(data);
      if header.Err? {
        return;
      }
      var payload := GetPayload(data);
      match header.value.msgType {
        case Connect =>
          HandleConnect(header.value.clientId, header.value.proto, header.value.port);
        case Data =>
          done := HandleData(header.value.clientId, payload);
        case Close =>
          HandleClose(header.value.clientId);
        case Ping =>
          reply := [Message(Pong, header.value.clientId, 0, [])];
        case _ =>
      }
    }
  }

  // ---------------------------------------------------------------------------
  // What each kind of frame does

  /** CONNECT: a new id gets a fresh task for its own port, which has still to dial; a known id nothing. */
  lemma ConnectOpens(m: Manager, epoch: nat, proto: Proto, id: u32, port: u16, payload: Bytes)
    requires WellFormed(m)
    ensures var r := Dispatch(m, epoch, EncodeFrame(Header(Connect, proto, id, port), payload));
            && r.Handled? && r.reply == []
            && (id in m.connections ==> r.mgr == m)
            && (id !in m.connections ==>
                  && r.mgr.connections == m.connections[id := |m.tasks|]
                  && r.mgr.tasks == m.tasks + [Task(id, epoch, proto, port, Dialing, [], true, None, [], NotStarted, [], [])])
  {
    RustRoundTrip(Header(Connect, proto, id, port), payload);
  }

  /**
   DATA: goes behind what the channel of its id holds, touching nothing else; waits exactly when
   the receiver is there and 256 chunks are; is dropped for an unknown id or a dropped receiver.
   */
  lemma DataIsQueued(m: Manager, epoch: nat, proto: Proto, id: u32, port: u16, payload: Bytes)
    requires WellFormed(m)
    ensures var r := Dispatch(m, epoch, EncodeFrame(Header(Data, proto, id, port), payload));
            if id !in m.connections || !m.tasks[m.connections[id]].rxOpen then r == Handled(m, [])
            else if |m.tasks[m.connections[id]].chan| >= 256 then r == Stalled
            else
              var j := m.connections[id];
              && r.Handled? && r.reply == [] && r.mgr.connections == m.connections && |r.mgr.tasks| == |m.tasks|
              && (forall i :: 0 <= i < |m.tasks| && i != j ==> r.mgr.tasks[i] == m.tasks[i])
              && r.mgr.tasks[j] == m.tasks[j].(chan := m.tasks[j].chan + [payload])
  {
    RustRoundTrip(Header(Data, proto, id, port), payload);
  }

  /** CLOSE forgets the id only; PING is answered by a PONG with its id; the rest is ignored. */
  lemma OtherFrames(m: Manager, epoch: nat, proto: Proto, id: u32, port: u16, payload: Bytes)
    requires WellFormed(m)
    ensures var close := Dispatch(m, epoch, EncodeFrame(Header(Close, proto, id, port), payload));
            && close.Handled? && close.reply == [] && close.mgr.tasks == m.tasks
            && (forall other :: other in close.mgr.connections <==> other in m.connections && other != id)
            && (forall other <- close.mgr.connections :: close.mgr.connections[other] == m.connections[other])
    ensures Dispatch(m, epoch, EncodeFrame(Header(Ping, proto, id, port), payload)) == Handled(m, [Message(Pong, id, 0, [])])
    ensures forall kind <- {Connected, Error, Pong} ::
              Dispatch(m, epoch, EncodeFrame(Header(kind, proto, id, port), payload)) == Handled(m, [])
  {
    forall kind: MsgType
      ensures ParseHeader(EncodeFrame(Header(kind, proto, id, port), payload)) == Ok(Header(kind, proto, id, port))
    {
      RustRoundTrip(Header(kind, proto, id, port), payload);
    }
  }

  lemma MalformedIsIgnored(m: Manager, epoch: nat, data: Bytes)
    requires WellFormed(m) && !(|data| >= 8 && 1 <= data[0] <= 7 && data[1] <= 1)
    ensures Dispatch(m, epoch, data) == Handled(m, [])
  {
    RustAcceptsExactly(data);
  }

  // ---------------------------------------------------------------------------
  // `TunnelClient::run`

  /** The last `n` of the first `upTo` connection attempts all failed. */
  ghost predicate FailedInARow(connected: seq<bool>, upTo: nat, n: nat)
    requires upTo <= |connected|
  {
    n <= upTo && forall i :: upTo - n <= i < upTo ==> !connected[i]
  }

  /**
   The reconnect loop over the outcomes of successive attempts: it gives up after exactly the
   first `max` consecutive failures, and never when `max` is 0.
   */
  method Run(connected: seq<bool>, max: nat) returns (gaveUpAfter: Option<nat>)
    ensures gaveUpAfter.Some? ==>
              && max > 0 && gaveUpAfter.value <= |connected|
              && FailedInARow(connected, gaveUpAfter.value, max)
              && forall i :: 0 <= i < gaveUpAfter.value ==> !FailedInARow(connected, i, max)
    ensures gaveUpAfter.None? ==>
              max == 0 || forall i :: 0 <= i <= |connected| ==> !FailedInARow(connected, i, max)
  {
    var attempt := 0;
    var i := 0;
    while true
      invariant 0 <= i <= |connected| && 0 <= attempt <= i
      invariant max > 0 ==> attempt <= max
      invariant FailedInARow(connected, i, attempt)
      invariant attempt < i ==> connected[i - attempt - 1]
      invariant max > 0 ==> forall k :: 0 <= k < i ==> !FailedInARow(connected, k, max)
      decreases |connected| - i
    {
      attempt := attempt + 1;
      if max > 0 && attempt > max {
        return Some(i);
      }
      if i == |connected| {
        return None;
      }
      if connected[i] {
        attempt := 0;
      }
      i := i + 1;
    }
  }
}
