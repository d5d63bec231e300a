/**
 The CLI side of the tunnel (`forward.py`): `TunnelForwarder` and the state of the
 `handle_client` coroutines, one per accepted local connection.
 */
module Forwarders {
  import opened Wrappers
  import opened Frames

  /** `reader.read(65536)` */
  const READ_SIZE := 65536

  /** Where a `handle_client` coroutine stands. `Crashed`: `struct.pack` raised in `send_connect`. */
  datatype Pc = Start | Allocated | Registered | Relaying | Closing | Finishing | Done | Crashed

  /**
   A local connection and its coroutine. `read` is everything read from it, `pending` the part
   not yet sent; `wrote` is everything its writer accepted, `writerOpen` whether it still does.
   */
  datatype Client = Client(pc: Pc, id: nat, read: Bytes, pending: Bytes, wrote: Bytes, writerOpen: bool)

  datatype Forwarder = Forwarder(nextId: nat, connections: map<nat, nat>, clients: seq<Client>)

  ghost predicate WellFormed(f: Forwarder) {
    forall id <- f.connections :: f.connections[id] < |f.clients|
  }

  function WithClient(f: Forwarder, k: nat, c: Client): Forwarder
    requires k < |f.clients|
  {
    f.(clients := f.clients[k := c])
  }

  function WriterClosed(f: Forwarder, k: nat): Forwarder
    requires k < |f.clients|
  {
    WithClient(f, k, f.clients[k].(writerOpen := false))
  }

  /** The writer takes the payload, or, when it fails, only the first `accepted` bytes of it. */
  function Written(c: Client, payload: Bytes, accepted: nat): Client {
    if !c.writerOpen then c
    else if accepted >= |payload| then c.(wrote := c.wrote + payload)
    else c.(wrote := c.wrote + payload[..accepted], writerOpen := false)
  }

  /** `allocate_client_id`: the id handed out is the counter before. */
  function OnAllocate(f: Forwarder): Forwarder {
    f.(nextId := f.nextId + 1)
  }

  function OnRegister(f: Forwarder, id: nat, k: nat): Forwarder {
    f.(connections := f.connections[id := k])
  }

  function OnUnregister(f: Forwarder, id: nat): Forwarder {
    f.(connections := f.connections - {id})
  }

  /** `_handle_message` */
  function OnMessage(f: Forwarder, data: Bytes, accepted: nat): Forwarder
    requires WellFormed(f)
  {
    match UnpackHeader(data)
    case None => f
    case Some(h) =>
      if h.clientId !in f.connections then f
      else
        var k := f.connections[h.clientId];
        if h.msgType == MsgCode(Data) as int then
          WithClient(f, k, Written(f.clients[k], GetPayload(data), accepted))
        else if h.msgType == MsgCode(Close) as int || h.msgType == MsgCode(Error) as int then
          WriterClosed(OnUnregister(f, h.clientId), k)
        else f
  }

  class TunnelForwarder {
    var nextClientId: nat
    var connections: map<nat, nat>
    var clients: seq<Client>

    ghost function View(): Forwarder
      reads this
    {
      Forwarder(nextClientId, connections, clients)
    }

    ghost predicate Valid()
      reads this
    {
      WellFormed(View())
    }

    constructor ()
      ensures Valid() && View() == Forwarder(1, map[], [])
    {
      nextClientId := 1;
      connections := map[];
      clients := [];
    }

    /** Ids only grow, so none is handed out twice. */
    method AllocateClientId() returns (clientId: nat)
      requires Valid()
      modifies this
      ensures Valid() && clientId == old(nextClientId)
      ensures View() == OnAllocate(old(View()))
    {
      clientId := nextClientId;
      nextClientId := nextClientId + 1;
    }

    method RegisterConnection(clientId: nat, k: nat)
      requires Valid() && k < |clients|
      modifies this
      ensures Valid() && View() == OnRegister(old(View()), clientId, k)
    {
      connections := connections[clientId := k];
    }

    method UnregisterConnection(clientId: nat)
      requires Valid()
      modifies this
      ensures Valid() && View() == OnUnregister(old(View()), clientId)
    {
      connections := connections - {clientId};
    }

    method HandleMessage(data: Bytes, accepted: nat)
      requires Valid()
      modifies this
      ensures Valid() && View() == OnMessage(old(View()), data, accepted)
    {
      var header := UnpackHeader(data);
      if header.None? {
        return;
      }
      var payload := GetPayload(data);
      var id := header.value.clientId;
      if header.value.msgType == MsgCode(Data) as int {
        if id in connections {
          var k := connections[id];
          clients := clients[k := Written(clients[k], payload, accepted)];
        }
      } else if header.value.msgType == MsgCode(Close) as int || header.value.msgType == MsgCode(Error) as int {
        if id in connections {
          var k := connections[id];
          connections := connections - {id};
          clients := clients[k := clients[k].(writerOpen := false)];
        }
      }
    }
  }

  // ---------------------------------------------------------------------------
  // What each kind of frame does

  /** Everything but one client is as before. */
  ghost predicate OnlyClient(f: Forwarder, n: Forwarder, k: nat) {
    && n.nextId == f.nextId && |n.clients| == |f.clients|
    && forall i :: 0 <= i < |f.clients| && i != k ==> n.clients[i] == f.clients[i]
  }

  /** CLOSE or ERROR for a registered id: its writer is closed and its entry goes, and only that. */
  lemma EndClosesWriter(f: Forwarder, kind: MsgType, proto: Proto, id: u32, port: u16, payload: Bytes, accepted: nat)
    requires WellFormed(f) && id in f.connections && (kind == Close || kind == Error)
    ensures var n := OnMessage(f, EncodeFrame(Header(kind, proto, id, port), payload), accepted);
            var k := f.connections[id];
            && OnlyClient(f, n, k)
            && n.clients[k] == f.clients[k].(writerOpen := false)
            && (forall other :: other in n.connections <==> other in f.connections && other != id)
            && (forall other <- n.connections :: n.connections[other] == f.connections[other])
  {
    CodecsAgree(Header(kind, proto, id, port), payload);
    RustRoundTrip(Header(kind, proto, id, port), payload);
  }

  /** DATA for a registered id: its open writer takes the payload, or fails after a part of it. */
  lemma DataIsWritten(f: Forwarder, proto: Proto, id: u32, port: u16, payload: Bytes, accepted: nat)
    requires WellFormed(f) && id in f.connections
    ensures var n := OnMessage(f, EncodeFrame(Header(Data, proto, id, port), payload), accepted);
            var k := f.connections[id];
            && OnlyClient(f, n, k) && n.connections == f.connections
            && (!f.clients[k].writerOpen ==> n.clients[k] == f.clients[k])
            && (f.clients[k].writerOpen && accepted >= |payload| ==>
                  n.clients[k] == f.clients[k].(wrote := f.clients[k].wrote + payload))
            && (f.clients[k].writerOpen && accepted < |payload| ==>
                  n.clients[k] == f.clients[k].(wrote := f.clients[k].wrote + payload[..accepted], writerOpen := false))
  {
    CodecsAgree(Header(Data, proto, id, port), payload);
    RustRoundTrip(Header(Data, proto, id, port), payload);
  }

  /** Frames for unknown ids, of other types, or too short change nothing. */
  lemma OthersAreIgnored(f: Forwarder, h: Header, payload: Bytes, accepted: nat, short: Bytes)
    requires WellFormed(f) && |short| < 8
    requires h.clientId !in f.connections || h.msgType in {Connect, Connected, Ping, Pong}
    ensures OnMessage(f, EncodeFrame(h, payload), accepted) == f
    ensures OnMessage(f, short, accepted) == f
  {
    CodecsAgree(h, payload);
  }
}
