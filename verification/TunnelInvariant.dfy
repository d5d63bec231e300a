/** The invariant of the tunnel's step system, and its preservation by every step. */
module TunnelInvariant {
  import opened Wrappers
  import opened Frames
  import opened Logs
  import opened Tunnel
  import C = Connections
  import F = Forwarders

  // ---------------------------------------------------------------------------
  // The invariant, one part per component

  /** Each id was given to exactly one client, and each started client has exactly one id. */
  ghost predicate IdsOk(f: F.Forwarder, alloc: seq<nat>) {
    && f.nextId == |alloc| + 1
    && (forall id {:trigger alloc[id - 1]} :: 1 <= id <= |alloc| ==>
                                                && alloc[id - 1] < |f.clients|
                                                && f.clients[alloc[id - 1]].pc != F.Start
                                                && f.clients[alloc[id - 1]].id == id)
    && (forall k :: 0 <= k < |f.clients| && f.clients[k].pc != F.Start ==>
                      && 1 <= f.clients[k].id <= |alloc|
                      && alloc[f.clients[k].id - 1] == k)
  }

  ghost predicate TableOk(connections: map<nat, nat>, alloc: seq<nat>) {
    forall id <- connections :: 1 <= id <= |alloc| && connections[id] == alloc[id - 1]
  }

  /** For each id: CONNECT comes first, nothing follows CLOSE. */
  ghost predicate WireOk(wire: seq<Message>, ids: nat) {
    && (forall i :: 0 <= i < |wire| ==> 1 <= wire[i].id <= ids && wire[i].kind in {Connect, Data, Close})
    && (forall i, j :: 0 <= i < j < |wire| && wire[j].kind == Connect ==> wire[i].id != wire[j].id)
    && (forall i, j :: 0 <= i < j < |wire| && wire[i].kind == Close ==> wire[i].id != wire[j].id)
  }

  ghost predicate NothingYet(c: F.Client, wire: seq<Message>) {
    c.read == c.pending == c.wrote == [] && Silent(wire, |wire|, c.id)
  }

  ghost predicate Balanced(c: F.Client, wire: seq<Message>) {
    c.id < U32_LIMIT && DataOf(wire, |wire|, c.id) + c.pending == c.read
  }

  /** What a coroutine has put on the wire so far, by where it stands. */
  ghost predicate ClientOk(c: F.Client, wire: seq<Message>, cliUp: bool) {
    match c.pc
    case Start => c.id == 0 && c.read == c.pending == c.wrote == []
    case Allocated => NothingYet(c, wire)
    case Registered => NothingYet(c, wire)
    case Crashed => NothingYet(c, wire) && c.id >= U32_LIMIT
    case Relaying => Balanced(c, wire) && Sent(wire, |wire|, Connect, c.id) && !Sent(wire, |wire|, Close, c.id)
    case Closing => Balanced(c, wire) && Sent(wire, |wire|, Connect, c.id) && !Sent(wire, |wire|, Close, c.id)
    case Finishing => Balanced(c, wire) && (cliUp ==> Sent(wire, |wire|, Close, c.id))
    case Done => Balanced(c, wire) && (cliUp ==> Sent(wire, |wire|, Close, c.id))
  }

  /** Before registering and after the end a client has no entry; one that crashed keeps its entry. */
  predicate Unlisted(pc: F.Pc) {
    pc.Start? || pc.Allocated? || pc.Done?
  }

  predicate Listed(pc: F.Pc) {
    pc.Registered? || pc.Crashed?
  }

  /** What a local writer has taken, and when its entry is in the forwarder's table. */
  ghost predicate LocalOk(c: F.Client, connections: map<nat, nat>, back: seq<Message>, got: nat)
    requires got <= |back|
  {
    && c.wrote <= DataOf(back, got, c.id)
    && (c.id in connections && c.writerOpen ==> c.wrote == DataOf(back, got, c.id))
    && (Unlisted(c.pc) ==> c.id !in connections)
    && (Listed(c.pc) ==> c.id in connections)
  }

  /** Nobody answers for an id before its CONNECT was handled. */
  ghost predicate BackOk(back: seq<Message>, wire: seq<Message>, taken: nat)
    requires taken <= |wire|
  {
    forall i {:trigger back[i]} :: 0 <= i < |back| ==> Sent(wire, taken, Connect, back[i].id)
  }

  ghost predicate HasTask(tasks: seq<C.Task>, id: nat) {
    exists j :: 0 <= j < |tasks| && tasks[j].id == id
  }

  /** Every answer came from a task of its id. */
  ghost predicate AnswersOk(back: seq<Message>, tasks: seq<C.Task>) {
    forall i {:trigger back[i]} :: 0 <= i < |back| ==> HasTask(tasks, back[i].id)
  }

  ghost predicate UniqueIds(tasks: seq<C.Task>) {
    forall i, j :: 0 <= i < j < |tasks| ==> tasks[i].id != tasks[j].id
  }

  /** The bytes a task holds or has written, in order. */
  ghost function Concat(chunks: seq<Bytes>): Bytes {
    if chunks == [] then [] else chunks[0] + Concat(chunks[1..])
  }

  ghost function InHand(t: C.Task): Bytes {
    if t.hand.Some? then t.hand.value else []
  }

  ghost function Accounted(t: C.Task): Bytes {
    t.written + InHand(t) + Concat(t.chan)
  }

  ghost predicate TaskOk(t: C.Task, wire: seq<Message>, taken: nat, back: seq<Message>, live: bool)
    requires taken <= |wire|
  {
    && Sent(wire, taken, Connect, t.id)
    && Accounted(t) <= DataOf(wire, taken, t.id)
    && (live && t.rxOpen ==> Accounted(t) == DataOf(wire, taken, t.id))
    && (!t.rxOpen ==> t.chan == [] && t.hand == None)
    && DataOf(back, |back|, t.id) <= t.read
    && (live ==> DataOf(back, |back|, t.id) + t.pending == t.read)
  }

  ghost predicate TasksOk(s: State)
    requires Consistent(s)
  {
    && UniqueIds(s.mgr.tasks)
    && (forall j :: 0 <= j < |s.mgr.tasks| ==> s.mgr.tasks[j].epoch <= s.epoch)
    && (forall j :: 0 <= j < |s.mgr.tasks| ==> TaskOk(s.mgr.tasks[j], s.wire, s.taken, s.back, Live(s, j)))
  }

  /** The manager's map against the messages handled: exactly the live ids without a CLOSE. */
  ghost predicate MapOk(s: State)
    requires Consistent(s)
  {
    && (!s.linkUp ==> s.mgr.connections == map[])
    && (forall id <- s.mgr.connections ::
          && s.mgr.tasks[s.mgr.connections[id]].id == id
          && Live(s, s.mgr.connections[id])
          && !Sent(s.wire, s.taken, Close, id))
    && (forall j :: 0 <= j < |s.mgr.tasks| && Live(s, j) && s.mgr.tasks[j].id !in s.mgr.connections ==>
                      Sent(s.wire, s.taken, Close, s.mgr.tasks[j].id))
  }

  ghost predicate ClientsOk(s: State)
    requires Consistent(s)
  {
    && (forall k :: 0 <= k < |s.fwd.clients| ==> ClientOk(s.fwd.clients[k], s.wire, s.cliUp))
    && (forall k :: 0 <= k < |s.fwd.clients| ==> LocalOk(s.fwd.clients[k], s.fwd.connections, s.back, s.got))
  }

  ghost predicate ServiceSide(s: State) {
    && Consistent(s)
    && WireOk(s.wire, |s.alloc|)
    && BackOk(s.back, s.wire, s.taken)
    && AnswersOk(s.back, s.mgr.tasks)
    && TasksOk(s)
    && MapOk(s)
  }

  ghost predicate Inv(s: State) {
    && ServiceSide(s)
    && IdsOk(s.fwd, s.alloc)
    && TableOk(s.fwd.connections, s.alloc)
    && ClientsOk(s)
  }

  // ---------------------------------------------------------------------------
  // Small facts

  lemma {:induction false} ConcatPush(chunks: seq<Bytes>, data: Bytes)
    ensures Concat(chunks + [data]) == Concat(chunks) + data
  {
    if chunks == [] {
      assert chunks + [data] == [data];
      assert Concat([data]) == data + Concat([]);
    } else {
      assert (chunks + [data])[1..] == chunks[1..] + [data];
      ConcatPush(chunks[1..], data);
    }
  }

  /** A message for another id leaves a client's account as it is. */
  lemma OtherClientKept(c: F.Client, wire: seq<Message>, m: Message, cliUp: bool)
    requires ClientOk(c, wire, cliUp) && c.id != m.id
    ensures ClientOk(c, wire + [m], cliUp)
  {
    AppendedFor(wire, m, c.id);
  }

  /** Messages the CLI appends are not yet handled: nothing on the other side sees them. */
  lemma UnhandledAppend(s: State, m: Message)
    requires Consistent(s) && TasksOk(s) && MapOk(s) && BackOk(s.back, s.wire, s.taken)
    ensures var next := s.(wire := s.wire + [m], reach := |s.wire| + 1);
            Consistent(next) && TasksOk(next) && MapOk(next) && BackOk(next.back, next.wire, next.taken)
  {
    Appended(s.wire, m);
    var next := s.(wire := s.wire + [m], reach := |s.wire| + 1);
    forall j | 0 <= j < |s.mgr.tasks|
      ensures TaskOk(s.mgr.tasks[j], next.wire, next.taken, next.back, Live(next, j))
    {
      assert TaskOk(s.mgr.tasks[j], s.wire, s.taken, s.back, Live(s, j));
      assert Live(next, j) == Live(s, j);
    }
  }

  lemma AnswersKept(back: seq<Message>, tasks: seq<C.Task>, next: seq<C.Task>)
    requires AnswersOk(back, tasks) && |tasks| <= |next|
    requires forall j :: 0 <= j < |tasks| ==> next[j].id == tasks[j].id
    ensures AnswersOk(back, next)
  {
    forall i | 0 <= i < |back|
      ensures HasTask(next, back[i].id)
    {
      assert HasTask(tasks, back[i].id);
      var j :| 0 <= j < |tasks| && tasks[j].id == back[i].id;
      assert next[j].id == back[i].id;
    }
  }

  // ---------------------------------------------------------------------------
  // Initially

  lemma InitInv(port: u16)
    ensures Inv(Init(port))
  {
  }

  // ---------------------------------------------------------------------------
  // The CLI's coroutines

  lemma AcceptKeeps(s: State)
    requires Inv(s)
    ensures Inv(Apply(s, Accept))
  {
    var next := Apply(s, Accept);
    assert 0 !in s.fwd.connections;
    assert TasksOk(next) && MapOk(next) by { TasksUntouched(s, next); }
  }

  /** Steps that only touch the CLI leave the other side's invariant alone. */
  lemma TasksUntouched(s: State, next: State)
    requires Consistent(s) && Consistent(next) && TasksOk(s) && MapOk(s)
    requires next.mgr == s.mgr && next.wire == s.wire && next.taken == s.taken && next.back == s.back
    requires next.linkUp == s.linkUp && next.epoch == s.epoch
    ensures TasksOk(next) && MapOk(next)
  {
    forall j | 0 <= j < |s.mgr.tasks|
      ensures TaskOk(next.mgr.tasks[j], next.wire, next.taken, next.back, Live(next, j))
    {
      assert TaskOk(s.mgr.tasks[j], s.wire, s.taken, s.back, Live(s, j));
      assert Live(next, j) == Live(s, j);
    }
    forall id <- next.mgr.connections
      ensures next.mgr.tasks[next.mgr.connections[id]].id == id && Live(next, next.mgr.connections[id])
      ensures !Sent(next.wire, next.taken, Close, id)
    {
      assert Live(s, s.mgr.connections[id]);
    }
  }

  /** Nothing came back yet for an id whose CONNECT was not sent. */
  lemma NothingBackYet(s: State, id: nat)
    requires Inv(s) && Silent(s.wire, |s.wire|, id)
    ensures Silent(s.back, |s.back|, id)
    ensures DataOf(s.back, s.got, id) == []
  {
    forall i | 0 <= i < |s.back|
      ensures s.back[i].id != id
    {
      assert Sent(s.wire, s.taken, Connect, s.back[i].id);
    }
    DataOfSilent(s.back, s.got, id);
  }

  lemma UpdateKeepsIds(f: F.Forwarder, alloc: seq<nat>, k: nat, c: F.Client, table: map<nat, nat>)
    requires IdsOk(f, alloc) && k < |f.clients|
    requires c.id == f.clients[k].id && (c.pc == F.Start <==> f.clients[k].pc == F.Start)
    ensures IdsOk(F.Forwarder(f.nextId, table, f.clients[k := c]), alloc)
  {
  }

  lemma AllocateKeepsIds(f: F.Forwarder, alloc: seq<nat>, k: nat)
    requires IdsOk(f, alloc) && k < |f.clients| && f.clients[k].pc == F.Start
    ensures var c := f.clients[k].(pc := F.Allocated, id := f.nextId);
            IdsOk(F.Forwarder(f.nextId + 1, f.connections, f.clients[k := c]), alloc + [k])
  {
    var more := alloc + [k];
    assert forall i :: 0 <= i < |alloc| ==> more[i] == alloc[i];
    assert forall id {:trigger alloc[id - 1]} :: 1 <= id <= |alloc| ==> alloc[id - 1] != k;
  }

  lemma ClientMoveKeepsTables(f: F.Forwarder, alloc: seq<nat>, k: nat, move: ClientMove, cliUp: bool)
    requires IdsOk(f, alloc) && TableOk(f.connections, alloc)
    requires k < |f.clients| && ClientMay(f.clients[k], move)
    ensures var next := ForwarderAfter(f, k, move, cliUp);
            var given := if move.Allocate? then alloc + [k] else alloc;
            IdsOk(next, given) && TableOk(next.connections, given)
  {
    if move.Allocate? {
      AllocateKeepsIds(f, alloc, k);
      assert forall id <- f.connections :: (alloc + [k])[id - 1] == alloc[id - 1];
    } else {
      var c := ClientAfter(f.clients[k], move, f.nextId, cliUp);
      UpdateKeepsIds(f, alloc, k, c, TablesAfter(f, k, move, cliUp).connections);
    }
  }

  lemma MoverKeepsLocal(f: F.Forwarder, k: nat, move: ClientMove, cliUp: bool, back: seq<Message>, got: nat)
    requires k < |f.clients| && ClientMay(f.clients[k], move) && got <= |back|
    requires LocalOk(f.clients[k], f.connections, back, got)
    requires move.Allocate? ==> f.clients[k].wrote == [] && f.nextId !in f.connections
    requires move.Register? ==> f.clients[k].wrote == DataOf(back, got, f.clients[k].id)
    requires f.clients[k].pc.Relaying? || f.clients[k].pc.Closing? ==> f.clients[k].id < U32_LIMIT
    ensures var next := ForwarderAfter(f, k, move, cliUp);
            LocalOk(next.clients[k], next.connections, back, got)
  {
    match move
    case Allocate =>
    case Register =>
    case _ =>
  }

  lemma MoverIsReady(s: State, k: nat, move: ClientMove)
    requires Inv(s) && k < |s.fwd.clients| && ClientMay(s.fwd.clients[k], move)
    ensures LocalOk(s.fwd.clients[k], s.fwd.connections, s.back, s.got)
    ensures move.Allocate? ==> s.fwd.clients[k].wrote == [] && s.fwd.nextId !in s.fwd.connections
    ensures move.Register? ==> s.fwd.clients[k].wrote == DataOf(s.back, s.got, s.fwd.clients[k].id)
    ensures s.fwd.clients[k].pc.Relaying? || s.fwd.clients[k].pc.Closing? ==> s.fwd.clients[k].id < U32_LIMIT
  {
    var c := s.fwd.clients[k];
    assert ClientOk(c, s.wire, s.cliUp);
    if move.Register? {
      NothingBackYet(s, c.id);
    }
  }

  lemma OthersKeepLocal(f: F.Forwarder, k: nat, move: ClientMove, cliUp: bool, back: seq<Message>, got: nat, i: nat)
    requires k < |f.clients| && ClientMay(f.clients[k], move) && got <= |back|
    requires i < |f.clients| && i != k && LocalOk(f.clients[i], f.connections, back, got)
    requires f.clients[k].pc.Start? || f.clients[i].id != f.clients[k].id
    ensures var next := ForwarderAfter(f, k, move, cliUp);
            LocalOk(next.clients[i], next.connections, back, got)
  {
    assert f.clients[i].id in TablesAfter(f, k, move, cliUp).connections <==> f.clients[i].id in f.connections;
  }

  lemma OthersHaveOtherIds(s: State, k: nat, i: nat)
    requires Inv(s) && k < |s.fwd.clients| && i < |s.fwd.clients| && i != k
    ensures s.fwd.clients[k].pc.Start? || s.fwd.clients[i].id != s.fwd.clients[k].id
  {
    assert IdsOk(s.fwd, s.alloc);
    assert ClientOk(s.fwd.clients[i], s.wire, s.cliUp);
  }

  lemma QuietMoverKeepsAccount(c: F.Client, move: ClientMove, nextId: nat, port: u16, wire: seq<Message>, cliUp: bool)
    requires ClientOk(c, wire, cliUp) && ClientMay(c, move)
    requires cliUp ==> ClientSays(c, move, port) == []
    requires Silent(wire, |wire|, nextId)
    ensures ClientOk(ClientAfter(c, move, nextId, cliUp), wire, cliUp)
  {
    match move
    case Allocate =>
    case Register =>
    case SendConnect => DataOfSilent(wire, |wire|, c.id);
    case LocalRead(_) =>
    case SendData =>
    case LocalEnd =>
    case SendClose =>
    case Finish =>
    case LocalReset =>
  }

  lemma QuietMoveKeepsClients(s: State, k: nat, move: ClientMove)
    requires Inv(s) && Enabled(s, Client(k, move))
    requires s.cliUp ==> ClientSays(s.fwd.clients[k], move, s.port) == []
    ensures var next := AfterClientMove(s, k, move);
            && next.wire == s.wire
            && forall i :: 0 <= i < |next.fwd.clients| ==> ClientOk(next.fwd.clients[i], next.wire, next.cliUp)
  {
    assert Silent(s.wire, |s.wire|, s.fwd.nextId) by { assert IdsOk(s.fwd, s.alloc) && WireOk(s.wire, |s.alloc|); }
    assert ClientOk(s.fwd.clients[k], s.wire, s.cliUp);
    QuietMoverKeepsAccount(s.fwd.clients[k], move, s.fwd.nextId, s.port, s.wire, s.cliUp);
  }

  /** CONNECT opens an id's part of the wire, CLOSE ends it. */
  lemma SpeakingMoveKeepsWire(s: State, k: nat, move: ClientMove, m: Message)
    requires Inv(s) && Enabled(s, Client(k, move))
    requires s.cliUp && ClientSays(s.fwd.clients[k], move, s.port) == [m]
    ensures WireOk(s.wire + [m], |s.alloc|)
  {
    var c := s.fwd.clients[k];
    assert ClientOk(c, s.wire, s.cliUp);
    var wire := s.wire + [m];
    forall i | 0 <= i < |s.wire| && s.wire[i].id == m.id
      ensures m.kind != Connect && s.wire[i].kind != Close
    {
      assert !Silent(s.wire, |s.wire|, c.id);
    }
    forall i, j | 0 <= i < j < |wire| && (wire[j].kind == Connect || wire[i].kind == Close)
      ensures wire[i].id != wire[j].id
    {
      assert wire[i] == s.wire[i];
    }
  }

  lemma SpeakerKeepsAccount(c: F.Client, move: ClientMove, nextId: nat, port: u16, wire: seq<Message>)
    requires ClientOk(c, wire, true) && ClientMay(c, move) && |ClientSays(c, move, port)| == 1
    ensures ClientOk(ClientAfter(c, move, nextId, true), wire + [ClientSays(c, move, port)[0]], true)
  {
    AppendedFor(wire, ClientSays(c, move, port)[0], c.id);
    match move
    case SendConnect => DataOfSilent(wire, |wire|, c.id);
    case SendData =>
    case SendClose =>
  }

  lemma SpeakingMoveKeepsClients(s: State, k: nat, move: ClientMove, m: Message)
    requires Inv(s) && Enabled(s, Client(k, move))
    requires s.cliUp && ClientSays(s.fwd.clients[k], move, s.port) == [m]
    ensures var next := AfterClientMove(s, k, move);
            && next.wire == s.wire + [m]
            && forall i :: 0 <= i < |next.fwd.clients| ==> ClientOk(next.fwd.clients[i], next.wire, next.cliUp)
  {
    var next := AfterClientMove(s, k, move);
    forall i | 0 <= i < |s.fwd.clients|
      ensures ClientOk(next.fwd.clients[i], s.wire + [m], s.cliUp)
    {
      if i == k {
        SpeakerKeepsAccount(s.fwd.clients[k], move, s.fwd.nextId, s.port, s.wire);
      } else {
        OthersHaveOtherIds(s, k, i);
        assert ClientOk(s.fwd.clients[i], s.wire, s.cliUp);
        OtherClientKept(s.fwd.clients[i], s.wire, m, s.cliUp);
      }
    }
  }

  lemma ClientMoveKeepsLocal(s: State, k: nat, move: ClientMove)
    requires Inv(s) && Enabled(s, Client(k, move))
    ensures var next := AfterClientMove(s, k, move);
            forall i :: 0 <= i < |next.fwd.clients| ==>
                          LocalOk(next.fwd.clients[i], next.fwd.connections, next.back, next.got)
  {
    var next := AfterClientMove(s, k, move);
    forall i | 0 <= i < |next.fwd.clients|
      ensures LocalOk(next.fwd.clients[i], next.fwd.connections, next.back, next.got)
    {
      if i == k {
        MoverIsReady(s, k, move);
        MoverKeepsLocal(s.fwd, k, move, s.cliUp, s.back, s.got);
      } else {
        OthersHaveOtherIds(s, k, i);
        OthersKeepLocal(s.fwd, k, move, s.cliUp, s.back, s.got, i);
      }
    }
  }

  lemma ClientMoveKeeps(s: State, k: nat, move: ClientMove)
    requires Inv(s) && Enabled(s, Client(k, move))
    ensures Inv(Apply(s, Client(k, move)))
  {
    var next := Apply(s, Client(k, move));
    var says := ClientSays(s.fwd.clients[k], move, s.port);
    ClientMoveKeepsTables(s.fwd, s.alloc, k, move, s.cliUp);
    ClientMoveKeepsLocal(s, k, move);
    if s.cliUp && says != [] {
      SpeakingMoveKeepsWire(s, k, move, says[0]);
      SpeakingMoveKeepsClients(s, k, move, says[0]);
      UnhandledAppend(s, says[0]);
      TasksUntouched(s.(wire := s.wire + says, reach := |s.wire| + 1), next);
    } else {
      QuietMoveKeepsClients(s, k, move);
      TasksUntouched(s, next);
    }
  }

  // ---------------------------------------------------------------------------
  // The CLI's receive loop and its WebSocket

  lemma CliLostKeeps(s: State, upTo: nat, hear: nat)
    requires Inv(s) && Enabled(s, CliLost(upTo, hear))
    ensures Inv(Apply(s, CliLost(upTo, hear)))
  {
    var next := Apply(s, CliLost(upTo, hear));
    TasksUntouched(s, next);
    forall k | 0 <= k < |next.fwd.clients|
      ensures ClientOk(next.fwd.clients[k], next.wire, next.cliUp)
    {
      assert ClientOk(s.fwd.clients[k], s.wire, s.cliUp);
    }
  }

  /** What the CLI does with a message, read off the message instead of its bytes. */
  ghost function CliGets(f: F.Forwarder, m: Message, accepted: nat): F.Forwarder
    requires F.WellFormed(f)
  {
    if m.id !in f.connections then f
    else
      var k := f.connections[m.id];
      if m.kind == Data then F.WithClient(f, k, F.Written(f.clients[k], m.payload, accepted))
      else if m.kind == Close || m.kind == Error
      then F.WriterClosed(f.(connections := f.connections - {m.id}), k)
      else f
  }

  /** The CLI's codec reads what the task's codec wrote. */
  lemma CliReads(f: F.Forwarder, m: Message, accepted: nat)
    requires F.WellFormed(f)
    ensures F.OnMessage(f, FromTask(m), accepted) == CliGets(f, m, accepted)
  {
    CodecsAgree(HeaderOf(m), m.payload);
    RustRoundTrip(HeaderOf(m), m.payload);
  }

  /** Receiving touches only the client the message is for, and of it only the writer. */
  lemma GetsTouchesOnlyItsWriter(f: F.Forwarder, alloc: seq<nat>, m: Message, accepted: nat, k: nat)
    requires F.WellFormed(f) && IdsOk(f, alloc) && TableOk(f.connections, alloc) && k < |f.clients|
    requires f.clients[k].pc == F.Start ==> f.clients[k].id == 0
    ensures var next := CliGets(f, m, accepted);
            && next.nextId == f.nextId && |next.clients| == |f.clients|
            && next.connections.Keys <= f.connections.Keys
            && (forall id <- next.connections :: next.connections[id] == f.connections[id])
            && next.clients[k].(wrote := f.clients[k].wrote, writerOpen := f.clients[k].writerOpen) == f.clients[k]
            && (f.clients[k].id != m.id ==>
                  && next.clients[k] == f.clients[k]
                  && (f.clients[k].id in next.connections <==> f.clients[k].id in f.connections))
  {
  }

  lemma GetsKeepsLocal(f: F.Forwarder, alloc: seq<nat>, back: seq<Message>, got: nat, accepted: nat, k: nat)
    requires F.WellFormed(f) && IdsOk(f, alloc) && TableOk(f.connections, alloc) && k < |f.clients|
    requires f.clients[k].pc == F.Start ==> f.clients[k].id == 0
    requires got < |back| && LocalOk(f.clients[k], f.connections, back, got)
    requires f.clients[k].id == back[got].id ==>
               f.clients[k].pc !in {F.Start, F.Allocated, F.Registered, F.Crashed}
    ensures var next := CliGets(f, back[got], accepted);
            k < |next.clients| && LocalOk(next.clients[k], next.connections, back, got + 1)
  {
    GetsTouchesOnlyItsWriter(f, alloc, back[got], accepted, k);
    if f.clients[k].id == back[got].id && back[got].id in f.connections {
      assert f.connections[back[got].id] == k;
    }
  }

  /** A coroutine that has sent nothing is not the one a message is for. */
  lemma HeardOnlyAfterConnect(s: State, k: nat)
    requires Inv(s) && s.got < |s.back| && k < |s.fwd.clients|
    ensures s.fwd.clients[k].pc == F.Start ==> s.fwd.clients[k].id == 0
    ensures s.fwd.clients[k].id == s.back[s.got].id ==>
              s.fwd.clients[k].pc !in {F.Start, F.Allocated, F.Registered, F.Crashed}
  {
    var m := s.back[s.got];
    assert Sent(s.wire, s.taken, Connect, m.id);
    SentMonotone(s.wire, s.taken, |s.wire|, Connect, m.id);
    assert ClientOk(s.fwd.clients[k], s.wire, s.cliUp);
  }

  lemma CliReceiveKeepsClient(s: State, accepted: nat, k: nat)
    requires Inv(s) && s.got < |s.back| && k < |s.fwd.clients|
    ensures var next := CliGets(s.fwd, s.back[s.got], accepted);
            && |next.clients| == |s.fwd.clients|
            && ClientOk(next.clients[k], s.wire, s.cliUp)
            && LocalOk(next.clients[k], next.connections, s.back, s.got + 1)
            && next.clients[k].id == s.fwd.clients[k].id && next.clients[k].pc == s.fwd.clients[k].pc
  {
    assert ClientOk(s.fwd.clients[k], s.wire, s.cliUp);
    HeardOnlyAfterConnect(s, k);
    GetsTouchesOnlyItsWriter(s.fwd, s.alloc, s.back[s.got], accepted, k);
    GetsKeepsLocal(s.fwd, s.alloc, s.back, s.got, accepted, k);
  }

  lemma GetsKeepsTables(f: F.Forwarder, alloc: seq<nat>, m: Message, accepted: nat)
    requires F.WellFormed(f) && IdsOk(f, alloc) && TableOk(f.connections, alloc)
    requires forall k :: 0 <= k < |f.clients| && f.clients[k].pc == F.Start ==> f.clients[k].id == 0
    ensures var next := CliGets(f, m, accepted); IdsOk(next, alloc) && TableOk(next.connections, alloc)
  {
    if m.id in f.connections {
      var k := f.connections[m.id];
      GetsTouchesOnlyItsWriter(f, alloc, m, accepted, k);
      UpdateKeepsIds(f, alloc, k, CliGets(f, m, accepted).clients[k], CliGets(f, m, accepted).connections);
    }
  }

  lemma CliReceiveKeepsClients(s: State, accepted: nat)
    requires Inv(s) && s.got < Hearable(s)
    ensures var next := s.(fwd := CliGets(s.fwd, s.back[s.got], accepted), got := s.got + 1);
            Consistent(next) && ClientsOk(next)
  {
    var next := s.(fwd := CliGets(s.fwd, s.back[s.got], accepted), got := s.got + 1);
    forall k | 0 <= k < |next.fwd.clients|
      ensures ClientOk(next.fwd.clients[k], next.wire, next.cliUp)
      ensures LocalOk(next.fwd.clients[k], next.fwd.connections, next.back, next.got)
    {
      assert |next.fwd.clients| == |s.fwd.clients|;
      CliReceiveKeepsClient(s, accepted, k);
    }
  }

  lemma CliReceiveKeeps(s: State, accepted: nat)
    requires Inv(s) && Enabled(s, CliReceive(accepted))
    ensures Inv(Apply(s, CliReceive(accepted)))
  {
    var next := Apply(s, CliReceive(accepted));
    assert next.fwd == CliGets(s.fwd, s.back[s.got], accepted) by { CliReads(s.fwd, s.back[s.got], accepted); }
    CliReceiveKeepsClients(s, accepted);
    forall k | 0 <= k < |s.fwd.clients|
      ensures s.fwd.clients[k].pc == F.Start ==> s.fwd.clients[k].id == 0
    {
      HeardOnlyAfterConnect(s, k);
    }
    GetsKeepsTables(s.fwd, s.alloc, s.back[s.got], accepted);
    TasksUntouched(s, next);
  }

  // ---------------------------------------------------------------------------
  // The tunnel connection and the relay

  lemma LinkUpKeeps(s: State)
    requires Inv(s) && Enabled(s, LinkUp)
    ensures Inv(Apply(s, LinkUp))
  {
    var next := Apply(s, LinkUp);
    forall j | 0 <= j < |next.mgr.tasks|
      ensures !Live(next, j) && TaskOk(next.mgr.tasks[j], next.wire, next.taken, next.back, Live(next, j))
    {
      assert TaskOk(s.mgr.tasks[j], s.wire, s.taken, s.back, Live(s, j));
    }
  }

  lemma LinkDownKeeps(s: State, keep: nat)
    requires Inv(s) && Enabled(s, LinkDown(keep))
    ensures Inv(Apply(s, LinkDown(keep)))
  {
    var next := Apply(s, LinkDown(keep));
    forall j | 0 <= j < |next.mgr.tasks|
      ensures TaskOk(next.mgr.tasks[j], next.wire, next.taken, next.back, Live(next, j))
    {
      var t := s.mgr.tasks[j];
      assert TaskOk(t, s.wire, s.taken, s.back, Live(s, j));
      DataOfCommonPrefix(next.back, s.back, keep, t.id);
      DataOfMonotone(s.back, keep, |s.back|, t.id);
    }
    forall k | 0 <= k < |next.fwd.clients|
      ensures LocalOk(next.fwd.clients[k], next.fwd.connections, next.back, next.got)
    {
      assert next.back[..s.got] == s.back[..s.got];
      DataOfCommonPrefix(next.back, s.back, s.got, s.fwd.clients[k].id);
    }
  }

  /** Handling or discarding one more message keeps what is known about earlier ones. */
  lemma TakenGrows(s: State)
    requires ServiceSide(s) && s.taken < |s.wire|
    ensures BackOk(s.back, s.wire, s.taken + 1)
    ensures forall j :: 0 <= j < |s.mgr.tasks| ==> TaskOk(s.mgr.tasks[j], s.wire, s.taken + 1, s.back, false)
  {
    forall i | 0 <= i < |s.back|
      ensures Sent(s.wire, s.taken + 1, Connect, s.back[i].id)
    {
      SentMonotone(s.wire, s.taken, s.taken + 1, Connect, s.back[i].id);
    }
    forall j | 0 <= j < |s.mgr.tasks|
      ensures TaskOk(s.mgr.tasks[j], s.wire, s.taken + 1, s.back, false)
    {
      var t := s.mgr.tasks[j];
      assert TaskOk(t, s.wire, s.taken, s.back, Live(s, j));
      SentMonotone(s.wire, s.taken, s.taken + 1, Connect, t.id);
      DataOfMonotone(s.wire, s.taken, s.taken + 1, t.id);
    }
  }

  lemma RelayDropKeeps(s: State)
    requires Inv(s) && Enabled(s, RelayDrop)
    ensures Inv(Apply(s, RelayDrop))
  {
    TakenGrows(s);
    var next := Apply(s, RelayDrop);
    forall j | 0 <= j < |next.mgr.tasks|
      ensures TaskOk(next.mgr.tasks[j], next.wire, next.taken, next.back, Live(next, j))
    {
      assert !Live(next, j);
    }
  }

  /** What the manager does with a message of the CLI, read off the message instead of its bytes. */
  ghost function ManagerGets(m: C.Manager, epoch: nat, msg: Message): C.Manager
    requires C.WellFormed(m)
  {
    match msg.kind
    case Connect => C.OnConnect(m, epoch, msg.id, Tcp, msg.port)
    case Data => C.OnData(m, msg.id, msg.payload)
    case Close => C.OnClose(m, msg.id)
    case _ => m
  }

  /** The tunnel client's codec reads what the CLI's codec wrote. */
  lemma ManagerReads(m: C.Manager, epoch: nat, msg: Message)
    requires C.WellFormed(m) && msg.kind in {Connect, Data, Close}
    ensures C.Dispatch(m, epoch, FromCli(msg))
            == if msg.kind == Data && !C.HasRoom(m, msg.id) then C.Stalled
               else C.Handled(ManagerGets(m, epoch, msg), [])
  {
    CodecsAgree(HeaderOf(msg), msg.payload);
  }

  /** A CONNECT is the first message of its id, so it finds neither an entry nor a task. */
  lemma ConnectIsNew(s: State)
    requires ServiceSide(s) && s.taken < |s.wire| && s.wire[s.taken].kind == Connect
    ensures var id := s.wire[s.taken].id;
            && Silent(s.wire, s.taken, id) && Silent(s.back, |s.back|, id)
            && id !in s.mgr.connections
            && forall j :: 0 <= j < |s.mgr.tasks| ==> s.mgr.tasks[j].id != id
  {
    var id := s.wire[s.taken].id;
    assert Silent(s.wire, s.taken, id);
    forall i | 0 <= i < |s.back| ensures s.back[i].id != id { assert Sent(s.wire, s.taken, Connect, s.back[i].id); }
    forall j | 0 <= j < |s.mgr.tasks|
      ensures s.mgr.tasks[j].id != id
    {
      assert TaskOk(s.mgr.tasks[j], s.wire, s.taken, s.back, Live(s, j));
    }
  }

  lemma NewTaskOk(s: State)
    requires ServiceSide(s) && s.taken < |s.wire| && s.wire[s.taken].kind == Connect
    ensures TaskOk(C.Spawned(s.wire[s.taken].id, s.epoch, Tcp, s.wire[s.taken].port), s.wire, s.taken + 1, s.back, true)
  {
    var m := s.wire[s.taken];
    ConnectIsNew(s);
    DataOfSilent(s.wire, s.taken, m.id);
    DataOfSilent(s.back, |s.back|, m.id);
  }

  /** A message that is no data of the task's id adds nothing to the task's account. */
  lemma AccountKept(s: State, j: nat)
    requires ServiceSide(s) && s.taken < |s.wire| && j < |s.mgr.tasks|
    requires s.wire[s.taken].kind != Data || s.wire[s.taken].id != s.mgr.tasks[j].id
    ensures TaskOk(s.mgr.tasks[j], s.wire, s.taken + 1, s.back, Live(s, j))
  {
    TakenGrows(s);
    assert TaskOk(s.mgr.tasks[j], s.wire, s.taken, s.back, Live(s, j));
  }

  lemma DeliverConnectKeepsTasks(s: State, next: State)
    requires ServiceSide(s) && s.linkUp && s.taken < s.reach && s.wire[s.taken].kind == Connect
    requires next == s.(mgr := ManagerGets(s.mgr, s.epoch, s.wire[s.taken]), taken := s.taken + 1)
    ensures TasksOk(next)
  {
    var n := |s.mgr.tasks|;
    ConnectIsNew(s);
    NewTaskOk(s);
    assert next.mgr.tasks == s.mgr.tasks + [C.Spawned(s.wire[s.taken].id, s.epoch, Tcp, s.wire[s.taken].port)];
    forall j | 0 <= j < n
      ensures TaskOk(next.mgr.tasks[j], next.wire, next.taken, next.back, Live(next, j))
    {
      AccountKept(s, j);
      assert Live(next, j) == Live(s, j);
    }
    assert Live(next, n);
  }

  lemma DeliverConnectKeepsMap(s: State, next: State)
    requires ServiceSide(s) && s.linkUp && s.taken < s.reach && s.wire[s.taken].kind == Connect
    requires next == s.(mgr := ManagerGets(s.mgr, s.epoch, s.wire[s.taken]), taken := s.taken + 1)
    ensures MapOk(next)
  {
    var n := |s.mgr.tasks|;
    var m := s.wire[s.taken];
    ConnectIsNew(s);
    assert next.mgr.tasks == s.mgr.tasks + [C.Spawned(m.id, s.epoch, Tcp, m.port)];
    assert next.mgr.connections == s.mgr.connections[m.id := n];
    forall id: nat
      ensures Sent(s.wire, s.taken + 1, Close, id) == Sent(s.wire, s.taken, Close, id)
    {
      SentNext(s.wire, s.taken, Close, id);
    }
    assert !Sent(s.wire, s.taken, Close, m.id) by { assert Silent(s.wire, s.taken, m.id); }
    assert forall j :: 0 <= j < n ==> Live(next, j) == Live(s, j);
    forall id <- next.mgr.connections
      ensures next.mgr.tasks[next.mgr.connections[id]].id == id
      ensures Live(next, next.mgr.connections[id]) && !Sent(next.wire, next.taken, Close, id)
    {
      assert id != m.id ==> id in s.mgr.connections && Live(s, s.mgr.connections[id]);
    }
  }

  /** DATA for a task's id goes into that task's channel as long as its receiver lives. */
  lemma DataEntersChannel(s: State, j: nat)
    requires ServiceSide(s) && s.taken < |s.wire| && s.wire[s.taken].kind == Data && j < |s.mgr.tasks|
    requires Live(s, j) && s.mgr.tasks[j].id == s.wire[s.taken].id
    ensures s.wire[s.taken].id in s.mgr.connections && s.mgr.connections[s.wire[s.taken].id] == j
  {
    var id := s.wire[s.taken].id;
    assert !Sent(s.wire, s.taken, Close, id);
  }

  /** The map refers only to tasks of the present tunnel connection. */
  lemma DeadHasNoEntry(s: State, j: nat)
    requires Consistent(s) && UniqueIds(s.mgr.tasks) && MapOk(s) && j < |s.mgr.tasks| && !Live(s, j)
    ensures s.mgr.tasks[j].id !in s.mgr.connections
  {
    forall id <- s.mgr.connections
      ensures id != s.mgr.tasks[j].id
    {
      var i := s.mgr.connections[id];
      assert i != j && s.mgr.tasks[i].id == id;
      assert i < j || j < i;
    }
  }

  lemma PushKeepsAccount(t: C.Task, wire: seq<Message>, taken: nat, back: seq<Message>, live: bool)
    requires taken < |wire| && TaskOk(t, wire, taken, back, live)
    requires wire[taken].kind == Data && wire[taken].id == t.id
    requires Sent(wire, taken + 1, Connect, t.id)
    ensures t.rxOpen && live ==> TaskOk(t.(chan := t.chan + [wire[taken].payload]), wire, taken + 1, back, live)
    ensures !t.rxOpen || !live ==> TaskOk(t, wire, taken + 1, back, live)
  {
    var payload := wire[taken].payload;
    assert DataOf(wire, taken + 1, t.id) == DataOf(wire, taken, t.id) + payload;
    if t.rxOpen {
      ConcatPush(t.chan, payload);
      var next := t.(chan := t.chan + [payload]);
      assert Accounted(next) == Accounted(t) + payload;
    }
  }

  lemma DataReachesItsTask(s: State, j: nat)
    requires ServiceSide(s) && s.taken < |s.wire| && s.wire[s.taken].kind == Data && j < |s.mgr.tasks|
    ensures var next := ManagerGets(s.mgr, s.epoch, s.wire[s.taken]);
            && |next.tasks| == |s.mgr.tasks|
            && next.tasks[j].id == s.mgr.tasks[j].id && next.tasks[j].epoch == s.mgr.tasks[j].epoch
            && TaskOk(next.tasks[j], s.wire, s.taken + 1, s.back, Live(s, j))
  {
    var m := s.wire[s.taken];
    var t := s.mgr.tasks[j];
    if m.id != t.id {
      AccountKept(s, j);
      assert m.id in s.mgr.connections ==> s.mgr.connections[m.id] != j;
    } else {
      assert Sent(s.wire, s.taken + 1, Connect, t.id) by { TakenGrows(s); }
      PushKeepsAccount(t, s.wire, s.taken, s.back, Live(s, j));
      if Live(s, j) {
        DataEntersChannel(s, j);
      } else {
        DeadHasNoEntry(s, j);
      }
    }
  }

  lemma DeliverDataKeepsTasks(s: State, next: State)
    requires ServiceSide(s) && s.linkUp && s.taken < s.reach && s.wire[s.taken].kind == Data
    requires next == s.(mgr := ManagerGets(s.mgr, s.epoch, s.wire[s.taken]), taken := s.taken + 1)
    ensures TasksOk(next) && |next.mgr.tasks| == |s.mgr.tasks|
    ensures forall j :: 0 <= j < |s.mgr.tasks| ==>
                          next.mgr.tasks[j].id == s.mgr.tasks[j].id && Live(next, j) == Live(s, j)
  {
    assert |next.mgr.tasks| == |s.mgr.tasks|;
    forall j | 0 <= j < |next.mgr.tasks|
      ensures next.mgr.tasks[j].id == s.mgr.tasks[j].id && next.mgr.tasks[j].epoch == s.mgr.tasks[j].epoch
      ensures TaskOk(next.mgr.tasks[j], next.wire, next.taken, next.back, Live(next, j))
    {
      DataReachesItsTask(s, j);
    }
  }

  lemma DeliverDataKeepsMap(s: State, next: State)
    requires ServiceSide(s) && s.linkUp && s.taken < s.reach && s.wire[s.taken].kind == Data
    requires next == s.(mgr := ManagerGets(s.mgr, s.epoch, s.wire[s.taken]), taken := s.taken + 1)
    ensures MapOk(next)
  {
    DeliverDataKeepsTasks(s, next);
    forall id: nat
      ensures Sent(s.wire, s.taken + 1, Close, id) == Sent(s.wire, s.taken, Close, id)
    {
      SentNext(s.wire, s.taken, Close, id);
    }
  }

  lemma DeliverCloseKeepsTasks(s: State, next: State)
    requires ServiceSide(s) && s.linkUp && s.taken < s.reach && s.wire[s.taken].kind == Close
    requires next == s.(mgr := C.OnClose(s.mgr, s.wire[s.taken].id), taken := s.taken + 1)
    ensures TasksOk(next)
  {
    forall j | 0 <= j < |next.mgr.tasks|
      ensures TaskOk(next.mgr.tasks[j], next.wire, next.taken, next.back, Live(next, j))
    {
      assert Live(next, j) == Live(s, j);
      AccountKept(s, j);
    }
  }

  lemma DeliverCloseKeepsMap(s: State, next: State)
    requires Consistent(s) && MapOk(s) && s.linkUp && s.taken < s.reach && s.wire[s.taken].kind == Close
    requires next == s.(mgr := C.OnClose(s.mgr, s.wire[s.taken].id), taken := s.taken + 1)
    ensures MapOk(next)
  {
    forall id: nat
      ensures Sent(s.wire, s.taken + 1, Close, id)
              == (Sent(s.wire, s.taken, Close, id) || id == s.wire[s.taken].id)
    {
      SentNext(s.wire, s.taken, Close, id);
    }
    assert forall j :: 0 <= j < |s.mgr.tasks| ==> Live(next, j) == Live(s, j);
  }

  lemma DeliverKeeps(s: State)
    requires Inv(s) && Enabled(s, Deliver)
    ensures Inv(Apply(s, Deliver))
  {
    var next := Apply(s, Deliver);
    var m := s.wire[s.taken];
    ManagerReads(s.mgr, s.epoch, m);
    assert s.back + [] == s.back;
    assert next == s.(mgr := ManagerGets(s.mgr, s.epoch, m), taken := s.taken + 1);
    TakenGrows(s);
    AnswersKept(s.back, s.mgr.tasks, next.mgr.tasks);
    match m.kind
    case Connect =>
      DeliverConnectKeepsTasks(s, next);
      DeliverConnectKeepsMap(s, next);
    case Data =>
      DeliverDataKeepsTasks(s, next);
      DeliverDataKeepsMap(s, next);
    case Close =>
      DeliverCloseKeepsTasks(s, next);
      DeliverCloseKeepsMap(s, next);
  }

  // ---------------------------------------------------------------------------
  // The tasks

  /** Channel, hand and socket: moving bytes along keeps their sequence. */
  lemma TaskMoveKeepsOutgoing(t: C.Task, action: TaskMove, hasSender: bool, wire: seq<Message>, taken: nat, live: bool)
    requires taken <= |wire| && TaskMay(t, action, hasSender)
    requires Accounted(t) <= DataOf(wire, taken, t.id)
    requires live && t.rxOpen ==> Accounted(t) == DataOf(wire, taken, t.id)
    requires !t.rxOpen ==> t.chan == [] && t.hand == None
    ensures var next := TaskAfter(t, action);
            && Accounted(next) <= DataOf(wire, taken, t.id)
            && (live && next.rxOpen ==> Accounted(next) == DataOf(wire, taken, t.id))
            && (!next.rxOpen ==> next.chan == [] && next.hand == None)
  {
    var next := TaskAfter(t, action);
    match action
    case Receive =>
      assert Concat(t.chan) == t.chan[0] + Concat(t.chan[1..]);
      assert Accounted(next) == Accounted(t);
    case Write(accepted) =>
      if accepted < |t.hand.value| {
        assert Accounted(next) == t.written + t.hand.value[..accepted] <= Accounted(t);
      } else {
        assert Accounted(next) == Accounted(t);
      }
    case _ =>
      assert Accounted(next) == Accounted(t) || Accounted(next) == t.written <= Accounted(t);
  }

  lemma TaskMoveKeepsIncoming(t: C.Task, action: TaskMove, hasSender: bool, back: seq<Message>, live: bool)
    requires TaskMay(t, action, hasSender)
    requires DataOf(back, |back|, t.id) <= t.read
    requires live ==> DataOf(back, |back|, t.id) + t.pending == t.read
    ensures var sent := if live then back + TaskSays(t, action) else back;
            var next := TaskAfter(t, action);
            && DataOf(sent, |sent|, t.id) <= next.read
            && (live ==> DataOf(sent, |sent|, t.id) + next.pending == next.read)
  {
    var says := TaskSays(t, action);
    if live && says != [] {
      AppendedFor(back, says[0], t.id);
      assert back + says == back + [says[0]];
    } else {
      assert back + [] == back;
    }
  }

  lemma TaskMoveKeepsSelf(t: C.Task, action: TaskMove, hasSender: bool,
                          wire: seq<Message>, taken: nat, back: seq<Message>, live: bool)
    requires taken <= |wire| && TaskOk(t, wire, taken, back, live) && TaskMay(t, action, hasSender)
    ensures var sent := if live then back + TaskSays(t, action) else back;
            TaskOk(TaskAfter(t, action), wire, taken, sent, live)
  {
    TaskMoveKeepsOutgoing(t, action, hasSender, wire, taken, live);
    TaskMoveKeepsIncoming(t, action, hasSender, back, live);
  }

  lemma TaskKeepsIdentity(t: C.Task, action: TaskMove, hasSender: bool)
    requires TaskMay(t, action, hasSender)
    ensures TaskAfter(t, action).id == t.id && TaskAfter(t, action).epoch == t.epoch
    ensures |TaskSays(t, action)| <= 1 && forall m <- TaskSays(t, action) :: m.id == t.id
  {
  }

  lemma OtherTaskKept(u: C.Task, wire: seq<Message>, taken: nat, back: seq<Message>, live: bool, says: seq<Message>)
    requires taken <= |wire| && TaskOk(u, wire, taken, back, live)
    requires |says| <= 1 && forall m <- says :: m.id != u.id
    ensures TaskOk(u, wire, taken, back + says, live)
  {
    if says == [] {
      assert back + says == back;
    } else {
      assert says[0] in says;
      AppendedFor(back, says[0], u.id);
      assert back + says == back + [says[0]];
    }
  }

  lemma TaskMoveKeepsEach(s: State, j: nat, action: TaskMove, i: nat)
    requires ServiceSide(s) && j < |s.mgr.tasks| && TaskMay(s.mgr.tasks[j], action, HasSender(s, j))
    requires i < |s.mgr.tasks|
    ensures var next := AfterTaskMove(s, j, action);
            && next.mgr.tasks[i].id == s.mgr.tasks[i].id && next.mgr.tasks[i].epoch == s.mgr.tasks[i].epoch
            && TaskOk(next.mgr.tasks[i], s.wire, s.taken, next.back, Live(s, i))
  {
    var t, u := s.mgr.tasks[j], s.mgr.tasks[i];
    assert TaskOk(u, s.wire, s.taken, s.back, Live(s, i));
    TaskKeepsIdentity(t, action, HasSender(s, j));
    if i == j {
      TaskMoveKeepsSelf(t, action, HasSender(s, j), s.wire, s.taken, s.back, Live(s, j));
    } else {
      assert u.id != t.id;
      OtherTaskKept(u, s.wire, s.taken, s.back, Live(s, i), TaskSays(t, action));
    }
  }

  lemma TaskMoveKeepsTasks(s: State, j: nat, action: TaskMove)
    requires ServiceSide(s) && j < |s.mgr.tasks| && TaskMay(s.mgr.tasks[j], action, HasSender(s, j))
    ensures var next := AfterTaskMove(s, j, action); TasksOk(next) && MapOk(next)
  {
    var next := AfterTaskMove(s, j, action);
    forall i | 0 <= i < |next.mgr.tasks|
      ensures next.mgr.tasks[i].id == s.mgr.tasks[i].id && next.mgr.tasks[i].epoch == s.mgr.tasks[i].epoch
      ensures Live(next, i) == Live(s, i)
      ensures TaskOk(next.mgr.tasks[i], next.wire, next.taken, next.back, Live(next, i))
    {
      TaskMoveKeepsEach(s, j, action, i);
    }
  }

  lemma TaskMoveKeepsAnswers(s: State, j: nat, action: TaskMove)
    requires ServiceSide(s) && j < |s.mgr.tasks| && TaskMay(s.mgr.tasks[j], action, HasSender(s, j))
    ensures var next := AfterTaskMove(s, j, action);
            BackOk(next.back, next.wire, next.taken) && AnswersOk(next.back, next.mgr.tasks)
  {
    var next := AfterTaskMove(s, j, action);
    var t := s.mgr.tasks[j];
    TaskKeepsIdentity(t, action, HasSender(s, j));
    assert TaskOk(t, s.wire, s.taken, s.back, Live(s, j));
    AnswersKept(s.back, s.mgr.tasks, next.mgr.tasks);
    forall i | 0 <= i < |next.back|
      ensures Sent(next.wire, next.taken, Connect, next.back[i].id) && HasTask(next.mgr.tasks, next.back[i].id)
    {
      if i < |s.back| {
        assert next.back[i] == s.back[i];
      } else {
        assert next.back[i] in TaskSays(t, action);
        assert next.mgr.tasks[j].id == next.back[i].id;
      }
    }
  }

  lemma TaskMoveKeepsClients(s: State, j: nat, action: TaskMove)
    requires Consistent(s) && ClientsOk(s)
    requires j < |s.mgr.tasks| && TaskMay(s.mgr.tasks[j], action, HasSender(s, j))
    ensures ClientsOk(AfterTaskMove(s, j, action))
  {
    var next := AfterTaskMove(s, j, action);
    forall k | 0 <= k < |next.fwd.clients|
      ensures LocalOk(next.fwd.clients[k], next.fwd.connections, next.back, next.got)
    {
      assert next.back[..s.got] == s.back[..s.got];
      DataOfCommonPrefix(next.back, s.back, s.got, s.fwd.clients[k].id);
    }
  }

  lemma TaskMoveKeeps(s: State, j: nat, action: TaskMove)
    requires Inv(s) && Enabled(s, Task(j, action))
    ensures Inv(Apply(s, Task(j, action)))
  {
    TaskMoveKeepsTasks(s, j, action);
    TaskMoveKeepsAnswers(s, j, action);
    TaskMoveKeepsClients(s, j, action);
  }

  // ---------------------------------------------------------------------------
  // Every run

  lemma StepKeeps(s: State, step: Step)
    requires Inv(s) && Enabled(s, step)
    ensures Inv(Apply(s, step))
  {
    match step
    case Accept => AcceptKeeps(s);
    case Client(k, move) => ClientMoveKeeps(s, k, move);
    case CliReceive(accepted) => CliReceiveKeeps(s, accepted);
    case CliLost(upTo, hear) => CliLostKeeps(s, upTo, hear);
    case LinkUp => LinkUpKeeps(s);
    case LinkDown(keep) => LinkDownKeeps(s, keep);
    case RelayDrop => RelayDropKeeps(s);
    case Deliver => DeliverKeeps(s);
    case Task(j, action) => TaskMoveKeeps(s, j, action);
  }

  lemma {:induction false} RunKeeps(port: u16, steps: seq<Step>)
    ensures Exec(port, steps).Some? ==> Inv(Exec(port, steps).value)
  {
    if steps == [] {
      InitInv(port);
    } else {
      var before := steps[..|steps| - 1];
      RunKeeps(port, before);
      if Exec(port, before).Some? && Enabled(Exec(port, before).value, steps[|steps| - 1]) {
        StepKeeps(Exec(port, before).value, steps[|steps| - 1]);
      }
    }
  }
}
