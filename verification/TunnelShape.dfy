/**
 What the messages and the tasks of a run look like: every CONNECT and every task is for the
 forwarded port over TCP, no chunk is empty or longer than a read, no channel holds more than 256
 of them, and a task announces itself with CONNECTED before anything else.
 */
module TunnelShape {
  import opened Wrappers
  import opened Frames
  import opened Logs
  import opened Tunnel
  import opened TunnelInvariant
  import opened TunnelTheorems
  import opened TunnelAnswers
  import C = Connections
  import F = Forwarders

  predicate IsChunk(data: Bytes) {
    1 <= |data| <= 65536
  }

  predicate MessageShape(m: Message, port: u16) {
    && (m.kind == Connect ==> m.port == port && m.payload == [])
    && (m.kind == Data ==> m.port == 0 && IsChunk(m.payload))
    && (m.kind == Close ==> m.port == 0 && m.payload == [])
  }

  predicate TaskShape(t: C.Task, port: u16) {
    && t.proto == Tcp && t.port == port
    && |t.chan| <= 256 && (forall chunk <- t.chan :: IsChunk(chunk))
    && |t.pending| <= 65536
  }

  /** CONNECTED comes before DATA and CLOSE of its id. */
  ghost predicate ConnectedFirst(back: seq<Message>) {
    forall i {:trigger back[i]} :: 0 <= i < |back| && (back[i].kind == Data || back[i].kind == Close) ==>
              Sent(back, i, Connected, back[i].id)
  }

  ghost predicate Announced(s: State, j: nat)
    requires j < |s.mgr.tasks|
  {
    Live(s, j) && s.mgr.tasks[j].dial == C.Pumping ==> Sent(s.back, |s.back|, Connected, s.mgr.tasks[j].id)
  }

  ghost predicate Shaped(s: State) {
    && (forall m <- s.wire :: MessageShape(m, s.port))
    && (forall c <- s.fwd.clients :: |c.pending| <= 65536)
    && (forall t <- s.mgr.tasks :: TaskShape(t, s.port))
    && (forall m <- s.back :: m.kind == Data ==> IsChunk(m.payload))
    && ConnectedFirst(s.back)
    && (forall j :: 0 <= j < |s.mgr.tasks| ==> Announced(s, j))
  }

  lemma ClientMoveKeepsShape(s: State, k: nat, move: ClientMove)
    requires Consistent(s) && Shaped(s) && Enabled(s, Client(k, move))
    ensures Shaped(AfterClientMove(s, k, move))
  {
    var next, c := AfterClientMove(s, k, move), s.fwd.clients[k];
    assert |c.pending| <= 65536;
    assert forall m <- ClientSays(c, move, s.port) :: MessageShape(m, s.port);
    assert next.fwd.clients[k] == ClientAfter(c, move, s.fwd.nextId, s.cliUp);
    forall j | 0 <= j < |s.mgr.tasks|
      ensures Announced(next, j)
    {
      assert Announced(s, j);
    }
  }

  lemma CliReceiveKeepsShape(s: State, accepted: nat)
    requires Consistent(s) && Shaped(s) && Enabled(s, CliReceive(accepted))
    ensures Shaped(Apply(s, CliReceive(accepted)))
  {
    var next := Apply(s, CliReceive(accepted));
    CliReads(s.fwd, s.back[s.got], accepted);
    forall c <- next.fwd.clients
      ensures |c.pending| <= 65536
    {
      var k :| 0 <= k < |next.fwd.clients| && next.fwd.clients[k] == c;
      assert |s.fwd.clients[k].pending| <= 65536;
    }
    forall j | 0 <= j < |s.mgr.tasks|
      ensures Announced(next, j)
    {
      assert Announced(s, j);
    }
  }

  lemma DeliverKeepsShape(s: State)
    requires Inv(s) && Shaped(s) && Enabled(s, Deliver)
    ensures Shaped(Apply(s, Deliver))
  {
    var m, next := s.wire[s.taken], Apply(s, Deliver);
    ManagerReads(s.mgr, s.epoch, m);
    assert MessageShape(m, s.port);
    assert next.back == s.back;
    DeliverKeepsTaskShapes(s.mgr, s.epoch, m, s.port);
    DispatchKeepsSpeakers(s.mgr, s.epoch, m);
    forall j | 0 <= j < |next.mgr.tasks|
      ensures Announced(next, j)
    {
      if j < |s.mgr.tasks| {
        DeliverKeepsEpochs(s.mgr, s.epoch, m, j);
        assert Announced(s, j) && SameSpeaker(s.mgr.tasks[j], next.mgr.tasks[j]);
      }
    }
  }

  lemma DeliverKeepsEpochs(m: C.Manager, epoch: nat, msg: Message, j: nat)
    requires C.WellFormed(m) && j < |m.tasks|
    ensures j < |ManagerGets(m, epoch, msg).tasks| && ManagerGets(m, epoch, msg).tasks[j].epoch == m.tasks[j].epoch
  {
  }

  lemma DeliverKeepsTaskShapes(m: C.Manager, epoch: nat, msg: Message, port: u16)
    requires C.WellFormed(m) && (forall t <- m.tasks :: TaskShape(t, port)) && MessageShape(msg, port)
    requires msg.kind == Data ==> C.HasRoom(m, msg.id)
    ensures forall t <- ManagerGets(m, epoch, msg).tasks :: TaskShape(t, port)
  {
    forall j: nat | j < |m.tasks|
      ensures TaskShape(m.tasks[j], port)
    {
      assert m.tasks[j] in m.tasks;
    }
  }

  lemma SayingKeepsConnectedFirst(back: seq<Message>, m: Message)
    requires ConnectedFirst(back)
    requires m.kind == Data || m.kind == Close ==> Sent(back, |back|, Connected, m.id)
    ensures ConnectedFirst(back + [m])
    ensures forall id: nat :: Sent(back, |back|, Connected, id) ==> Sent(back + [m], |back + [m]|, Connected, id)
    ensures m.kind == Connected ==> Sent(back + [m], |back + [m]|, Connected, m.id)
  {
    var more := back + [m];
    forall i, id: nat | 0 <= i <= |back| && Sent(back, i, Connected, id)
      ensures Sent(more, i, Connected, id) && Sent(more, |more|, Connected, id)
    {
      var k :| 0 <= k < i && back[k].kind == Connected && back[k].id == id;
      assert more[k] == back[k];
    }
    forall i | 0 <= i < |more| && (more[i].kind == Data || more[i].kind == Close)
      ensures Sent(more, i, Connected, more[i].id)
    {
      if i < |back| {
        assert more[i] == back[i];
      }
    }
    assert more[|back|] == m;
  }

  lemma TaskMoveKeepsTaskShape(t: C.Task, action: TaskMove, hasSender: bool, port: u16)
    requires TaskShape(t, port) && InPhase(t) && TaskMay(t, action, hasSender)
    ensures TaskShape(TaskAfter(t, action), port)
    ensures forall m <- TaskSays(t, action) :: m.kind == Data ==> IsChunk(m.payload)
    ensures forall m <- TaskSays(t, action) :: m.kind == Data || m.kind == Close ==> t.dial == C.Pumping
    ensures TaskAfter(t, action).dial == C.Pumping ==>
              t.dial == C.Pumping || exists m <- TaskSays(t, action) :: m.kind == Connected && m.id == t.id
  {
    if action.Receive? {
      assert forall chunk <- t.chan[1..] :: chunk in t.chan;
    }
    if action == SendConnected(true) {
      assert Message(Connected, t.id, 0, []) in TaskSays(t, action);
    }
  }

  lemma TaskMoveKeepsShape(s: State, j: nat, action: TaskMove)
    requires Inv(s) && Orderly(s) && Shaped(s) && Enabled(s, Task(j, action))
    ensures Shaped(AfterTaskMove(s, j, action))
  {
    var next, t := AfterTaskMove(s, j, action), s.mgr.tasks[j];
    TaskMoveKeepsTaskShape(t, action, HasSender(s, j), s.port);
    TaskMoveKeepsPhase(t, action, HasSender(s, j));
    assert Announced(s, j);
    var says := TaskSays(t, action);
    if next.back != s.back {
      SayingKeepsConnectedFirst(s.back, says[0]);
      assert next.back == s.back + [says[0]];
    }
    forall i | 0 <= i < |next.mgr.tasks|
      ensures Announced(next, i)
    {
      assert Announced(s, i);
      AfterTaskMoveKeepsEpochs(s, j, action, i);
    }
  }

  lemma AfterTaskMoveKeepsEpochs(s: State, j: nat, action: TaskMove, i: nat)
    requires Consistent(s) && Enabled(s, Task(j, action)) && i < |s.mgr.tasks|
    ensures var next := AfterTaskMove(s, j, action);
            && i < |next.mgr.tasks| && next.mgr.tasks[i].id == s.mgr.tasks[i].id && Live(next, i) == Live(s, i)
            && (i != j ==> next.mgr.tasks[i] == s.mgr.tasks[i])
  {
    TaskKeepsIdentity(s.mgr.tasks[j], action, HasSender(s, j));
  }

  lemma LinkStepKeepsShape(s: State, step: Step)
    requires Inv(s) && Shaped(s) && Enabled(s, step) && (step.LinkUp? || step.LinkDown?)
    ensures Shaped(Apply(s, step))
  {
    var next := Apply(s, step);
    forall j | 0 <= j < |next.mgr.tasks|
      ensures !Live(next, j)
    {
      assert s.mgr.tasks[j].epoch <= s.epoch;
    }
    forall i | 0 <= i < |next.back| && (next.back[i].kind == Data || next.back[i].kind == Close)
      ensures Sent(next.back, i, Connected, next.back[i].id)
    {
      assert next.back[i] == s.back[i];
      SentCommonPrefix(next.back, s.back, i, Connected, s.back[i].id);
    }
  }

  lemma StepKeepsShape(s: State, step: Step)
    requires Inv(s) && Orderly(s) && Shaped(s) && Enabled(s, step)
    ensures Shaped(Apply(s, step))
  {
    match step
    case Client(k, move) => ClientMoveKeepsShape(s, k, move);
    case CliReceive(accepted) => CliReceiveKeepsShape(s, accepted);
    case Deliver => DeliverKeepsShape(s);
    case Task(j, action) => TaskMoveKeepsShape(s, j, action);
    case LinkUp => LinkStepKeepsShape(s, step);
    case LinkDown(_) => LinkStepKeepsShape(s, step);
    case _ => assert forall j :: 0 <= j < |s.mgr.tasks| ==> Announced(s, j) ==> Announced(Apply(s, step), j);
  }

  lemma {:induction false} RunKeepsShape(port: u16, steps: seq<Step>)
    ensures Exec(port, steps).Some? ==> Exec(port, steps).value.port == port && Shaped(Exec(port, steps).value)
  {
    if steps != [] {
      var before := steps[..|steps| - 1];
      RunKeepsShape(port, before);
      RunKeeps(port, before);
      RunKeepsOrder(port, before);
      if Exec(port, before).Some? && Enabled(Exec(port, before).value, steps[|steps| - 1]) {
        StepKeepsShape(Exec(port, before).value, steps[|steps| - 1]);
      }
    }
  }

  /** Every connection a run opens dials the port that was asked for, over TCP, and holds at most 256 chunks. */
  lemma TasksServeForwardedPort(port: u16, steps: seq<Step>, s: State, j: nat)
    requires Exec(port, steps) == Some(s) && j < |s.mgr.tasks|
    ensures s.mgr.tasks[j].port == port && s.mgr.tasks[j].proto == Tcp && |s.mgr.tasks[j].chan| <= 256
  {
    RunKeepsShape(port, steps);
    assert s.mgr.tasks[j] in s.mgr.tasks;
  }

  /** What is sent in either direction comes in chunks of 1 to 65536 bytes; answers start with CONNECTED. */
  lemma MessagesAreInShape(port: u16, steps: seq<Step>, s: State, i: nat)
    requires Exec(port, steps) == Some(s)
    ensures i < |s.wire| ==>
              && (s.wire[i].kind == Connect ==> s.wire[i].port == port && s.wire[i].payload == [])
              && (s.wire[i].kind == Data ==> 1 <= |s.wire[i].payload| <= 65536)
    ensures i < |s.back| && s.back[i].kind == Data ==> 1 <= |s.back[i].payload| <= 65536
    ensures i < |s.back| && (s.back[i].kind == Data || s.back[i].kind == Close) ==>
              exists k :: 0 <= k < i && s.back[k].kind == Connected && s.back[k].id == s.back[i].id
  {
    RunKeepsShape(port, steps);
    if i < |s.wire| {
      assert s.wire[i] in s.wire;
    }
    if i < |s.back| {
      assert s.back[i] in s.back;
    }
  }
}
