/**
 How connections end. A CLOSE or ERROR that the CLI handled has closed the local writer; a
 service that hangs up or cannot be dialled can always get that far, after all its data; and a
 local end can always get through to the service.
 */
module TunnelClosing {
  import opened Wrappers
  import opened Frames
  import opened Logs
  import opened Tunnel
  import opened TunnelInvariant
  import opened TunnelTheorems
  import opened TunnelProgress
  import opened TunnelAnswers
  import C = Connections
  import F = Forwarders

  // ---------------------------------------------------------------------------
  // A handled end has closed the writer

  ghost predicate HeardEnd(back: seq<Message>, got: nat, id: nat)
    requires got <= |back|
  {
    Sent(back, got, Close, id) || Sent(back, got, Error, id)
  }

  /** Where a writer must be closed, and where it can only be open while it is registered. */
  ghost predicate WriterOk(c: F.Client, connections: map<nat, nat>, heard: bool) {
    && (heard && c.pc != F.Start ==> !c.writerOpen && c.id !in connections)
    && (c.pc == F.Done ==> !c.writerOpen)
    && (c.pc !in {F.Start, F.Allocated} ==> c.id in connections || !c.writerOpen)
  }

  ghost predicate WritersOk(s: State)
    requires Consistent(s)
  {
    forall k :: 0 <= k < |s.fwd.clients| ==>
                  WriterOk(s.fwd.clients[k], s.fwd.connections, HeardEnd(s.back, s.got, s.fwd.clients[k].id))
  }

  /** Before its CONNECT nobody has ended a connection. */
  lemma NotHeardYet(s: State, k: nat)
    requires Inv(s) && k < |s.fwd.clients| && s.fwd.clients[k].pc in {F.Allocated, F.Registered, F.Crashed}
    ensures !HeardEnd(s.back, s.got, s.fwd.clients[k].id)
  {
    var c := s.fwd.clients[k];
    assert ClientOk(c, s.wire, s.cliUp);
    forall i | 0 <= i < |s.back|
      ensures s.back[i].id != c.id
    {
      assert Sent(s.wire, s.taken, Connect, s.back[i].id);
      SentMonotone(s.wire, s.taken, |s.wire|, Connect, s.back[i].id);
    }
  }

  lemma NewIdIsUnheard(s: State)
    requires Inv(s)
    ensures !HeardEnd(s.back, s.got, s.fwd.nextId)
  {
    forall i | 0 <= i < |s.back|
      ensures s.back[i].id != s.fwd.nextId
    {
      assert Sent(s.wire, s.taken, Connect, s.back[i].id);
    }
  }

  lemma MoverKeepsWriter(f: F.Forwarder, k: nat, move: ClientMove, cliUp: bool, heard: bool, newHeard: bool)
    requires k < |f.clients| && ClientMay(f.clients[k], move) && WriterOk(f.clients[k], f.connections, heard)
    requires move.Allocate? ==> !newHeard
    requires !move.Allocate? ==> newHeard == heard
    requires f.clients[k].pc == F.Allocated ==> !heard
    requires move.Finish? || move.SendConnect? ==> f.clients[k].pc != F.Start
    ensures var next := ForwarderAfter(f, k, move, cliUp); WriterOk(next.clients[k], next.connections, newHeard)
  {
    var next := ForwarderAfter(f, k, move, cliUp);
    assert next.clients[k] == ClientAfter(f.clients[k], move, f.nextId, cliUp);
    match move
    case Allocate =>
    case Register =>
    case _ =>
  }

  lemma OthersKeepWriter(f: F.Forwarder, k: nat, move: ClientMove, cliUp: bool, heard: bool, i: nat)
    requires k < |f.clients| && i < |f.clients| && i != k
    requires ClientMay(f.clients[k], move) && WriterOk(f.clients[i], f.connections, heard)
    requires f.clients[k].pc.Start? || f.clients[i].id != f.clients[k].id
    ensures var next := ForwarderAfter(f, k, move, cliUp); WriterOk(next.clients[i], next.connections, heard)
  {
    assert f.clients[i].id in TablesAfter(f, k, move, cliUp).connections <==> f.clients[i].id in f.connections;
  }

  lemma ClientMoveKeepsWriters(s: State, k: nat, move: ClientMove)
    requires Inv(s) && WritersOk(s) && Enabled(s, Client(k, move))
    ensures WritersOk(AfterClientMove(s, k, move))
  {
    var next := AfterClientMove(s, k, move);
    forall i | 0 <= i < |next.fwd.clients|
      ensures WriterOk(next.fwd.clients[i], next.fwd.connections, HeardEnd(s.back, s.got, next.fwd.clients[i].id))
    {
      var heard := HeardEnd(s.back, s.got, s.fwd.clients[i].id);
      assert WriterOk(s.fwd.clients[i], s.fwd.connections, heard);
      if i == k {
        if move.Allocate? {
          NewIdIsUnheard(s);
        }
        if s.fwd.clients[k].pc.Allocated? {
          NotHeardYet(s, k);
        }
        MoverKeepsWriter(s.fwd, k, move, s.cliUp, heard, HeardEnd(s.back, s.got, next.fwd.clients[k].id));
      } else {
        OthersHaveOtherIds(s, k, i);
        OthersKeepWriter(s.fwd, k, move, s.cliUp, heard, i);
      }
    }
  }

  lemma GetsKeepsWriter(f: F.Forwarder, alloc: seq<nat>, back: seq<Message>, got: nat, accepted: nat, k: nat)
    requires F.WellFormed(f) && IdsOk(f, alloc) && TableOk(f.connections, alloc) && k < |f.clients|
    requires f.clients[k].pc == F.Start ==> f.clients[k].id == 0
    requires got < |back| && WriterOk(f.clients[k], f.connections, HeardEnd(back, got, f.clients[k].id))
    requires f.clients[k].id == back[got].id ==> f.clients[k].pc !in {F.Start, F.Allocated}
    ensures var next := CliGets(f, back[got], accepted);
            k < |next.clients| && WriterOk(next.clients[k], next.connections, HeardEnd(back, got + 1, f.clients[k].id))
  {
    var m := back[got];
    GetsTouchesOnlyItsWriter(f, alloc, m, accepted, k);
    SentNext(back, got, Close, f.clients[k].id);
    SentNext(back, got, Error, f.clients[k].id);
    if f.clients[k].id == m.id && m.id in f.connections {
      assert f.connections[m.id] == k;
    }
  }

  lemma CliReceiveKeepsWriters(s: State, accepted: nat)
    requires Inv(s) && WritersOk(s) && Enabled(s, CliReceive(accepted))
    ensures WritersOk(Apply(s, CliReceive(accepted)))
  {
    var next := Apply(s, CliReceive(accepted));
    CliReads(s.fwd, s.back[s.got], accepted);
    GetsKeepsIds(s.fwd, s.back[s.got], accepted);
    forall k | 0 <= k < |next.fwd.clients|
      ensures WriterOk(next.fwd.clients[k], next.fwd.connections, HeardEnd(s.back, s.got + 1, next.fwd.clients[k].id))
    {
      OneWriterKept(s, accepted, k);
    }
  }

  lemma OneWriterKept(s: State, accepted: nat, k: nat)
    requires Inv(s) && WritersOk(s) && s.got < |s.back| && k < |s.fwd.clients|
    ensures var next := CliGets(s.fwd, s.back[s.got], accepted);
            && k < |next.clients|
            && WriterOk(next.clients[k], next.connections, HeardEnd(s.back, s.got + 1, s.fwd.clients[k].id))
  {
    HeardOnlyAfterConnect(s, k);
    GetsKeepsWriter(s.fwd, s.alloc, s.back, s.got, accepted, k);
  }

  /** Steps that change neither the CLI nor what it has handled. */
  lemma UnheardKeepsWriters(s: State, next: State)
    requires Consistent(s) && Consistent(next) && WritersOk(s)
    requires next.fwd == s.fwd && next.got == s.got
    requires forall i :: 0 <= i < s.got ==> next.back[i] == s.back[i]
    ensures WritersOk(next)
  {
    forall k | 0 <= k < |s.fwd.clients|
      ensures WriterOk(s.fwd.clients[k], s.fwd.connections, HeardEnd(next.back, s.got, s.fwd.clients[k].id))
    {
      SentCommonPrefix(next.back, s.back, s.got, Close, s.fwd.clients[k].id);
      SentCommonPrefix(next.back, s.back, s.got, Error, s.fwd.clients[k].id);
    }
  }

  lemma StepKeepsWriters(s: State, step: Step)
    requires Inv(s) && WritersOk(s) && Enabled(s, step)
    ensures WritersOk(Apply(s, step))
  {
    match step
    case Client(k, move) => ClientMoveKeepsWriters(s, k, move);
    case CliReceive(accepted) => CliReceiveKeepsWriters(s, accepted);
    case Accept =>
    case _ => UnheardKeepsWriters(s, Apply(s, step));
  }

  lemma {:induction false} RunKeepsWriters(port: u16, steps: seq<Step>)
    ensures Exec(port, steps).Some? ==> WritersOk(Exec(port, steps).value)
  {
    if steps != [] {
      var before := steps[..|steps| - 1];
      RunKeepsWriters(port, before);
      RunKeeps(port, before);
      if Exec(port, before).Some? && Enabled(Exec(port, before).value, steps[|steps| - 1]) {
        StepKeepsWriters(Exec(port, before).value, steps[|steps| - 1]);
      }
    }
  }

  /**
   In every reachable state: a local connection whose CLOSE or ERROR was handled, and one whose
   coroutine ran to its end, has its writer closed and no entry in the table.
   */
  lemma HandledEndClosesWriter(s: State, k: nat)
    requires Reachable(s) && k < |s.fwd.clients| && !s.fwd.clients[k].pc.Start?
    requires || Sent(s.back, s.got, Close, s.fwd.clients[k].id)
             || Sent(s.back, s.got, Error, s.fwd.clients[k].id)
             || s.fwd.clients[k].pc == F.Done
    ensures !s.fwd.clients[k].writerOpen && s.fwd.clients[k].id !in s.fwd.connections
  {
    var port: u16, steps: seq<Step> :| Exec(port, steps) == Some(s);
    RunKeepsWriters(port, steps);
    assert WriterOk(s.fwd.clients[k], s.fwd.connections, HeardEnd(s.back, s.got, s.fwd.clients[k].id));
    ClientFacts(s, k);
  }

  // ---------------------------------------------------------------------------
  // An end on its way can be handled

  lemma AnyReceive(port: u16, steps: seq<Step>, s: State) returns (step: Step, n: State)
    requires Exec(port, steps) == Some(s) && s.got < Hearable(s)
    ensures Exec(port, steps + [step]) == Some(n) && OnlyReceived(s, n) && n.got == s.got + 1
  {
    var m := s.back[s.got];
    step := CliReceive(|m.payload|);
    n := s.(fwd := CliGets(s.fwd, m, |m.payload|), got := s.got + 1);
    ReceiveIsGets(s);
    Extend(port, steps, step);
  }

  lemma {:induction false} AllCanBeReceived(port: u16, steps: seq<Step>, s: State) returns (more: seq<Step>, n: State)
    requires Exec(port, steps) == Some(s)
    ensures Exec(port, steps + more) == Some(n) && OnlyReceived(s, n) && n.got == Hearable(s)
    decreases Hearable(s) - s.got
  {
    if s.got == Hearable(s) {
      assert steps + [] == steps;
      return [], s;
    }
    var step, m := AnyReceive(port, steps, s);
    more, n := AllCanBeReceived(port, steps + [step], m);
    StepsAppend(port, steps, [step], more, n);
    more := [step] + more;
  }

  /** While the CLI's WebSocket is up, a CLOSE or ERROR on its way back can be turned into a closed writer. */
  lemma EndCanCloseWriter(port: u16, steps: seq<Step>, s: State, k: nat) returns (more: seq<Step>, n: State)
    requires Exec(port, steps) == Some(s) && s.cliUp && k < |s.fwd.clients| && !s.fwd.clients[k].pc.Start?
    requires Sent(s.back, |s.back|, Close, s.fwd.clients[k].id) || Sent(s.back, |s.back|, Error, s.fwd.clients[k].id)
    ensures Exec(port, steps + more) == Some(n) && OnlyReceived(s, n)
    ensures !n.fwd.clients[k].writerOpen && n.fwd.clients[k].id !in n.fwd.connections
  {
    more, n := AllCanBeReceived(port, steps, s);
    assert Reachable(n);
    HandledEndClosesWriter(n, k);
  }

  // ---------------------------------------------------------------------------
  // A service that hangs up, or cannot be dialled, reaches the local connection

  /** Task `j` spoke: its message is on its way, and nothing changed at the CLI. */
  ghost predicate Spoke(s: State, n: State, j: nat, kind: MsgType) {
    && n.fwd == s.fwd && n.cliUp == s.cliUp && n.got == s.got && n.linkUp == s.linkUp && n.epoch == s.epoch
    && j < |s.mgr.tasks| == |n.mgr.tasks|
    && n.mgr.tasks[j].id == s.mgr.tasks[j].id && n.mgr.tasks[j].epoch == s.mgr.tasks[j].epoch
    && n.mgr.tasks[j].read == s.mgr.tasks[j].read
    && |n.back| == |s.back| + 1 && n.back[..|s.back|] == s.back
    && n.back[|s.back|].kind == kind && n.back[|s.back|].id == s.mgr.tasks[j].id
  }

  lemma Speaks(port: u16, steps: seq<Step>, s: State, j: nat, action: TaskMove, kind: MsgType) returns (n: State)
    requires Exec(port, steps) == Some(s) && j < |s.mgr.tasks| && Live(s, j)
    requires TaskMay(s.mgr.tasks[j], action, HasSender(s, j))
    requires (action == SendBack(true) && kind == Data) || (action == SendBackClose(true) && kind == Close)
             || (action.DialFail? && action.ok && kind == Error)
    ensures Exec(port, steps + [Task(j, action)]) == Some(n) && Spoke(s, n, j, kind)
    ensures n.mgr.tasks[j] == TaskAfter(s.mgr.tasks[j], action)
  {
    Extend(port, steps, Task(j, action));
    n := AfterTaskMove(s, j, action);
    assert |TaskSays(s.mgr.tasks[j], action)| == 1;
  }

  /** What the task still holds of its service's data can be sent. */
  lemma PendingCanBeSent(port: u16, steps: seq<Step>, s: State, j: nat) returns (more: seq<Step>, n: State)
    requires Exec(port, steps) == Some(s) && j < |s.mgr.tasks| && Live(s, j) && s.mgr.tasks[j].reader == C.Reading
    ensures Exec(port, steps + more) == Some(n) && SameCli(s, n, j)
    ensures n.mgr.tasks[j].reader == C.Reading && n.mgr.tasks[j].pending == []
  {
    if s.mgr.tasks[j].pending == [] {
      assert steps + [] == steps;
      return [], s;
    }
    more := [Task(j, SendBack(true))];
    n := Speaks(port, steps, s, j, SendBack(true), Data);
  }

  ghost predicate SameCli(s: State, n: State, j: nat) {
    && n.fwd == s.fwd && n.cliUp == s.cliUp && n.linkUp == s.linkUp && n.epoch == s.epoch
    && j < |s.mgr.tasks| && j < |n.mgr.tasks|
    && n.mgr.tasks[j].id == s.mgr.tasks[j].id && n.mgr.tasks[j].epoch == s.mgr.tasks[j].epoch
    && n.mgr.tasks[j].read == s.mgr.tasks[j].read
  }

  lemma ReadEnds(port: u16, steps: seq<Step>, s: State, j: nat) returns (n: State)
    requires Exec(port, steps) == Some(s) && j < |s.mgr.tasks|
    requires s.mgr.tasks[j].reader == C.Reading && s.mgr.tasks[j].pending == []
    ensures Exec(port, steps + [Task(j, ReadEnd)]) == Some(n) && SameCli(s, n, j)
    ensures n.mgr.tasks[j].reader == C.Closing && n.mgr.tasks[j].pending == []
  {
    Extend(port, steps, Task(j, ReadEnd));
    n := AfterTaskMove(s, j, ReadEnd);
  }

  /** The service ends its side: the task can send all it read, and then CLOSE. */
  lemma HangUpIsSent(port: u16, steps: seq<Step>, s: State, j: nat) returns (more: seq<Step>, n: State)
    requires Exec(port, steps) == Some(s) && j < |s.mgr.tasks| && Live(s, j) && s.mgr.tasks[j].reader == C.Reading
    ensures Exec(port, steps + more) == Some(n) && SameCli(s, n, j) && Live(n, j) && n.mgr.tasks[j].pending == []
    ensures Sent(n.back, |n.back|, Close, n.mgr.tasks[j].id)
  {
    var flush, a := PendingCanBeSent(port, steps, s, j);
    var b := ReadEnds(port, steps + flush, a, j);
    var ended := steps + flush + [Task(j, ReadEnd)];
    n := Speaks(port, ended, b, j, SendBackClose(true), Close);
    more := flush + [Task(j, ReadEnd)] + [Task(j, SendBackClose(true))];
    assert steps + more == ended + [Task(j, SendBackClose(true))];
  }

  lemma SentHangUpArrives(port: u16, steps: seq<Step>, s: State, j: nat, k: nat) returns (more: seq<Step>, n: State)
    requires Exec(port, steps) == Some(s) && s.cliUp
    requires j < |s.mgr.tasks| && Live(s, j) && s.mgr.tasks[j].pending == []
    requires k < |s.fwd.clients| && !s.fwd.clients[k].pc.Start? && s.fwd.clients[k].id == s.mgr.tasks[j].id
    requires Sent(s.back, |s.back|, Close, s.mgr.tasks[j].id)
    ensures Exec(port, steps + more) == Some(n) && OnlyReceived(s, n)
    ensures !n.fwd.clients[k].writerOpen && n.fwd.clients[k].id !in n.fwd.connections
    ensures s.fwd.clients[k].id in s.fwd.connections && s.fwd.clients[k].writerOpen ==>
              n.fwd.clients[k].wrote == s.mgr.tasks[j].read
  {
    if s.fwd.clients[k].id in s.fwd.connections && s.fwd.clients[k].writerOpen {
      more, n := EveryAnswerCanArrive(port, steps, s, j, k);
      assert Reachable(n);
      HandledEndClosesWriter(n, k);
    } else {
      more, n := EndCanCloseWriter(port, steps, s, k);
    }
  }

  /**
   While both WebSockets are up, a service that hangs up can reach the local connection: some
   continuation closes the local writer, and one that was registered and open has then taken all
   that was read from the service.
   */
  lemma HangUpReachesLocal(port: u16, steps: seq<Step>, s: State, j: nat, k: nat) returns (more: seq<Step>, n: State)
    requires Exec(port, steps) == Some(s) && s.cliUp
    requires j < |s.mgr.tasks| && Live(s, j) && s.mgr.tasks[j].reader == C.Reading
    requires k < |s.fwd.clients| && !s.fwd.clients[k].pc.Start? && s.fwd.clients[k].id == s.mgr.tasks[j].id
    ensures Exec(port, steps + more) == Some(n) && k < |n.fwd.clients| && n.fwd.clients[k].id == s.fwd.clients[k].id
    ensures !n.fwd.clients[k].writerOpen && n.fwd.clients[k].id !in n.fwd.connections
    ensures s.fwd.clients[k].id in s.fwd.connections && s.fwd.clients[k].writerOpen ==>
              n.fwd.clients[k].wrote == s.mgr.tasks[j].read
  {
    var first, m := HangUpIsSent(port, steps, s, j);
    var second;
    second, n := SentHangUpArrives(port, steps + first, m, j, k);
    StepsAppend(port, steps, first, second, n);
    more := first + second;
  }

  /** The same for a service that cannot be dialled, by the ERROR its task sends. */
  lemma FailedDialReachesLocal(port: u16, steps: seq<Step>, s: State, j: nat, k: nat, reason: Bytes)
    returns (more: seq<Step>, n: State)
    requires Exec(port, steps) == Some(s) && s.cliUp
    requires j < |s.mgr.tasks| && Live(s, j) && s.mgr.tasks[j].dial == C.Dialing
    requires k < |s.fwd.clients| && !s.fwd.clients[k].pc.Start? && s.fwd.clients[k].id == s.mgr.tasks[j].id
    ensures Exec(port, steps + more) == Some(n) && k < |n.fwd.clients| && n.fwd.clients[k].id == s.fwd.clients[k].id
    ensures !n.fwd.clients[k].writerOpen && n.fwd.clients[k].id !in n.fwd.connections
  {
    var action := DialFail(reason, true);
    var m := Speaks(port, steps, s, j, action, Error);
    var second;
    second, n := EndCanCloseWriter(port, steps + [Task(j, action)], m, k);
    StepsAppend(port, steps, [Task(j, action)], second, n);
    more := [Task(j, action)] + second;
  }

  // ---------------------------------------------------------------------------
  // A local end reaches the service

  lemma OneMove(port: u16, steps: seq<Step>, s: State, j: nat, action: TaskMove) returns (n: State)
    requires Exec(port, steps) == Some(s) && j < |s.mgr.tasks| && TaskMay(s.mgr.tasks[j], action, HasSender(s, j))
    ensures Exec(port, steps + [Task(j, action)]) == Some(n)
    ensures n.mgr.connections == s.mgr.connections && |n.mgr.tasks| == |s.mgr.tasks|
    ensures n.mgr.tasks[j] == TaskAfter(s.mgr.tasks[j], action)
  {
    Extend(port, steps, Task(j, action));
    n := AfterTaskMove(s, j, action);
  }

  /** A task with nothing to write that has still to dial can do so. */
  lemma CanBePumping(port: u16, steps: seq<Step>, s: State, j: nat) returns (more: seq<Step>, n: State)
    requires Exec(port, steps) == Some(s) && j < |s.mgr.tasks| && s.mgr.tasks[j].rxOpen && !HasWork(s.mgr.tasks[j])
    ensures Exec(port, steps + more) == Some(n) && j < |n.mgr.tasks| && n.mgr.connections == s.mgr.connections
    ensures var t, u := s.mgr.tasks[j], n.mgr.tasks[j];
            u.id == t.id && u.dial == C.Pumping && u.rxOpen && !HasWork(u) && u.written == t.written
    decreases match s.mgr.tasks[j].dial { case Dialing => 2 case Dialed => 1 case _ => 0 }
  {
    RunKeepsWilling(port, steps);
    assert Willing(s.mgr.tasks[j]);
    if s.mgr.tasks[j].dial == C.Pumping {
      assert steps + [] == steps;
      return [], s;
    }
    var action := if s.mgr.tasks[j].dial == C.Dialing then DialOk else SendConnected(true);
    var m := OneMove(port, steps, s, j, action);
    more, n := CanBePumping(port, steps + [Task(j, action)], m, j);
    StepsAppend(port, steps, [Task(j, action)], more, n);
    more := [Task(j, action)] + more;
  }

  lemma IdleWritingEnds(port: u16, steps: seq<Step>, s: State, j: nat) returns (more: seq<Step>, n: State)
    requires Exec(port, steps) == Some(s) && j < |s.mgr.tasks| && !HasSender(s, j)
    requires s.mgr.tasks[j].rxOpen && !HasWork(s.mgr.tasks[j])
    ensures Exec(port, steps + more) == Some(n) && j < |n.mgr.tasks|
    ensures !n.mgr.tasks[j].rxOpen && n.mgr.tasks[j].written == s.mgr.tasks[j].written
  {
    var pump, m := CanBePumping(port, steps, s, j);
    n := OneMove(port, steps + pump, m, j, WriterEnd);
    StepsAppend(port, steps, pump, [Task(j, WriterEnd)], n);
    more := pump + [Task(j, WriterEnd)];
  }

  lemma IdleHasWritten(t: C.Task)
    requires t.rxOpen && !HasWork(t)
    ensures t.written == Accounted(t)
  {
  }

  /**
   Once the manager has let go of a task's channel - its CLOSE was handled or the tunnel was lost -
   the task alone can write all that the channel was given and then end its side of the service socket.
   */
  lemma EndReachesService(port: u16, steps: seq<Step>, s: State, j: nat) returns (more: seq<Step>, n: State)
    requires Exec(port, steps) == Some(s) && j < |s.mgr.tasks| && s.mgr.tasks[j].rxOpen && !HasSender(s, j)
    ensures Exec(port, steps + more) == Some(n) && j < |n.mgr.tasks|
    ensures !n.mgr.tasks[j].rxOpen && n.mgr.tasks[j].written == Accounted(s.mgr.tasks[j])
  {
    var first, a := ChannelCanBeWritten(port, steps, s, j);
    assert SameTask(s.mgr.tasks[j], a.mgr.tasks[j]);
    IdleHasWritten(a.mgr.tasks[j]);
    var second;
    second, n := IdleWritingEnds(port, steps + first, a, j);
    StepsAppend(port, steps, first, second, n);
    more := first + second;
  }

  /** Client `k` moved while the CLI's WebSocket is up; the other side saw nothing yet. */
  ghost predicate Moved(s: State, n: State, k: nat) {
    && n.cliUp && n.linkUp == s.linkUp && n.epoch == s.epoch && n.mgr == s.mgr
    && k < |s.fwd.clients| == |n.fwd.clients|
    && n.fwd.clients[k].id == s.fwd.clients[k].id && n.fwd.clients[k].read == s.fwd.clients[k].read
  }

  lemma OneClientMove(port: u16, steps: seq<Step>, s: State, k: nat, move: ClientMove) returns (n: State)
    requires Exec(port, steps) == Some(s) && s.cliUp && k < |s.fwd.clients| && ClientMay(s.fwd.clients[k], move)
    requires move in {SendData, LocalEnd, SendClose} && s.fwd.clients[k].id < U32_LIMIT
    ensures Exec(port, steps + [Client(k, move)]) == Some(n) && Moved(s, n, k)
    ensures move == SendData ==> n.fwd.clients[k].pc == F.Relaying && n.fwd.clients[k].pending == []
    ensures move != SendData ==> n.fwd.clients[k].pending == s.fwd.clients[k].pending
    ensures move == LocalEnd ==> n.fwd.clients[k].pc == F.Closing
    ensures move == SendClose ==> Sent(n.wire, |n.wire|, Close, n.fwd.clients[k].id)
  {
    Extend(port, steps, Client(k, move));
    n := AfterClientMove(s, k, move);
    if move == SendClose {
      assert n.wire[|s.wire|] == Message(Close, s.fwd.clients[k].id, 0, []);
    }
  }

  /** A local connection that reaches its end can send what is left, and then CLOSE. */
  lemma LocalEndIsSent(port: u16, steps: seq<Step>, s: State, k: nat) returns (more: seq<Step>, n: State)
    requires Exec(port, steps) == Some(s) && s.cliUp && k < |s.fwd.clients| && s.fwd.clients[k].pc == F.Relaying
    ensures Exec(port, steps + more) == Some(n) && Moved(s, n, k)
    ensures n.fwd.clients[k].pending == [] && Sent(n.wire, |n.wire|, Close, n.fwd.clients[k].id)
  {
    assert s.fwd.clients[k].id < U32_LIMIT by { assert Reachable(s); ClientFacts(s, k); }
    var flush: seq<Step>, a := [], s;
    if s.fwd.clients[k].pending != [] {
      flush := [Client(k, SendData)];
      a := OneClientMove(port, steps, s, k, SendData);
    } else {
      assert steps + [] == steps;
    }
    var b := OneClientMove(port, steps + flush, a, k, LocalEnd);
    n := OneClientMove(port, steps + flush + [Client(k, LocalEnd)], b, k, SendClose);
    more := flush + [Client(k, LocalEnd)] + [Client(k, SendClose)];
    assert steps + more == steps + flush + [Client(k, LocalEnd)] + [Client(k, SendClose)];
  }

  lemma HandledCloseLetsGo(s: State, j: nat, k: nat)
    requires Reachable(s) && s.taken == |s.wire|
    requires j < |s.mgr.tasks| && k < |s.fwd.clients| && s.fwd.clients[k].id == s.mgr.tasks[j].id
    requires Live(s, j) && s.mgr.tasks[j].rxOpen && s.fwd.clients[k].pending == []
    requires Sent(s.wire, |s.wire|, Close, s.mgr.tasks[j].id)
    ensures !HasSender(s, j) && Accounted(s.mgr.tasks[j]) == s.fwd.clients[k].read
  {
    MapIsOpenConnections(s, s.mgr.tasks[j].id);
    ForwardConservation(s, j, k);
  }

  lemma SentEndIsHandled(port: u16, steps: seq<Step>, s: State, j: nat, k: nat) returns (more: seq<Step>, n: State)
    requires Exec(port, steps) == Some(s) && s.cliUp
    requires j < |s.mgr.tasks| && Live(s, j) && s.mgr.tasks[j].rxOpen
    requires k < |s.fwd.clients| && s.fwd.clients[k].id == s.mgr.tasks[j].id && s.fwd.clients[k].pending == []
    requires Sent(s.wire, |s.wire|, Close, s.mgr.tasks[j].id)
    ensures Exec(port, steps + more) == Some(n) && j < |n.mgr.tasks| && n.mgr.tasks[j].rxOpen
    ensures !HasSender(n, j) && Accounted(n.mgr.tasks[j]) == s.fwd.clients[k].read
  {
    more, n := InFlightCanBeHandled(port, steps, s);
    assert SameTask(s.mgr.tasks[j], n.mgr.tasks[j]);
    assert Reachable(n);
    HandledCloseLetsGo(n, j, k);
  }

  /**
   While both WebSockets are up and a task's receiver lives, the end of its local connection can
   reach the service: some continuation writes all that was read from that connection and
   then ends the task's side of the service socket.
   */
  lemma LocalEndReachesService(port: u16, steps: seq<Step>, s: State, j: nat, k: nat) returns (more: seq<Step>, n: State)
    requires Exec(port, steps) == Some(s) && s.cliUp
    requires j < |s.mgr.tasks| && Live(s, j) && s.mgr.tasks[j].rxOpen
    requires k < |s.fwd.clients| && s.fwd.clients[k].pc == F.Relaying && s.fwd.clients[k].id == s.mgr.tasks[j].id
    ensures Exec(port, steps + more) == Some(n) && j < |n.mgr.tasks|
    ensures !n.mgr.tasks[j].rxOpen && n.mgr.tasks[j].written == s.fwd.clients[k].read
  {
    var first, a := LocalEndIsSent(port, steps, s, k);
    var second, b := SentEndIsHandled(port, steps + first, a, j, k);
    StepsAppend(port, steps, first, second, b);
    var third;
    third, n := EndReachesService(port, steps + (first + second), b, j);
    StepsAppend(port, steps, first + second, third, n);
    more := first + second + third;
  }

  // ---------------------------------------------------------------------------
  // Sends and writes that fail

  /**
   Once the CLI's WebSocket is lost, a coroutine whose CONNECT cannot be sent closes its writer and
   takes its entry back; one whose data cannot be sent stops relaying, with the data unsent.
   */
  lemma FailedSendEndsCoroutine(s: State, k: nat, move: ClientMove)
    requires Consistent(s) && !s.cliUp && k < |s.fwd.clients| && ClientMay(s.fwd.clients[k], move)
    requires (move == SendConnect || move == SendData) && s.fwd.clients[k].id < U32_LIMIT
    ensures var c, n := s.fwd.clients[k], Apply(s, Client(k, move));
            && n.wire == s.wire && n.back == s.back && n.mgr == s.mgr && |n.fwd.clients| == |s.fwd.clients|
            && (move == SendConnect ==>
                  n.fwd.clients[k] == c.(pc := F.Done, writerOpen := false) && c.id !in n.fwd.connections)
            && (move == SendData ==> n.fwd.clients[k] == c.(pc := F.Closing) && n.fwd.connections == s.fwd.connections)
  {
  }

  /**
   A task whose CONNECTED cannot be sent gives up, dropping its channel. One whose data cannot be
   sent back stops reading. One whose write fails drops its channel but goes on reading.
   */
  lemma FailedSendEndsTask(s: State, j: nat, accepted: nat)
    requires Consistent(s) && j < |s.mgr.tasks|
    ensures var t := s.mgr.tasks[j];
            && (TaskMay(t, SendConnected(false), HasSender(s, j)) ==>
                  var n := Apply(s, Task(j, SendConnected(false)));
                  && n.back == s.back && n.mgr.connections == s.mgr.connections
                  && n.mgr.tasks == s.mgr.tasks[j := t.(dial := C.Failed, rxOpen := false, chan := [], hand := None)])
            && (TaskMay(t, SendBack(false), HasSender(s, j)) ==>
                  var n := Apply(s, Task(j, SendBack(false)));
                  && n.back == s.back && n.mgr.connections == s.mgr.connections
                  && n.mgr.tasks == s.mgr.tasks[j := t.(reader := C.Closing)])
            && (TaskMay(t, Write(accepted), HasSender(s, j)) && accepted < |t.hand.value| ==>
                  var n := Apply(s, Task(j, Write(accepted)));
                  && n.back == s.back && n.mgr.connections == s.mgr.connections
                  && n.mgr.tasks == s.mgr.tasks[j := t.(written := t.written + t.hand.value[..accepted],
                                                        rxOpen := false, chan := [], hand := None)])
  {
  }
}
