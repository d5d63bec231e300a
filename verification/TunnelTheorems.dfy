/** What holds of the tunnel in every state that any run of it can reach. */
module TunnelTheorems {
  import opened Wrappers
  import opened Frames
  import opened Logs
  import opened Tunnel
  import opened TunnelInvariant
  import C = Connections
  import F = Forwarders

  /** Some run of the tunnel ends in `s`. */
  ghost predicate Reachable(s: State): (reachable: bool)
    ensures reachable ==> Consistent(s)
  {
    exists port: u16, steps: seq<Step> :: Exec(port, steps) == Some(s)
  }

  lemma ReachableInv(s: State)
    requires Reachable(s)
    ensures Inv(s)
  {
    var port: u16, steps: seq<Step> :| Exec(port, steps) == Some(s);
    RunKeeps(port, steps);
  }

  lemma ClientFacts(s: State, k: nat)
    requires Reachable(s) && k < |s.fwd.clients|
    ensures Consistent(s)
    ensures ClientOk(s.fwd.clients[k], s.wire, s.cliUp)
    ensures LocalOk(s.fwd.clients[k], s.fwd.connections, s.back, s.got)
  {
    ReachableInv(s);
  }

  lemma TaskFacts(s: State, j: nat)
    requires Reachable(s) && j < |s.mgr.tasks|
    ensures Consistent(s)
    ensures TaskOk(s.mgr.tasks[j], s.wire, s.taken, s.back, Live(s, j))
    ensures !Silent(s.wire, |s.wire|, s.mgr.tasks[j].id)
  {
    ReachableInv(s);
  }

  /** No two clients share an id, and no two tasks do. */
  lemma ClientsDiffer(s: State, i: nat, j: nat)
    requires Reachable(s) && i < |s.fwd.clients| && j < |s.fwd.clients|
    requires !s.fwd.clients[i].pc.Start? && s.fwd.clients[i].id == s.fwd.clients[j].id
    ensures i == j
  {
    ReachableInv(s);
    if i != j {
      OthersHaveOtherIds(s, i, j);
    }
  }

  lemma TasksDiffer(s: State, i: nat, j: nat)
    requires Reachable(s) && i < |s.mgr.tasks| && j < |s.mgr.tasks| && s.mgr.tasks[i].id == s.mgr.tasks[j].id
    ensures i == j
  {
    assert UniqueIds(s.mgr.tasks) by { ReachableInv(s); }
    assert !(i < j) && !(j < i);
  }

  /** The client that an id on the wire was given to. */
  lemma ClientOfMessage(s: State, i: nat) returns (k: nat)
    requires IdsOk(s.fwd, s.alloc) && WireOk(s.wire, |s.alloc|) && i < |s.wire|
    ensures k < |s.fwd.clients| && s.fwd.clients[k].id == s.wire[i].id && !s.fwd.clients[k].pc.Start?
  {
    k := s.alloc[s.wire[i].id - 1];
  }

  /** The client a task's id was given to. */
  lemma ClientOfTask(s: State, j: nat) returns (k: nat)
    requires Reachable(s) && j < |s.mgr.tasks|
    ensures k < |s.fwd.clients| && s.fwd.clients[k].id == s.mgr.tasks[j].id && !s.fwd.clients[k].pc.Start?
  {
    var id := s.mgr.tasks[j].id;
    assert Sent(s.wire, s.taken, Connect, id) by { TaskFacts(s, j); }
    var i :| 0 <= i < s.taken && s.wire[i].kind == Connect && s.wire[i].id == id;
    assert IdsOk(s.fwd, s.alloc) && WireOk(s.wire, |s.alloc|) by { ReachableInv(s); }
    k := ClientOfMessage(s, i);
  }

  /** The payload bytes for `id` still in flight: in `log` from position `from` on. */
  ghost function InFlight(log: seq<Message>, from: nat, id: nat): Bytes
    requires from <= |log|
  {
    DataOf(log[from..], |log| - from, id)
  }

  lemma {:induction false} DataOfSplit(log: seq<Message>, m: nat, n: nat, id: nat)
    requires m <= n <= |log|
    ensures DataOf(log, n, id) == DataOf(log, m, id) + DataOf(log[m..], n - m, id)
    decreases n
  {
    if m < n {
      DataOfSplit(log, m, n - 1, id);
      assert log[m..][n - m - 1] == log[n - 1];
    }
  }

  // ---------------------------------------------------------------------------
  // Isolation

  /**
   Towards the service. Every task belongs to exactly one local connection, no second task ever
   serves its id, and what it wrote to its socket is a prefix of what was read from that
   connection - whatever was lost, closed or reconnected in between.
   */
  lemma ForwardIsolation(s: State, j: nat)
    requires Reachable(s) && j < |s.mgr.tasks|
    ensures exists k ::
              && 0 <= k < |s.fwd.clients| && s.fwd.clients[k].id == s.mgr.tasks[j].id
              && s.mgr.tasks[j].written <= s.fwd.clients[k].read
              && (forall i :: 0 <= i < |s.fwd.clients| && s.fwd.clients[i].id == s.mgr.tasks[j].id ==> i == k)
    ensures forall i :: 0 <= i < |s.mgr.tasks| && s.mgr.tasks[i].id == s.mgr.tasks[j].id ==> i == j
  {
    var t := s.mgr.tasks[j];
    var k := ClientOfTask(s, j);
    TaskFacts(s, j);
    ClientFacts(s, k);
    DataOfMonotone(s.wire, s.taken, |s.wire|, t.id);
    assert t.written <= DataOf(s.wire, s.taken, t.id) <= s.fwd.clients[k].read;
    forall i | 0 <= i < |s.fwd.clients| && s.fwd.clients[i].id == t.id
      ensures i == k
    {
      ClientsDiffer(s, k, i);
    }
    forall i | 0 <= i < |s.mgr.tasks| && s.mgr.tasks[i].id == t.id
      ensures i == j
    {
      TasksDiffer(s, i, j);
    }
  }

  /**
   Towards the local connection. Whatever a local writer took came from the one task with its
   id, as a prefix of what that task read from its socket; without such a task it took nothing.
   */
  lemma ReverseIsolation(s: State, k: nat)
    requires Reachable(s) && k < |s.fwd.clients|
    ensures s.fwd.clients[k].wrote == [] || exists j ::
              && 0 <= j < |s.mgr.tasks| && s.mgr.tasks[j].id == s.fwd.clients[k].id
              && s.fwd.clients[k].wrote <= s.mgr.tasks[j].read
              && (forall i :: 0 <= i < |s.mgr.tasks| && s.mgr.tasks[i].id == s.fwd.clients[k].id ==> i == j)
  {
    var c := s.fwd.clients[k];
    ClientFacts(s, k);
    if j :| 0 <= j < |s.mgr.tasks| && s.mgr.tasks[j].id == c.id {
      TaskFacts(s, j);
      DataOfMonotone(s.back, s.got, |s.back|, c.id);
      assert c.wrote <= DataOf(s.back, s.got, c.id) <= s.mgr.tasks[j].read;
      forall i | 0 <= i < |s.mgr.tasks| && s.mgr.tasks[i].id == c.id
        ensures i == j
      {
        TasksDiffer(s, i, j);
      }
    } else {
      AnswersNeedATask(s, c.id);
    }
  }

  lemma AnswersNeedATask(s: State, id: nat)
    requires Reachable(s) && !HasTask(s.mgr.tasks, id)
    ensures Consistent(s) && DataOf(s.back, s.got, id) == []
  {
    ReachableInv(s);
    forall i | 0 <= i < |s.back|
      ensures s.back[i].id != id
    {
      assert HasTask(s.mgr.tasks, s.back[i].id);
    }
    DataOfSilent(s.back, s.got, id);
  }

  // ---------------------------------------------------------------------------
  // Nothing is lost on a connection that stays up

  lemma TaskHasSpeaker(s: State, j: nat, k: nat)
    requires Reachable(s) && j < |s.mgr.tasks| && k < |s.fwd.clients|
    requires s.fwd.clients[k].id == s.mgr.tasks[j].id
    ensures DataOf(s.wire, |s.wire|, s.fwd.clients[k].id) + s.fwd.clients[k].pending == s.fwd.clients[k].read
  {
    var c := s.fwd.clients[k];
    assert !c.pc.Start? by { var i := ClientOfTask(s, j); ClientsDiffer(s, i, k); }
    assert !Silent(s.wire, |s.wire|, c.id) by { TaskFacts(s, j); }
    assert ClientOk(c, s.wire, s.cliUp) by { ClientFacts(s, k); }
  }

  /**
   While a task's tunnel connection and its receiving half live, every byte read from the local
   connection is, in order, written, in the task's hand or channel, in flight, or not yet sent.
   */
  lemma ForwardConservation(s: State, j: nat, k: nat)
    requires Reachable(s) && j < |s.mgr.tasks| && k < |s.fwd.clients|
    requires s.fwd.clients[k].id == s.mgr.tasks[j].id
    requires Live(s, j) && s.mgr.tasks[j].rxOpen
    ensures var t, c := s.mgr.tasks[j], s.fwd.clients[k];
            c.read == t.written + InHand(t) + Concat(t.chan) + InFlight(s.wire, s.taken, t.id) + c.pending
  {
    var t, c := s.mgr.tasks[j], s.fwd.clients[k];
    assert DataOf(s.wire, |s.wire|, t.id) + c.pending == c.read by { TaskHasSpeaker(s, j, k); }
    assert t.written + InHand(t) + Concat(t.chan) == DataOf(s.wire, s.taken, t.id) by { TaskFacts(s, j); }
    DataOfSplit(s.wire, s.taken, |s.wire|, t.id);
  }

  /** The same towards the local connection, while its writer is registered and open. */
  lemma ReverseConservation(s: State, j: nat, k: nat)
    requires Reachable(s) && j < |s.mgr.tasks| && k < |s.fwd.clients|
    requires s.fwd.clients[k].id == s.mgr.tasks[j].id
    requires Live(s, j) && s.fwd.clients[k].id in s.fwd.connections && s.fwd.clients[k].writerOpen
    ensures var t, c := s.mgr.tasks[j], s.fwd.clients[k];
            t.read == c.wrote + InFlight(s.back, s.got, t.id) + t.pending
  {
    var t, c := s.mgr.tasks[j], s.fwd.clients[k];
    assert DataOf(s.back, |s.back|, t.id) + t.pending == t.read by { TaskFacts(s, j); }
    assert c.wrote == DataOf(s.back, s.got, t.id) by { ClientFacts(s, k); }
    DataOfSplit(s.back, s.got, |s.back|, t.id);
  }

  // ---------------------------------------------------------------------------
  // The manager's map and the forwarder's table

  /** The map holds exactly the ids opened on the present tunnel connection and not closed on it. */
  lemma MapIsOpenConnections(s: State, id: u32)
    requires Reachable(s)
    ensures id in s.mgr.connections <==>
            (exists j :: 0 <= j < |s.mgr.tasks| && s.mgr.tasks[j].id == id && Live(s, j))
            && !Sent(s.wire, s.taken, Close, id)
  {
    ReachableInv(s);
    if id in s.mgr.connections {
      var j := s.mgr.connections[id];
      assert s.mgr.tasks[j].id == id && Live(s, j);
    }
  }

  predicate Ended(c: F.Client) {
    c.pc == F.Done || c.pc == F.Crashed
  }

  /** Whichever side closed first: once all coroutines ended and all is handled, the map is empty. */
  lemma MapDrains(s: State)
    requires Reachable(s) && s.cliUp && s.taken == |s.wire|
    requires forall k :: 0 <= k < |s.fwd.clients| ==> Ended(s.fwd.clients[k])
    ensures s.mgr.connections == map[]
  {
    forall id <- s.mgr.connections
      ensures false
    {
      MapIsOpenConnections(s, id);
      var j :| 0 <= j < |s.mgr.tasks| && s.mgr.tasks[j].id == id && Live(s, j);
      var k := ClientOfTask(s, j);
      TaskFacts(s, j);
      ClientFacts(s, k);
    }
  }

  /**
   The forwarder's own table empties too, unless ids ran past 32 bits: a coroutine whose CONNECT
   cannot be packed dies before its clean-up and leaves its entry behind.
   */
  lemma TableDrains(s: State)
    requires Reachable(s)
    requires forall k :: 0 <= k < |s.fwd.clients| ==> Ended(s.fwd.clients[k])
    ensures s.fwd.connections == map[] <==> s.fwd.nextId <= U32_LIMIT
  {
    forall id <- s.fwd.connections
      ensures id >= U32_LIMIT && id < s.fwd.nextId
    {
      assert 1 <= id < s.fwd.nextId by { ReachableInv(s); }
      var k := ClientOfId(s, id);
      ClientFacts(s, k);
    }
    if s.fwd.nextId > U32_LIMIT {
      var k := ClientOfId(s, U32_LIMIT);
      ClientFacts(s, k);
    }
  }

  /** Every id below the counter was given to a client. */
  lemma ClientOfId(s: State, id: nat) returns (k: nat)
    requires Reachable(s) && 1 <= id < s.fwd.nextId
    ensures k < |s.fwd.clients| && s.fwd.clients[k].id == id && !s.fwd.clients[k].pc.Start?
  {
    ReachableInv(s);
    k := s.alloc[id - 1];
  }

  // ---------------------------------------------------------------------------
  // An id is served once

  ghost predicate Gone(s: State, id: u32)
    requires Consistent(s)
  {
    Sent(s.wire, s.taken, Connect, id) && id !in s.mgr.connections
  }

  lemma OnlyConnectSpawns(m: C.Manager, epoch: nat, msg: Message, id: u32)
    requires C.WellFormed(m) && (msg.kind == Connect ==> msg.id != id)
    ensures var next := ManagerGets(m, epoch, msg);
            && (HasTask(next.tasks, id) ==> HasTask(m.tasks, id))
            && (id in next.connections ==> id in m.connections)
  {
    var next := ManagerGets(m, epoch, msg);
    if i :| 0 <= i < |next.tasks| && next.tasks[i].id == id {
      assert i < |m.tasks| && m.tasks[i].id == id;
    }
  }

  lemma GoneDeliver(s: State, id: u32)
    requires ServiceSide(s) && Enabled(s, Deliver) && Gone(s, id)
    ensures var next := Apply(s, Deliver);
            Gone(next, id) && (HasTask(next.mgr.tasks, id) ==> HasTask(s.mgr.tasks, id))
  {
    var m := s.wire[s.taken];
    ManagerReads(s.mgr, s.epoch, m);
    SentMonotone(s.wire, s.taken, s.taken + 1, Connect, id);
    if m.kind == Connect {
      ConnectIsNew(s);
    }
    OnlyConnectSpawns(s.mgr, s.epoch, m, id);
  }

  lemma GoneTaskMove(s: State, j: nat, action: TaskMove, id: u32)
    requires Consistent(s) && Enabled(s, Task(j, action)) && Gone(s, id)
    ensures var next := Apply(s, Task(j, action));
            Gone(next, id) && (HasTask(next.mgr.tasks, id) ==> HasTask(s.mgr.tasks, id))
  {
    var next := Apply(s, Task(j, action));
    TaskKeepsIdentity(s.mgr.tasks[j], action, HasSender(s, j));
    if i :| 0 <= i < |next.mgr.tasks| && next.mgr.tasks[i].id == id {
      assert s.mgr.tasks[i].id == id;
    }
  }

  lemma GoneStep(s: State, step: Step, id: u32)
    requires ServiceSide(s) && Enabled(s, step) && Gone(s, id)
    ensures var next := Apply(s, step);
            Gone(next, id) && (HasTask(next.mgr.tasks, id) ==> HasTask(s.mgr.tasks, id))
  {
    match step
    case Client(k, move) => SentCommonPrefix(Apply(s, step).wire, s.wire, s.taken, Connect, id);
    case RelayDrop => SentMonotone(s.wire, s.taken, s.taken + 1, Connect, id);
    case Deliver => GoneDeliver(s, id);
    case Task(j, action) => GoneTaskMove(s, j, action, id);
    case _ =>
  }

  /**
   Once the CONNECT of an id was handled or lost and the map does not hold the id, no later
   manager ever holds it again and no task for it is ever started: DATA still on its way
   to it is dropped, across any number of reconnects.
   */
  lemma {:induction false} ServedOnce(port: u16, steps: seq<Step>, more: seq<Step>, id: u32)
    requires Exec(port, steps).Some? && Gone(Exec(port, steps).value, id)
    requires Exec(port, steps + more).Some?
    ensures var s, later := Exec(port, steps).value, Exec(port, steps + more).value;
            && id !in later.mgr.connections
            && (HasTask(later.mgr.tasks, id) ==> HasTask(s.mgr.tasks, id))
            && Gone(later, id)
  {
    if more == [] {
      assert steps + more == steps;
    } else {
      var n := |more| - 1;
      assert (steps + more)[..|steps + more| - 1] == steps + more[..n];
      assert (steps + more)[|steps + more| - 1] == more[n];
      ServedOnce(port, steps, more[..n], id);
      RunKeeps(port, steps + more[..n]);
      GoneStep(Exec(port, steps + more[..n]).value, more[n], id);
    }
  }
}
