/**
 The way back. No task sends DATA after its CLOSE or ERROR, so a local connection that is still
 registered loses nothing by the messages that unregister it.
 */
module TunnelAnswers {
  import opened Wrappers
  import opened Frames
  import opened Logs
  import opened Tunnel
  import opened TunnelInvariant
  import opened TunnelTheorems
  import opened TunnelProgress
  import C = Connections
  import F = Forwarders

  predicate Ends(m: Message) {
    m.kind == Close || m.kind == Error
  }

  /** The task will send nothing for the local connection any more. */
  predicate Muted(t: C.Task) {
    t.reader == C.Ended || t.dial == C.Failed
  }

  predicate InPhase(t: C.Task) {
    t.dial != C.Pumping ==> t.reader == C.NotStarted
  }

  ghost predicate NoDataAfterEnd(back: seq<Message>) {
    forall i, j :: 0 <= i < j < |back| && Ends(back[i]) && back[j].id == back[i].id ==> back[j].kind != Data
  }

  ghost predicate EndedAreMuted(back: seq<Message>, t: C.Task) {
    forall i :: 0 <= i < |back| && Ends(back[i]) && back[i].id == t.id ==> Muted(t)
  }

  ghost predicate Orderly(s: State) {
    && NoDataAfterEnd(s.back)
    && forall j :: 0 <= j < |s.mgr.tasks| ==> InPhase(s.mgr.tasks[j]) && EndedAreMuted(s.back, s.mgr.tasks[j])
  }

  // ---------------------------------------------------------------------------
  // Every run keeps the order

  lemma TaskMoveKeepsPhase(t: C.Task, action: TaskMove, hasSender: bool)
    requires InPhase(t) && TaskMay(t, action, hasSender)
    ensures var u := TaskAfter(t, action);
            && u.id == t.id && InPhase(u) && (Muted(t) ==> Muted(u) && TaskSays(t, action) == [])
            && (forall m <- TaskSays(t, action) :: m.id == t.id && (Ends(m) ==> Muted(u)))
  {
  }

  lemma SayingKeepsOrder(back: seq<Message>, t: C.Task, m: Message)
    requires NoDataAfterEnd(back) && EndedAreMuted(back, t) && m.id == t.id && !Muted(t)
    ensures NoDataAfterEnd(back + [m])
  {
  }

  lemma SayingKeepsOthers(back: seq<Message>, t: C.Task, m: Message)
    requires EndedAreMuted(back, t) && (m.id == t.id && Ends(m) ==> Muted(t))
    ensures EndedAreMuted(back + [m], t)
  {
  }

  lemma TaskMoveKeepsOrder(s: State, j: nat, action: TaskMove)
    requires Consistent(s) && UniqueIds(s.mgr.tasks) && Orderly(s)
    requires j < |s.mgr.tasks| && TaskMay(s.mgr.tasks[j], action, HasSender(s, j))
    ensures Orderly(AfterTaskMove(s, j, action))
  {
    var next, t := AfterTaskMove(s, j, action), s.mgr.tasks[j];
    TaskMoveKeepsPhase(t, action, HasSender(s, j));
    var says := TaskSays(t, action);
    if next.back != s.back {
      SayingKeepsOrder(s.back, t, says[0]);
      assert next.back == s.back + [says[0]];
    }
    forall i | 0 <= i < |next.mgr.tasks|
      ensures InPhase(next.mgr.tasks[i]) && EndedAreMuted(next.back, next.mgr.tasks[i])
    {
      var u := next.mgr.tasks[i];
      assert EndedAreMuted(s.back, s.mgr.tasks[i]);
      assert EndedAreMuted(s.back, u);
      if next.back != s.back {
        assert i != j ==> u.id != t.id;
        SayingKeepsOthers(s.back, u, says[0]);
      }
    }
  }

  lemma DeliverKeepsOrder(s: State)
    requires Inv(s) && Orderly(s) && Enabled(s, Deliver)
    ensures Orderly(Apply(s, Deliver))
  {
    var m, next := s.wire[s.taken], Apply(s, Deliver);
    ManagerReads(s.mgr, s.epoch, m);
    assert next.back == s.back;
    forall i | 0 <= i < |next.mgr.tasks|
      ensures InPhase(next.mgr.tasks[i]) && EndedAreMuted(next.back, next.mgr.tasks[i])
    {
      if i < |s.mgr.tasks| {
        assert EndedAreMuted(s.back, s.mgr.tasks[i]) && InPhase(s.mgr.tasks[i]);
        assert SameSpeaker(s.mgr.tasks[i], next.mgr.tasks[i]) by { DispatchKeepsSpeakers(s.mgr, s.epoch, m); }
      } else {
        ConnectIsNew(s);
      }
    }
  }

  predicate SameSpeaker(t: C.Task, u: C.Task) {
    u.id == t.id && u.dial == t.dial && u.reader == t.reader
  }

  lemma DispatchKeepsSpeakers(m: C.Manager, epoch: nat, msg: Message)
    requires C.WellFormed(m)
    ensures var next := ManagerGets(m, epoch, msg);
            && |m.tasks| <= |next.tasks|
            && (forall i :: 0 <= i < |m.tasks| ==> SameSpeaker(m.tasks[i], next.tasks[i]))
            && (|m.tasks| < |next.tasks| ==>
                  && msg.kind == Connect && |next.tasks| == |m.tasks| + 1
                  && next.tasks[|m.tasks|] == C.Spawned(msg.id, epoch, Tcp, msg.port))
  {
  }

  lemma StepKeepsOrder(s: State, step: Step)
    requires Inv(s) && Orderly(s) && Enabled(s, step)
    ensures Orderly(Apply(s, step))
  {
    match step
    case Deliver => DeliverKeepsOrder(s);
    case Task(j, action) => TaskMoveKeepsOrder(s, j, action);
    case LinkDown(keep) =>
      forall j | 0 <= j < |s.mgr.tasks|
        ensures EndedAreMuted(s.back[..keep], s.mgr.tasks[j])
      {
        assert EndedAreMuted(s.back, s.mgr.tasks[j]);
      }
    case _ =>
  }

  /** In every reachable state, no DATA follows a CLOSE or ERROR of its id. */
  lemma {:induction false} RunKeepsOrder(port: u16, steps: seq<Step>)
    ensures Exec(port, steps).Some? ==> Orderly(Exec(port, steps).value)
  {
    if steps != [] {
      var before := steps[..|steps| - 1];
      RunKeepsOrder(port, before);
      RunKeeps(port, before);
      if Exec(port, before).Some? && Enabled(Exec(port, before).value, steps[|steps| - 1]) {
        StepKeepsOrder(Exec(port, before).value, steps[|steps| - 1]);
      }
    }
  }

  // ---------------------------------------------------------------------------
  // What is on its way back can be taken

  ghost predicate NoMoreData(back: seq<Message>, from: nat, id: nat) {
    forall i :: from <= i < |back| && back[i].id == id ==> back[i].kind != Data
  }

  /** The writer has all that came for it, and can take what may still come. */
  ghost predicate UpToDate(c: F.Client, connections: map<nat, nat>, back: seq<Message>, got: nat)
    requires got <= |back|
  {
    && c.wrote == DataOf(back, got, c.id)
    && ((c.id in connections && c.writerOpen) || NoMoreData(back, got, c.id))
  }

  /** Only the forwarder's receiving loop went on. */
  ghost predicate OnlyReceived(s: State, n: State) {
    && n == s.(fwd := n.fwd, got := n.got)
    && |n.fwd.clients| == |s.fwd.clients|
    && forall k :: 0 <= k < |s.fwd.clients| ==>
                     n.fwd.clients[k].id == s.fwd.clients[k].id && n.fwd.clients[k].pc == s.fwd.clients[k].pc
  }

  lemma GetsKeepsUpToDate(f: F.Forwarder, alloc: seq<nat>, back: seq<Message>, got: nat, k: nat)
    requires F.WellFormed(f) && IdsOk(f, alloc) && TableOk(f.connections, alloc) && k < |f.clients|
    requires f.clients[k].pc == F.Start ==> f.clients[k].id == 0
    requires got < |back| && NoDataAfterEnd(back) && UpToDate(f.clients[k], f.connections, back, got)
    ensures var next := CliGets(f, back[got], |back[got].payload|);
            && k < |next.clients| && next.clients[k].id == f.clients[k].id
            && UpToDate(next.clients[k], next.connections, back, got + 1)
  {
    var m := back[got];
    GetsTouchesOnlyItsWriter(f, alloc, m, |m.payload|, k);
    if f.clients[k].id == m.id && m.id in f.connections {
      assert f.connections[m.id] == k;
    }
  }

  lemma GetsKeepsIds(f: F.Forwarder, m: Message, accepted: nat)
    requires F.WellFormed(f)
    ensures var next := CliGets(f, m, accepted);
            && |next.clients| == |f.clients|
            && forall k :: 0 <= k < |f.clients| ==>
                             next.clients[k].id == f.clients[k].id && next.clients[k].pc == f.clients[k].pc
  {
  }

  lemma ReceiveKeepsUpToDate(s: State, k: nat)
    requires Inv(s) && NoDataAfterEnd(s.back) && s.got < |s.back| && k < |s.fwd.clients|
    requires UpToDate(s.fwd.clients[k], s.fwd.connections, s.back, s.got)
    ensures var next := CliGets(s.fwd, s.back[s.got], |s.back[s.got].payload|);
            && k < |next.clients| && UpToDate(next.clients[k], next.connections, s.back, s.got + 1)
  {
    assert s.fwd.clients[k].pc == F.Start ==> s.fwd.clients[k].id == 0 by { HeardOnlyAfterConnect(s, k); }
    GetsKeepsUpToDate(s.fwd, s.alloc, s.back, s.got, k);
  }

  lemma ReceiveIsGets(s: State)
    requires Consistent(s) && s.got < Hearable(s)
    ensures var m := s.back[s.got];
            var next := CliGets(s.fwd, m, |m.payload|);
            && Enabled(s, CliReceive(|m.payload|))
            && Apply(s, CliReceive(|m.payload|)) == s.(fwd := next, got := s.got + 1)
            && OnlyReceived(s, s.(fwd := next, got := s.got + 1))
  {
    CliReads(s.fwd, s.back[s.got], |s.back[s.got].payload|);
    GetsKeepsIds(s.fwd, s.back[s.got], |s.back[s.got].payload|);
  }

  lemma NextIsUpToDate(port: u16, steps: seq<Step>, s: State, k: nat)
    requires Exec(port, steps) == Some(s) && s.got < Hearable(s) && k < |s.fwd.clients|
    requires UpToDate(s.fwd.clients[k], s.fwd.connections, s.back, s.got)
    ensures var next := CliGets(s.fwd, s.back[s.got], |s.back[s.got].payload|);
            && k < |next.clients| && UpToDate(next.clients[k], next.connections, s.back, s.got + 1)
  {
    RunKeeps(port, steps);
    RunKeepsOrder(port, steps);
    ReceiveKeepsUpToDate(s, k);
  }

  lemma OneReceive(port: u16, steps: seq<Step>, s: State, k: nat) returns (step: Step, n: State)
    requires Exec(port, steps) == Some(s) && s.got < Hearable(s) && k < |s.fwd.clients|
    requires UpToDate(s.fwd.clients[k], s.fwd.connections, s.back, s.got)
    ensures Exec(port, steps + [step]) == Some(n) && OnlyReceived(s, n) && n.got == s.got + 1
    ensures UpToDate(n.fwd.clients[k], n.fwd.connections, n.back, n.got)
  {
    var m := s.back[s.got];
    step := CliReceive(|m.payload|);
    n := s.(fwd := CliGets(s.fwd, m, |m.payload|), got := s.got + 1);
    ReceiveIsGets(s);
    Extend(port, steps, step);
    NextIsUpToDate(port, steps, s, k);
  }

  /**
   From every state a run can reach, the receiving loop alone can hand a registered local
   connection all data sent back for it - once the WebSocket is lost, all that arrived before.
   */
  lemma {:induction false} AnswersCanBeTaken(port: u16, steps: seq<Step>, s: State, k: nat)
    returns (more: seq<Step>, n: State)
    requires Exec(port, steps) == Some(s) && k < |s.fwd.clients|
    requires UpToDate(s.fwd.clients[k], s.fwd.connections, s.back, s.got)
    ensures Exec(port, steps + more) == Some(n) && OnlyReceived(s, n) && n.got == Hearable(s)
    ensures n.fwd.clients[k].wrote == DataOf(s.back, Hearable(s), s.fwd.clients[k].id)
    decreases Hearable(s) - s.got
  {
    if s.got == Hearable(s) {
      assert steps + [] == steps;
      return [], s;
    }
    var step, m := OneReceive(port, steps, s, k);
    more, n := AnswersCanBeTaken(port, steps + [step], m, k);
    StepsAppend(port, steps, [step], more, n);
    more := [step] + more;
  }

  /**
   While the CLI's WebSocket is up, a registered local connection can be handed everything its
   live task ever sent back: all that task read, up to what it still holds.
   */
  lemma EveryAnswerCanArrive(port: u16, steps: seq<Step>, s: State, j: nat, k: nat) returns (more: seq<Step>, n: State)
    requires Exec(port, steps) == Some(s) && s.cliUp
    requires j < |s.mgr.tasks| && k < |s.fwd.clients| && s.fwd.clients[k].id == s.mgr.tasks[j].id && Live(s, j)
    requires s.fwd.clients[k].id in s.fwd.connections && s.fwd.clients[k].writerOpen
    ensures Exec(port, steps + more) == Some(n) && OnlyReceived(s, n) && n.got == |s.back|
    ensures n.fwd.clients[k].wrote + s.mgr.tasks[j].pending == s.mgr.tasks[j].read
  {
    assert Reachable(s);
    assert UpToDate(s.fwd.clients[k], s.fwd.connections, s.back, s.got) by { ClientFacts(s, k); }
    more, n := AnswersCanBeTaken(port, steps, s, k);
    TaskFacts(s, j);
  }

  // ---------------------------------------------------------------------------
  // After the loss of the CLI's WebSocket

  /** Nothing that came back later is heard. */
  ghost predicate DeafSince(s: State, n: State)
    requires Consistent(s) && Consistent(n)
  {
    !s.cliUp && !n.cliUp && n.hear == s.hear && n.back[..s.hear] == s.back[..s.hear]
  }

  lemma StepKeepsDeaf(s: State, m: State, step: Step)
    requires Consistent(s) && Consistent(m) && DeafSince(s, m) && Enabled(m, step)
    ensures DeafSince(s, Apply(m, step))
  {
    var n := Apply(m, step);
    assert n.back[..s.hear] == m.back[..s.hear];
  }

  lemma {:induction false} RunKeepsDeaf(port: u16, steps: seq<Step>, s: State, more: seq<Step>, n: State)
    requires Exec(port, steps) == Some(s) && !s.cliUp && Exec(port, steps + more) == Some(n)
    ensures DeafSince(s, n)
  {
    if more == [] {
      assert steps + more == steps;
    } else {
      var last := |more| - 1;
      assert (steps + more)[..|steps + more| - 1] == steps + more[..last];
      assert (steps + more)[|steps + more| - 1] == more[last];
      var m := Exec(port, steps + more[..last]).value;
      RunKeepsDeaf(port, steps, s, more[..last], m);
      StepKeepsDeaf(s, m, more[last]);
    }
  }

  /** However the run goes on, a local writer gets no more than what had arrived at the loss. */
  lemma NothingArrivesAfterLoss(port: u16, steps: seq<Step>, s: State, more: seq<Step>, n: State, k: nat)
    requires Exec(port, steps) == Some(s) && !s.cliUp && Exec(port, steps + more) == Some(n)
    requires k < |n.fwd.clients|
    ensures n.fwd.clients[k].wrote <= DataOf(s.back, s.hear, n.fwd.clients[k].id)
  {
    RunKeepsDeaf(port, steps, s, more, n);
    assert Reachable(n);
    ClientFacts(n, k);
    var id := n.fwd.clients[k].id;
    DataOfMonotone(n.back, n.got, n.hear, id);
    DataOfCommonPrefix(n.back, s.back, s.hear, id);
  }
}
