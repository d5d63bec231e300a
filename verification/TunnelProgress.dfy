/**
 The tunnel cannot get stuck. A full channel makes the message loop wait, and with it every
 other connection; still, from every reachable state the tasks alone can make room for it.
 */
module TunnelProgress {
  import opened Wrappers
  import opened Frames
  import opened Logs
  import opened Tunnel
  import opened TunnelInvariant
  import opened TunnelTheorems
  import C = Connections
  import F = Forwarders

  // ---------------------------------------------------------------------------
  // A task whose receiver lives never stops in mid-dial

  predicate Willing(t: C.Task) {
    t.rxOpen ==> t.dial != C.Failed
  }

  ghost predicate AllWilling(tasks: seq<C.Task>) {
    forall t <- tasks :: Willing(t)
  }

  lemma DispatchKeepsWilling(m: C.Manager, epoch: nat, data: Bytes)
    requires C.WellFormed(m) && AllWilling(m.tasks)
    ensures C.Dispatch(m, epoch, data).Handled? ==> AllWilling(C.Dispatch(m, epoch, data).mgr.tasks)
  {
    forall j: nat | j < |m.tasks|
      ensures Willing(m.tasks[j])
    {
      assert m.tasks[j] in m.tasks;
    }
  }

  lemma StepKeepsWilling(s: State, step: Step)
    requires Consistent(s) && Enabled(s, step) && AllWilling(s.mgr.tasks)
    ensures AllWilling(Apply(s, step).mgr.tasks)
  {
    match step
    case Deliver => DispatchKeepsWilling(s.mgr, s.epoch, FromCli(s.wire[s.taken]));
    case Task(j, action) =>
      assert Willing(s.mgr.tasks[j]);
      assert Willing(TaskAfter(s.mgr.tasks[j], action));
    case _ =>
  }

  lemma {:induction false} RunKeepsWilling(port: u16, steps: seq<Step>)
    ensures Exec(port, steps).Some? ==> AllWilling(Exec(port, steps).value.mgr.tasks)
  {
    if steps != [] {
      RunKeepsWilling(port, steps[..|steps| - 1]);
      var before := Exec(port, steps[..|steps| - 1]);
      if before.Some? && Enabled(before.value, steps[|steps| - 1]) {
        StepKeepsWilling(before.value, steps[|steps| - 1]);
      }
    }
  }

  // ---------------------------------------------------------------------------
  // What a task can do on its own

  predicate HasWork(t: C.Task) {
    t.rxOpen && (t.chan != [] || t.hand.Some?)
  }

  function NextAction(t: C.Task): TaskMove {
    if t.dial == C.Dialing then DialOk
    else if t.dial == C.Dialed then SendConnected(true)
    else if t.hand.Some? then Write(|t.hand.value|)
    else Receive
  }

  function Work(t: C.Task): nat {
    2 * |t.chan| + (if t.hand.Some? then 1 else 0)
    + match t.dial { case Dialing => 2 case Dialed => 1 case _ => 0 }
  }

  lemma NextActionWorks(t: C.Task, hasSender: bool)
    requires HasWork(t) && Willing(t)
    ensures TaskMay(t, NextAction(t), hasSender)
    ensures var next := TaskAfter(t, NextAction(t));
            && Work(next) < Work(t) && next.rxOpen && next.id == t.id && next.epoch == t.epoch
            && Accounted(next) == Accounted(t)
  {
    var next := TaskAfter(t, NextAction(t));
    if t.dial == C.Dialing {
    } else if t.dial == C.Dialed {
    } else if t.hand.Some? {
      assert next.written + InHand(next) == t.written + t.hand.value;
    } else {
      assert t.chan == [t.chan[0]] + t.chan[1..];
      assert Accounted(t) == t.written + [] + (t.chan[0] + Concat(t.chan[1..]));
    }
  }

  /** Tasks and deliveries went on; nobody hung up, and the CLI did nothing. */
  ghost predicate Progress(s: State, n: State) {
    && n.fwd == s.fwd && n.cliUp == s.cliUp && n.wire == s.wire && n.reach == s.reach
    && n.linkUp == s.linkUp && n.epoch == s.epoch && s.taken <= n.taken
    && |s.mgr.tasks| <= |n.mgr.tasks|
    && forall j :: 0 <= j < |s.mgr.tasks| ==> SameTask(s.mgr.tasks[j], n.mgr.tasks[j])
  }

  predicate SameTask(t: C.Task, u: C.Task) {
    u.id == t.id && u.epoch == t.epoch && u.rxOpen == t.rxOpen
  }

  lemma Extend(port: u16, steps: seq<Step>, step: Step)
    requires Exec(port, steps).Some? && Enabled(Exec(port, steps).value, step)
    ensures Exec(port, steps + [step]) == Some(Apply(Exec(port, steps).value, step))
  {
    assert (steps + [step])[..|steps + [step]| - 1] == steps;
  }

  lemma TaskProgress(s: State, j: nat)
    requires Consistent(s) && j < |s.mgr.tasks| && HasWork(s.mgr.tasks[j]) && Willing(s.mgr.tasks[j])
    ensures var step := Task(j, NextAction(s.mgr.tasks[j]));
            && Enabled(s, step) && Progress(s, Apply(s, step)) && Apply(s, step).taken == s.taken
            && Apply(s, step).mgr.connections == s.mgr.connections
            && Work(Apply(s, step).mgr.tasks[j]) < Work(s.mgr.tasks[j])
            && Accounted(Apply(s, step).mgr.tasks[j]) == Accounted(s.mgr.tasks[j])
  {
    NextActionWorks(s.mgr.tasks[j], HasSender(s, j));
  }

  lemma DispatchKeepsTasks(m: C.Manager, epoch: nat, data: Bytes)
    requires C.WellFormed(m) && C.Dispatch(m, epoch, data).Handled?
    ensures var n := C.Dispatch(m, epoch, data).mgr;
            && |m.tasks| <= |n.tasks|
            && forall j :: 0 <= j < |m.tasks| ==> SameTask(m.tasks[j], n.tasks[j])
  {
  }

  // ---------------------------------------------------------------------------
  // No head-of-line deadlock

  /** The channel is alive and takes nothing more. */
  predicate Full(t: C.Task) {
    t.rxOpen && |t.chan| >= C.CHANNEL_CAPACITY
  }

  /** The message next in line is data for this task, whose channel has no room for it. */
  ghost predicate WaitsFor(s: State, j: nat) {
    && Consistent(s) && s.linkUp && s.taken < |s.wire| && j < |s.mgr.tasks| && Full(s.mgr.tasks[j])
    && s.wire[s.taken].kind == Data && s.wire[s.taken].id in s.mgr.connections
    && s.mgr.connections[s.wire[s.taken].id] == j
  }

  /** The message loop waits only for a live task with a full channel, and that task can move. */
  lemma StalledAtTask(s: State) returns (j: nat)
    requires Inv(s) && AllWilling(s.mgr.tasks)
    requires s.linkUp && s.taken < s.reach && !Enabled(s, Deliver)
    ensures s.wire[s.taken].id in s.mgr.connections && j == s.mgr.connections[s.wire[s.taken].id]
    ensures WaitsFor(s, j) && Live(s, j)
    ensures HasWork(s.mgr.tasks[j]) && Willing(s.mgr.tasks[j])
  {
    ManagerReads(s.mgr, s.epoch, s.wire[s.taken]);
    j := s.mgr.connections[s.wire[s.taken].id];
  }

  ghost function Blocked(s: State): nat
    requires Consistent(s)
  {
    if s.taken < s.reach && s.wire[s.taken].id in s.mgr.connections then
      Work(s.mgr.tasks[s.mgr.connections[s.wire[s.taken].id]])
    else 0
  }

  /** Either the next message is handled or the task it waits for comes closer to making room. */
  lemma StepTowardsHandling(s: State) returns (step: Step)
    requires Inv(s) && AllWilling(s.mgr.tasks) && s.linkUp && s.taken < s.reach
    ensures Enabled(s, step) && Progress(s, Apply(s, step))
    ensures Apply(s, step).taken == s.taken + 1
            || (Apply(s, step).taken == s.taken && Blocked(Apply(s, step)) < Blocked(s))
  {
    step := Deliver;
    if Enabled(s, Deliver) {
      DispatchKeepsTasks(s.mgr, s.epoch, FromCli(s.wire[s.taken]));
    } else {
      var j := StalledAtTask(s);
      TaskProgress(s, j);
      step := Task(j, NextAction(s.mgr.tasks[j]));
    }
  }

  lemma ProgressIsTransitive(s: State, m: State, n: State)
    requires Progress(s, m) && Progress(m, n)
    ensures Progress(s, n)
  {
    forall j | 0 <= j < |s.mgr.tasks|
      ensures SameTask(s.mgr.tasks[j], n.mgr.tasks[j])
    {
      assert SameTask(m.mgr.tasks[j], n.mgr.tasks[j]);
    }
  }

  lemma RunIsSound(port: u16, steps: seq<Step>, s: State)
    requires Exec(port, steps) == Some(s)
    ensures Reachable(s) && Inv(s) && AllWilling(s.mgr.tasks)
  {
    RunKeeps(port, steps);
    RunKeepsWilling(port, steps);
  }

  lemma StepsAppend(port: u16, steps: seq<Step>, a: seq<Step>, b: seq<Step>, n: State)
    requires Exec(port, steps + a + b) == Some(n)
    ensures Exec(port, steps + (a + b)) == Some(n)
  {
    assert steps + a + b == steps + (a + b);
  }

  lemma OneStepTowardsHandling(port: u16, steps: seq<Step>, s: State) returns (step: Step, n: State)
    requires Exec(port, steps) == Some(s) && s.linkUp && s.taken < s.reach
    ensures Exec(port, steps + [step]) == Some(n) && Progress(s, n)
    ensures n.taken == s.taken + 1 || (n.taken == s.taken && Blocked(n) < Blocked(s))
  {
    RunIsSound(port, steps, s);
    step := StepTowardsHandling(s);
    Extend(port, steps, step);
    n := Apply(s, step);
  }

  /**
   From every state a run can reach with a tunnel connection up, deliveries and tasks alone can
   handle all that is in flight, without any connection being given up for it.
   */
  lemma {:induction false} InFlightCanBeHandled(port: u16, steps: seq<Step>, s: State) returns (more: seq<Step>, n: State)
    requires Exec(port, steps) == Some(s) && s.linkUp
    ensures Exec(port, steps + more) == Some(n)
    ensures Progress(s, n) && n.taken == n.reach
    decreases s.reach - s.taken, Blocked(s)
  {
    if s.taken == s.reach {
      assert steps + [] == steps;
      return [], s;
    }
    var step, m := OneStepTowardsHandling(port, steps, s);
    more, n := InFlightCanBeHandled(port, steps + [step], m);
    ProgressIsTransitive(s, m, n);
    StepsAppend(port, steps, [step], more, n);
    more := [step] + more;
  }

  lemma OneStepOfTask(port: u16, steps: seq<Step>, s: State, j: nat) returns (step: Step, n: State)
    requires Exec(port, steps) == Some(s) && j < |s.mgr.tasks| && HasWork(s.mgr.tasks[j])
    ensures Exec(port, steps + [step]) == Some(n) && Progress(s, n)
    ensures n.taken == s.taken && n.mgr.connections == s.mgr.connections
    ensures Work(n.mgr.tasks[j]) < Work(s.mgr.tasks[j]) && Accounted(n.mgr.tasks[j]) == Accounted(s.mgr.tasks[j])
  {
    RunKeepsWilling(port, steps);
    TaskProgress(s, j);
    step := Task(j, NextAction(s.mgr.tasks[j]));
    Extend(port, steps, step);
    n := Apply(s, step);
  }

  lemma {:induction false} ChannelCanBeWritten(port: u16, steps: seq<Step>, s: State, j: nat)
    returns (more: seq<Step>, n: State)
    requires Exec(port, steps) == Some(s) && j < |s.mgr.tasks| && s.mgr.tasks[j].rxOpen
    ensures Exec(port, steps + more) == Some(n)
    ensures Progress(s, n) && n.taken == s.taken && n.mgr.connections == s.mgr.connections
    ensures !HasWork(n.mgr.tasks[j]) && Accounted(n.mgr.tasks[j]) == Accounted(s.mgr.tasks[j])
    decreases Work(s.mgr.tasks[j])
  {
    if !HasWork(s.mgr.tasks[j]) {
      assert steps + [] == steps;
      return [], s;
    }
    var step, m := OneStepOfTask(port, steps, s, j);
    assert SameTask(s.mgr.tasks[j], m.mgr.tasks[j]);
    more, n := ChannelCanBeWritten(port, steps + [step], m, j);
    ProgressIsTransitive(s, m, n);
    StepsAppend(port, steps, [step], more, n);
    more := [step] + more;
  }

  lemma HandledAndWritten(s: State, j: nat, k: nat)
    requires Reachable(s) && s.taken == |s.wire|
    requires j < |s.mgr.tasks| && k < |s.fwd.clients| && s.fwd.clients[k].id == s.mgr.tasks[j].id
    requires Live(s, j) && s.mgr.tasks[j].rxOpen && !HasWork(s.mgr.tasks[j])
    ensures s.mgr.tasks[j].written + s.fwd.clients[k].pending == s.fwd.clients[k].read
  {
    ForwardConservation(s, j, k);
  }

  /**
   While both WebSockets are up and a connection's receiver lives, some continuation of any run,
   without a step of the CLI, gets every byte that was sent for it written to its service.
   */
  lemma EveryByteCanArrive(port: u16, steps: seq<Step>, s: State, j: nat, k: nat) returns (more: seq<Step>, n: State)
    requires Exec(port, steps) == Some(s) && s.cliUp
    requires j < |s.mgr.tasks| && k < |s.fwd.clients| && s.fwd.clients[k].id == s.mgr.tasks[j].id
    requires Live(s, j) && s.mgr.tasks[j].rxOpen
    ensures Exec(port, steps + more) == Some(n) && Progress(s, n)
    ensures n.mgr.tasks[j].written + s.fwd.clients[k].pending == s.fwd.clients[k].read
  {
    var first, handled := InFlightCanBeHandled(port, steps, s);
    assert SameTask(s.mgr.tasks[j], handled.mgr.tasks[j]);
    var second;
    second, n := ChannelCanBeWritten(port, steps + first, handled, j);
    assert SameTask(handled.mgr.tasks[j], n.mgr.tasks[j]);
    ProgressIsTransitive(s, handled, n);
    StepsAppend(port, steps, first, second, n);
    more := first + second;
    assert Reachable(n);
    HandledAndWritten(n, j, k);
  }

  // ---------------------------------------------------------------------------
  // One service that stops reading starves all connections

  /** The manager handled nothing in between. */
  ghost predicate Frozen(s: State, n: State)
    requires Consistent(s) && Consistent(n)
  {
    && n.taken == s.taken && n.wire[..s.taken] == s.wire[..s.taken]
    && n.mgr.connections == s.mgr.connections && |n.mgr.tasks| == |s.mgr.tasks|
    && forall i :: 0 <= i < |s.mgr.tasks| ==> n.mgr.tasks[i].id == s.mgr.tasks[i].id
  }

  lemma StepKeepsWaiting(s: State, step: Step, j: nat)
    requires WaitsFor(s, j) && Enabled(s, step)
    requires var n := Apply(s, step); n.linkUp && j < |n.mgr.tasks| && Full(n.mgr.tasks[j])
    ensures WaitsFor(Apply(s, step), j) && Frozen(s, Apply(s, step))
  {
    ManagerReads(s.mgr, s.epoch, s.wire[s.taken]);
    match step
    case Task(i, action) => TaskKeepsIdentity(s.mgr.tasks[i], action, HasSender(s, i));
    case _ =>
  }

  /** All along a continuation the link stays up and task `j` makes no room and keeps its receiver. */
  ghost predicate StaysFull(port: u16, steps: seq<Step>, more: seq<Step>, j: nat) {
    forall i :: 0 <= i <= |more| ==> FullAfter(Exec(port, steps + more[..i]), j)
  }

  ghost predicate FullAfter(r: Option<State>, j: nat) {
    r.Some? && r.value.linkUp && j < |r.value.mgr.tasks| && Full(r.value.mgr.tasks[j])
  }

  lemma FrozenThen(s: State, m: State, n: State)
    requires Consistent(s) && Consistent(m) && Consistent(n) && Frozen(s, m) && Frozen(m, n)
    ensures Frozen(s, n)
  {
  }

  /** The last step of a continuation, and what `StaysFull` says before and after it. */
  lemma LastStep(port: u16, steps: seq<Step>, more: seq<Step>, n: State, j: nat) returns (m: State)
    requires more != [] && Exec(port, steps + more) == Some(n) && StaysFull(port, steps, more, j)
    ensures Exec(port, steps + more[..|more| - 1]) == Some(m) && StaysFull(port, steps, more[..|more| - 1], j)
    ensures Enabled(m, more[|more| - 1]) && n == Apply(m, more[|more| - 1]) && FullAfter(Some(n), j)
  {
    var last := |more| - 1;
    assert (steps + more)[..|steps + more| - 1] == steps + more[..last];
    assert (steps + more)[|steps + more| - 1] == more[last];
    m := Exec(port, steps + more[..last]).value;
    assert more[..|more|] == more;
    assert FullAfter(Exec(port, steps + more[..|more|]), j);
    forall i | 0 <= i <= last
      ensures FullAfter(Exec(port, steps + more[..last][..i]), j)
    {
      assert more[..last][..i] == more[..i];
    }
  }

  lemma {:induction false} StaysWaiting(port: u16, steps: seq<Step>, s: State, more: seq<Step>, n: State, j: nat)
    requires Exec(port, steps) == Some(s) && WaitsFor(s, j)
    requires Exec(port, steps + more) == Some(n) && StaysFull(port, steps, more, j)
    ensures WaitsFor(n, j) && Frozen(s, n)
  {
    if more == [] {
      assert steps + more == steps;
    } else {
      var m := LastStep(port, steps, more, n, j);
      StaysWaiting(port, steps, s, more[..|more| - 1], m, j);
      StepKeepsWaiting(m, more[|more| - 1], j);
      FrozenThen(s, m, n);
    }
  }

  /**
   While the message loop waits for one task that makes no room, it handles nothing for any
   connection, opens none and closes none: every other service gets at most the bytes its
   task held when the waiting began.
   */
  lemma OneStalledServiceStarvesAll(port: u16, steps: seq<Step>, s: State, more: seq<Step>, n: State, j: nat, i: nat)
    requires Exec(port, steps) == Some(s) && WaitsFor(s, j)
    requires Exec(port, steps + more) == Some(n) && StaysFull(port, steps, more, j)
    requires i < |s.mgr.tasks| && Live(s, i) && s.mgr.tasks[i].rxOpen
    ensures n.taken == s.taken && n.mgr.connections == s.mgr.connections && |n.mgr.tasks| == |s.mgr.tasks|
    ensures n.mgr.tasks[i].written <= Accounted(s.mgr.tasks[i])
  {
    StaysWaiting(port, steps, s, more, n, j);
    assert Reachable(s) && Reachable(n);
    var id := s.mgr.tasks[i].id;
    assert Accounted(s.mgr.tasks[i]) == DataOf(s.wire, s.taken, id) by { TaskFacts(s, i); }
    assert Accounted(n.mgr.tasks[i]) <= DataOf(n.wire, n.taken, id) by { TaskFacts(n, i); }
    DataOfCommonPrefix(s.wire, n.wire, s.taken, id);
  }

  // ---------------------------------------------------------------------------
  // A run that delivers

  /** Moves of the first coroutine, up to its relaying loop. */
  lemma Opens(port: u16) returns (steps: seq<Step>, s: State)
    ensures Exec(port, steps) == Some(s)
    ensures s.cliUp && s.linkUp && s.fwd.clients == [F.Client(F.Relaying, 1, [], [], [], true)]
    ensures s.wire == [Message(Connect, 1, port, [])] && s.taken == 0 && s.mgr == C.Manager(map[], []) && s.epoch == 1
  {
    steps, s := [], Init(port);
    Extend(port, steps, Accept);
    steps, s := steps + [Accept], Apply(s, Accept);
    Extend(port, steps, LinkUp);
    steps, s := steps + [LinkUp], Apply(s, LinkUp);
    Extend(port, steps, Client(0, Allocate));
    steps, s := steps + [Client(0, Allocate)], Apply(s, Client(0, Allocate));
    Extend(port, steps, Client(0, Register));
    steps, s := steps + [Client(0, Register)], Apply(s, Client(0, Register));
    Extend(port, steps, Client(0, SendConnect));
    steps, s := steps + [Client(0, SendConnect)], Apply(s, Client(0, SendConnect));
  }

  /** Whatever the first local connection sends first can reach its service, unchanged. */
  lemma SomeRunDelivers(port: u16, data: Bytes) returns (steps: seq<Step>, s: State)
    requires 1 <= |data| <= 65536
    ensures Exec(port, steps) == Some(s)
    ensures |s.fwd.clients| == 1 && s.fwd.clients[0].read == data
    ensures |s.mgr.tasks| >= 1 && s.mgr.tasks[0].id == 1 && s.mgr.tasks[0].written == data
  {
    steps, s := Opens(port);
    ManagerReads(s.mgr, s.epoch, s.wire[0]);
    Extend(port, steps, Deliver);
    steps, s := steps + [Deliver], Apply(s, Deliver);
    Extend(port, steps, Client(0, LocalRead(data)));
    steps, s := steps + [Client(0, LocalRead(data))], Apply(s, Client(0, LocalRead(data)));
    Extend(port, steps, Client(0, SendData));
    steps, s := steps + [Client(0, SendData)], Apply(s, Client(0, SendData));
    var more, n := EveryByteCanArrive(port, steps, s, 0, 0);
    assert SameTask(s.mgr.tasks[0], n.mgr.tasks[0]);
    steps, s := steps + more, n;
  }
}
