/**
 Several forwarders on one container. The relay passes their ids through unchanged, so the
 tunnel client sees the messages of all sessions merged and tells connections apart by id alone.
 Every forwarder counts from 1. Here: exactly when each session keeps to its own connections.
 */
module Sessions {
  import opened Frames
  import opened Logs
  import opened TunnelInvariant
  import C = Connections

  datatype Arrival = Arrival(session: nat, msg: Message)

  /** The manager, and for each task the session whose CONNECT started it. */
  datatype Served = Served(mgr: C.Manager, owners: seq<nat>)

  ghost function After(log: seq<Arrival>, n: nat): (r: Served)
    requires n <= |log|
    ensures C.WellFormed(r.mgr) && |r.owners| == |r.mgr.tasks|
  {
    if n == 0 then Served(C.Manager(map[], []), [])
    else
      var before, a := After(log, n - 1), log[n - 1];
      var mgr := ManagerGets(before.mgr, 0, a.msg);
      Served(mgr, if |mgr.tasks| > |before.mgr.tasks| then before.owners + [a.session] else before.owners)
  }

  /** Message `n` opens a connection, or meets one that its own session opened, or none. */
  ghost predicate Proper(log: seq<Arrival>, n: nat)
    requires n < |log|
  {
    var r, a := After(log, n), log[n];
    a.msg.id in r.mgr.connections ==>
      a.msg.kind != Connect && r.owners[r.mgr.connections[a.msg.id]] == a.session
  }

  ghost predicate Isolated(log: seq<Arrival>, n: nat)
    requires n <= |log|
  {
    forall k :: 0 <= k < n ==> Proper(log, k)
  }

  ghost predicate Said(log: seq<Arrival>, n: nat, session: nat, kind: MsgType, id: nat)
    requires n <= |log|
  {
    exists i :: 0 <= i < n && log[i].session == session && log[i].msg.kind == kind && log[i].msg.id == id
  }

  /** The session has opened the id and not closed it. */
  ghost predicate Uses(log: seq<Arrival>, n: nat, session: nat, id: nat)
    requires n <= |log|
  {
    Said(log, n, session, Connect, id) && !Said(log, n, session, Close, id)
  }

  /** What every single forwarder sees to: one CONNECT per id, which comes first, and CLOSE last. */
  ghost predicate WellBehaved(log: seq<Arrival>) {
    forall n :: 0 <= n < |log| ==> InOrder(log, n)
  }

  ghost predicate InOrder(log: seq<Arrival>, n: nat)
    requires n < |log|
  {
    var a := log[n];
    && a.msg.kind in {Connect, Data, Close}
    && (a.msg.kind == Connect ==> !Said(log, n, a.session, Connect, a.msg.id) && !Said(log, n, a.session, Close, a.msg.id))
    && (a.msg.kind != Connect ==> Uses(log, n, a.session, a.msg.id))
  }

  /** Message `n` does not open an id that another session is using. */
  ghost predicate FreshId(log: seq<Arrival>, n: nat)
    requires n < |log|
  {
    log[n].msg.kind == Connect ==> forall other :: other != log[n].session ==> !Uses(log, n, other, log[n].msg.id)
  }

  ghost predicate NoSharedIds(log: seq<Arrival>, n: nat)
    requires n <= |log|
  {
    forall k :: 0 <= k < n ==> FreshId(log, k)
  }

  // ---------------------------------------------------------------------------
  // The map holds the used ids, each for the session that uses it

  ghost predicate MapIsUses(log: seq<Arrival>, n: nat)
    requires n <= |log|
  {
    var r := After(log, n);
    && (forall id <- r.mgr.connections :: Uses(log, n, r.owners[r.mgr.connections[id]], id))
    && (forall session, id :: Uses(log, n, session, id) ==>
          id in r.mgr.connections && r.owners[r.mgr.connections[id]] == session)
  }

  lemma SaidNext(log: seq<Arrival>, n: nat, session: nat, kind: MsgType, id: nat)
    requires n < |log|
    ensures Said(log, n + 1, session, kind, id) <==>
            Said(log, n, session, kind, id)
            || (log[n].session == session && log[n].msg.kind == kind && log[n].msg.id == id)
  {
    if Said(log, n, session, kind, id) {
      var i :| 0 <= i < n && log[i].session == session && log[i].msg.kind == kind && log[i].msg.id == id;
      assert 0 <= i < n + 1;
    }
  }

  lemma UsesNext(log: seq<Arrival>, n: nat, session: nat, id: nat)
    requires n < |log| && InOrder(log, n)
    ensures Uses(log, n + 1, session, id) <==>
            if log[n].session == session && log[n].msg.id == id then log[n].msg.kind != Close
            else Uses(log, n, session, id)
  {
    SaidNext(log, n, session, Connect, id);
    SaidNext(log, n, session, Close, id);
  }

  /** With the map in step, meeting only own connections and opening only unused ids are the same. */
  lemma ProperIffFresh(log: seq<Arrival>, n: nat)
    requires n < |log| && InOrder(log, n) && MapIsUses(log, n)
    ensures Proper(log, n) <==> FreshId(log, n)
  {
  }

  lemma OthersDoNotUse(log: seq<Arrival>, n: nat, other: nat)
    requires n < |log| && InOrder(log, n) && MapIsUses(log, n) && Proper(log, n) && other != log[n].session
    ensures !Uses(log, n, other, log[n].msg.id)
  {
  }

  lemma MapStaysUses(log: seq<Arrival>, n: nat)
    requires n < |log| && InOrder(log, n) && MapIsUses(log, n) && Proper(log, n)
    ensures MapIsUses(log, n + 1)
  {
    var a, r, next := log[n], After(log, n), After(log, n + 1);
    assert next.mgr == ManagerGets(r.mgr, 0, a.msg);
    forall id <- next.mgr.connections
      ensures Uses(log, n + 1, next.owners[next.mgr.connections[id]], id)
    {
      var owner := next.owners[next.mgr.connections[id]];
      UsesNext(log, n, owner, id);
      if id != a.msg.id {
        assert owner == r.owners[r.mgr.connections[id]];
      }
    }
    var m := n + 1;
    forall session, id
      ensures Uses(log, m, session, id) ==>
                id in next.mgr.connections && next.owners[next.mgr.connections[id]] == session
    {
      UsesNext(log, n, session, id);
      if session != a.session {
        OthersDoNotUse(log, n, session);
      }
    }
  }

  lemma OneMore(log: seq<Arrival>, n: nat)
    requires n < |log|
    ensures Isolated(log, n + 1) <==> Isolated(log, n) && Proper(log, n)
    ensures NoSharedIds(log, n + 1) <==> NoSharedIds(log, n) && FreshId(log, n)
  {
  }

  ghost predicate InStep(log: seq<Arrival>, n: nat)
    requires n <= |log|
  {
    && (Isolated(log, n) <==> NoSharedIds(log, n))
    && (Isolated(log, n) ==> MapIsUses(log, n))
  }

  lemma NextInStep(log: seq<Arrival>, n: nat)
    requires n < |log| && InOrder(log, n) && InStep(log, n)
    ensures InStep(log, n + 1)
  {
    OneMore(log, n);
    if Isolated(log, n) {
      ProperIffFresh(log, n);
      if Proper(log, n) {
        MapStaysUses(log, n);
      }
    }
  }

  lemma {:induction false} StaysInStep(log: seq<Arrival>, n: nat)
    requires n <= |log| && WellBehaved(log)
    ensures InStep(log, n)
  {
    if n > 0 {
      StaysInStep(log, n - 1);
      NextInStep(log, n - 1);
    }
  }

  /**
   For any merge of any number of well-behaved sessions: every message meets only connections
   of its own session, and every CONNECT opens one, exactly when no session ever opens an id
   that another is using.
   */
  lemma IsolatedIffNoSharedIds(log: seq<Arrival>)
    requires WellBehaved(log)
    ensures Isolated(log, |log|) <==> NoSharedIds(log, |log|)
  {
    StaysInStep(log, |log|);
  }

  /**
   It fails for any two forwarders whose first connections overlap: both are called 1. The
   second CONNECT is ignored, and what the second forwarder sends goes to the first one's service.
   */
  lemma FirstConnectionsCollide(port: u16, otherPort: u16, data: Bytes)
    ensures var log := [Arrival(0, Message(Connect, 1, port, [])), Arrival(1, Message(Connect, 1, otherPort, [])),
                        Arrival(1, Message(Data, 1, 0, data))];
            && WellBehaved(log) && !Isolated(log, 3)
            && After(log, 3).owners == [0] && After(log, 3).mgr.tasks[0].chan == [data]
  {
    var log := [Arrival(0, Message(Connect, 1, port, [])), Arrival(1, Message(Connect, 1, otherPort, [])),
                Arrival(1, Message(Data, 1, 0, data))];
    var m0 := C.Manager(map[], []);
    var m1 := C.Manager(map[1 := 0], [C.Spawned(1, 0, Tcp, port)]);
    assert After(log, 0) == Served(m0, []);
    assert After(log, 1) == Served(m1, [0]);
    assert After(log, 2) == Served(m1, [0]);
    assert After(log, 3).mgr == C.OnData(m1, 1, data);
    assert !Proper(log, 1);
    assert log[1].msg.kind == Connect;
    assert Said(log, 2, 1, Connect, 1);
  }
}
