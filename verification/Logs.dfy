/**
 Tunnel messages and the two message logs of a run. A log holds every message one side ever
 put on the wire; the messages still in flight are a window of it. The functions below read a
 prefix `log[..n]` without slicing it.
 */
module Logs {
  import opened Frames

  datatype Message = Message(kind: MsgType, id: u32, port: u16, payload: Bytes)

  function HeaderOf(m: Message): Header {
    Header(m.kind, Tcp, m.id, m.port)
  }

  /** The payload bytes of connection `id` among the first `n` messages, in order. */
  ghost function DataOf(log: seq<Message>, n: nat, id: nat): Bytes
    requires n <= |log|
  {
    if n == 0 then []
    else
      DataOf(log, n - 1, id)
      + if log[n - 1].kind == Data && log[n - 1].id == id then log[n - 1].payload else []
  }

  /** Some message of this kind for `id` is among the first `n`. */
  ghost predicate Sent(log: seq<Message>, n: nat, kind: MsgType, id: nat)
    requires n <= |log|
  {
    exists i :: 0 <= i < n && log[i].kind == kind && log[i].id == id
  }

  /** No message at all for `id` is among the first `n`. */
  ghost predicate Silent(log: seq<Message>, n: nat, id: nat)
    requires n <= |log|
  {
    forall i :: 0 <= i < n ==> log[i].id != id
  }

  lemma {:induction false} DataOfCommonPrefix(log: seq<Message>, other: seq<Message>, n: nat, id: nat)
    requires n <= |log| && n <= |other| && log[..n] == other[..n]
    ensures DataOf(log, n, id) == DataOf(other, n, id)
  {
    if n > 0 {
      assert log[n - 1] == log[..n][n - 1] == other[..n][n - 1];
      assert log[..n - 1] == log[..n][..n - 1] == other[..n][..n - 1] == other[..n - 1];
      DataOfCommonPrefix(log, other, n - 1, id);
    }
  }

  lemma {:induction false} DataOfMonotone(log: seq<Message>, m: nat, n: nat, id: nat)
    requires m <= n <= |log|
    ensures DataOf(log, m, id) <= DataOf(log, n, id)
    decreases n
  {
    if m < n {
      DataOfMonotone(log, m, n - 1, id);
    }
  }

  lemma {:induction false} DataOfSilent(log: seq<Message>, n: nat, id: nat)
    requires n <= |log| && Silent(log, n, id)
    ensures DataOf(log, n, id) == []
  {
    if n > 0 {
      DataOfSilent(log, n - 1, id);
    }
  }

  /** What one more message does to the readings for one id. */
  lemma AppendedFor(log: seq<Message>, m: Message, id: nat)
    ensures var more := log + [m];
            && DataOf(more, |more|, id)
               == DataOf(log, |log|, id) + (if m.kind == Data && m.id == id then m.payload else [])
            && (Sent(more, |more|, Connect, id) == (Sent(log, |log|, Connect, id) || (m.kind == Connect && m.id == id)))
            && (Sent(more, |more|, Close, id) == (Sent(log, |log|, Close, id) || (m.kind == Close && m.id == id)))
            && (Silent(more, |more|, id) == (Silent(log, |log|, id) && m.id != id))
  {
    var more := log + [m];
    assert more[..|log|] == log[..|log|];
    DataOfCommonPrefix(more, log, |log|, id);
    SentNext(more, |log|, Connect, id);
    SentNext(more, |log|, Close, id);
    SentCommonPrefix(more, log, |log|, Connect, id);
    SentCommonPrefix(more, log, |log|, Close, id);
    assert Silent(more, |more|, id) ==> forall i :: 0 <= i < |log| ==> log[i] == more[i] && more[i].id != id;
    assert more[|log|] == m;
  }

  /** What one more message does to every reading of a log. */
  lemma Appended(log: seq<Message>, m: Message)
    ensures forall n: nat, id: nat {:trigger DataOf(log + [m], n, id)} | n <= |log| ::
              DataOf(log + [m], n, id) == DataOf(log, n, id)
    ensures forall id: nat {:trigger DataOf(log + [m], |log + [m]|, id)} ::
              DataOf(log + [m], |log + [m]|, id)
              == DataOf(log, |log|, id) + if m.kind == Data && m.id == id then m.payload else []
    ensures forall n: nat, kind: MsgType, id: nat {:trigger Sent(log + [m], n, kind, id)} | n <= |log| ::
              Sent(log + [m], n, kind, id) == Sent(log, n, kind, id)
    ensures forall kind: MsgType, id: nat {:trigger Sent(log + [m], |log + [m]|, kind, id)} ::
              Sent(log + [m], |log + [m]|, kind, id)
              == (Sent(log, |log|, kind, id) || (m.kind == kind && m.id == id))
  {
    var more := log + [m];
    assert forall i :: 0 <= i < |log| ==> more[i] == log[i];
    assert more[|log|] == m;
    forall n: nat, id: nat | n <= |log|
      ensures DataOf(more, n, id) == DataOf(log, n, id)
    {
      assert more[..n] == log[..n];
      DataOfCommonPrefix(more, log, n, id);
    }
    forall n: nat, kind: MsgType, id: nat | n <= |log|
      ensures Sent(more, n, kind, id) == Sent(log, n, kind, id)
    {
      SentCommonPrefix(more, log, n, kind, id);
    }
    forall kind: MsgType, id: nat
      ensures Sent(more, |more|, kind, id) == (Sent(log, |log|, kind, id) || (m.kind == kind && m.id == id))
    {
      SentNext(more, |log|, kind, id);
      SentCommonPrefix(more, log, |log|, kind, id);
    }
  }

  lemma SentCommonPrefix(log: seq<Message>, other: seq<Message>, n: nat, kind: MsgType, id: nat)
    requires n <= |log| && n <= |other|
    requires forall i :: 0 <= i < n ==> log[i] == other[i]
    ensures Sent(log, n, kind, id) == Sent(other, n, kind, id)
  {
    if i :| 0 <= i < n && log[i].kind == kind && log[i].id == id {
      assert other[i].kind == kind && other[i].id == id;
    }
    if i :| 0 <= i < n && other[i].kind == kind && other[i].id == id {
      assert log[i].kind == kind && log[i].id == id;
    }
  }

  lemma SentNext(log: seq<Message>, n: nat, kind: MsgType, id: nat)
    requires n < |log|
    ensures Sent(log, n + 1, kind, id) == (Sent(log, n, kind, id) || (log[n].kind == kind && log[n].id == id))
  {
    if i :| 0 <= i < n && log[i].kind == kind && log[i].id == id {
      assert 0 <= i < n + 1;
    }
    if log[n].kind == kind && log[n].id == id {
      assert Sent(log, n + 1, kind, id);
    }
  }

  lemma SentMonotone(log: seq<Message>, m: nat, n: nat, kind: MsgType, id: nat)
    requires m <= n <= |log|
    requires Sent(log, m, kind, id)
    ensures Sent(log, n, kind, id)
  {
    var i :| 0 <= i < m && log[i].kind == kind && log[i].id == id;
    assert 0 <= i < n;
  }
}
