/**
 The runner's task store (`storage/vault.py`): a vault keyed by text, with the decimal text of
 a task id as the key.
 */
module Stores {
  import opened Wrappers
  import opened Text

  datatype TaskRecord = TaskRecord(taskId: int, containerName: string, cores: seq<int>, gpus: seq<int>, numa: Option<int>)

  type Vault = map<string, TaskRecord>

  datatype Op = Add(record: TaskRecord) | Remove(id: int)

  // ---------------------------------------------------------------------------
  // Specifications

  /** The store as text keys see it, and as the integers it stands for. */
  function Applied(v: Vault, op: Op): Vault {
    match op
    case Add(r) => v[IntText(r.taskId) := r]
    case Remove(id) => v - {IntText(id)}
  }

  function AppliedToInts(m: map<int, TaskRecord>, op: Op): map<int, TaskRecord> {
    match op
    case Add(r) => m[r.taskId := r]
    case Remove(id) => m - {id}
  }

  function History(ops: seq<Op>): Vault {
    if ops == [] then map[] else Applied(History(ops[..|ops| - 1]), ops[|ops| - 1])
  }

  function HistoryOfInts(ops: seq<Op>): map<int, TaskRecord> {
    if ops == [] then map[] else AppliedToInts(HistoryOfInts(ops[..|ops| - 1]), ops[|ops| - 1])
  }

  /** Every key is the text of the id in its record. */
  ghost predicate Keyed(v: Vault) {
    forall k <- v :: k == IntText(v[k].taskId)
  }

  /** The keys of the vault are the texts of the ids, with the same records. */
  ghost predicate Represents(v: Vault, m: map<int, TaskRecord>) {
    && (forall k <- v :: v[k].taskId in m && k == IntText(v[k].taskId))
    && (forall id <- m :: IntText(id) in v && v[IntText(id)] == m[id] && m[id].taskId == id)
  }

  // ---------------------------------------------------------------------------
  // The store

  class TaskStateStore {
    var vault: Vault

    ghost predicate Valid()
      reads this
    {
      Keyed(vault)
    }

    constructor ()
      ensures Valid() && vault == map[]
    {
      vault := map[];
    }

    method Pop(key: string) returns (r: Option<TaskRecord>)
      modifies this
      ensures vault == old(vault) - {key}
      ensures r == if key in old(vault) then Some(old(vault)[key]) else None
    {
      if key in vault {
        r := Some(vault[key]);
        vault := vault - {key};
      } else {
        r := None;
      }
    }

    method AddTask(id: int, containerName: string, cores: Option<seq<int>>, gpus: Option<seq<int>>, numa: Option<int>)
      requires Valid()
      modifies this
      ensures Valid()
      ensures vault == Applied(old(vault), Add(TaskRecord(id, containerName, if cores.Some? then cores.value else [],
                                                          if gpus.Some? then gpus.value else [], numa)))
    {
      vault := vault[IntText(id) := TaskRecord(id, containerName, if cores.Some? then cores.value else [],
                                               if gpus.Some? then gpus.value else [], numa)];
    }

    method RemoveTask(id: int) returns (r: Option<TaskRecord>)
      requires Valid()
      modifies this
      ensures Valid() && vault == Applied(old(vault), Remove(id))
      ensures r == Find(old(vault), id)
    {
      r := Pop(IntText(id));
    }

    method GetTask(id: int) returns (r: Option<TaskRecord>)
      requires Valid()
      ensures r.Some? ==> r.value.taskId == id
      ensures r == Find(vault, id)
      ensures forall m | Represents(vault, m) :: r == if id in m then Some(m[id]) else None
    {
      if IntText(id) in vault {
        r := Some(vault[IntText(id)]);
        IntTextInjective(id, r.value.taskId);
      } else {
        r := None;
      }
    }

    /** The ids in some order, each once; no key fails to read as a number. */
    method GetAllTaskIds() returns (ids: seq<int>)
      requires Valid()
      ensures forall m | Represents(vault, m) :: forall id :: id in ids <==> id in m
      ensures forall i, j :: 0 <= i < j < |ids| ==> ids[i] != ids[j]
    {
      ids := [];
      var left := vault.Keys;
      while left != {}
        invariant left <= vault.Keys
        invariant forall id :: id in ids <==> IntText(id) in vault.Keys - left
        invariant forall i, j :: 0 <= i < j < |ids| ==> ids[i] != ids[j]
      {
        var k :| k in left;
        IntRoundTrip(vault[k].taskId);
        forall id | IntText(id) == k
          ensures id == vault[k].taskId
        {
          IntTextInjective(id, vault[k].taskId);
        }
        ids := ids + [ParseInt(k).value];
        left := left - {k};
      }
      forall m, id | Represents(vault, m)
        ensures id in ids <==> id in m
      {
        if IntText(id) in vault {
          IntTextInjective(id, vault[IntText(id)].taskId);
        }
      }
    }

    method Clear()
      requires Valid()
      modifies this
      ensures Valid() && vault == map[]
    {
      var left := vault.Keys;
      while left != {}
        invariant left == vault.Keys && Valid()
        decreases |left|
      {
        var k :| k in left;
        vault := vault - {k};
        left := left - {k};
      }
    }
  }

  // ---------------------------------------------------------------------------
  // The store behaves like a map on integers

  lemma AppliedRepresents(v: Vault, m: map<int, TaskRecord>, op: Op)
    requires Represents(v, m)
    ensures Represents(Applied(v, op), AppliedToInts(m, op))
  {
    var changed := if op.Add? then op.record.taskId else op.id;
    forall id | IntText(id) == IntText(changed)
      ensures id == changed
    {
      IntTextInjective(id, changed);
    }
  }

  /** After any history of additions and removals. */
  lemma {:induction false} HistoryRepresents(ops: seq<Op>)
    ensures Represents(History(ops), HistoryOfInts(ops))
  {
    if ops != [] {
      HistoryRepresents(ops[..|ops| - 1]);
      AppliedRepresents(History(ops[..|ops| - 1]), HistoryOfInts(ops[..|ops| - 1]), ops[|ops| - 1]);
    }
  }

  /** A vault stands for one map only: looking up text keys is looking up integers. */
  lemma RepresentedIsUnique(v: Vault, m: map<int, TaskRecord>, n: map<int, TaskRecord>)
    requires Represents(v, m) && Represents(v, n)
    ensures m == n
  {
    forall id
      ensures id in m <==> id in n
      ensures id in m ==> m[id] == n[id]
    {
      if IntText(id) in v {
        IntTextInjective(id, v[IntText(id)].taskId);
      }
    }
  }

  predicate Touches(op: Op, id: int) {
    match op
    case Add(r) => r.taskId == id
    case Remove(removed) => removed == id
  }

  function Find(v: Vault, id: int): Option<TaskRecord> {
    if IntText(id) in v then Some(v[IntText(id)]) else None
  }

  lemma UntouchedKeeps(v: Vault, op: Op, id: int)
    ensures Touches(op, id) ==> Find(Applied(v, op), id) == if op.Add? then Some(op.record) else None
    ensures !Touches(op, id) ==> Find(Applied(v, op), id) == Find(v, id)
  {
    var changed := if op.Add? then op.record.taskId else op.id;
    if IntText(changed) == IntText(id) {
      IntTextInjective(changed, id);
    }
  }

  /** What is found for an id after a history is decided by the last operation that touches it. */
  lemma {:induction false} LastOperationDecides(ops: seq<Op>, id: int, last: nat)
    requires last < |ops| && Touches(ops[last], id)
    requires forall j :: last < j < |ops| ==> !Touches(ops[j], id)
    ensures Find(History(ops), id) == if ops[last].Add? then Some(ops[last].record) else None
  {
    var n := |ops| - 1;
    UntouchedKeeps(History(ops[..n]), ops[n], id);
    if last < n {
      LastOperationDecides(ops[..n], id, last);
    }
  }
}
