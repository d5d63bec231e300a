/** Container and image names (`docker/naming.py`): generators and the parsers that read them back. */
module Names {
  import opened Wrappers
  import opened Text

  const PREFIX := "kohakuriver"
  const TASK := PREFIX + "-task"
  const VPS := PREFIX + "-vps"
  const ENV := PREFIX + "-env"
  const SNAPSHOT := PREFIX + "-snapshot"

  predicate StartsWith(s: string, prefix: string) {
    |prefix| <= |s| && s[..|prefix|] == prefix
  }

  function TaskContainerName(id: int): string {
    TASK + "-" + IntText(id)
  }

  function VpsContainerName(id: int): string {
    VPS + "-" + IntText(id)
  }

  function EnvContainerName(env: string): string {
    ENV + "-" + env
  }

  function ExtractTaskId(name: string): Option<int> {
    if StartsWith(name, TASK + "-") then ParseInt(name[|TASK| + 1..])
    else if StartsWith(name, VPS + "-") then ParseInt(name[|VPS| + 1..])
    else None
  }

  function ImageTag(env: string, tag: string): string {
    PREFIX + "/" + env + ":" + tag
  }

  function SnapshotImageTag(id: int, timestamp: int): string {
    SNAPSHOT + "/vps-" + IntText(id) + ":" + IntText(timestamp)
  }

  function ParseSnapshotTag(tag: string): Option<(int, int)> {
    if !StartsWith(tag, SNAPSHOT + "/vps-") then None
    else
      match CutFirst(tag[|SNAPSHOT| + 5..], ':')
      case None => None
      case Some((id, timestamp)) =>
        match (ParseInt(id), ParseInt(timestamp))
        case (Some(i), Some(t)) => Some((i, t))
        case _ => None
  }

  /** Namespace, name and tag. */
  function ParseImageTag(full: string): (string, string, string) {
    var parts := Split(full, '/');
    var (namespace, nameTag) :=
      if |parts| == 1 then ("", parts[0])
      else if |parts| == 2 then (parts[0], parts[1])
      else (parts[0], JoinAll(parts[1..], '/'));
    NameAndTag(namespace, nameTag)
  }

  function NameAndTag(namespace: string, nameTag: string): (string, string, string) {
    match CutLast(nameTag, ':')
    case Some((name, tag)) => (namespace, name, tag)
    case None => (namespace, nameTag, "latest")
  }

  // ---------------------------------------------------------------------------
  // The documented forms

  lemma NamesAreSpelled(id: int, timestamp: int, env: string, tag: string)
    ensures TaskContainerName(id) == "kohakuriver-task-" + IntText(id)
    ensures VpsContainerName(id) == "kohakuriver-vps-" + IntText(id)
    ensures EnvContainerName(env) == "kohakuriver-env-" + env
    ensures ImageTag(env, tag) == "kohakuriver/" + env + ":" + tag
    ensures SnapshotImageTag(id, timestamp) == "kohakuriver-snapshot/vps-" + IntText(id) + ":" + IntText(timestamp)
  {
    PrefixesAreSpelled();
  }

  lemma PrefixesAreSpelled()
    ensures TASK + "-" == "kohakuriver-task-" && VPS + "-" == "kohakuriver-vps-" && ENV + "-" == "kohakuriver-env-"
    ensures PREFIX + "/" == "kohakuriver/" && SNAPSHOT + "/vps-" == "kohakuriver-snapshot/vps-"
  {
  }

  // ---------------------------------------------------------------------------
  // Container names

  /** The task id is recovered from the name of a task's and of a VPS's container. */
  lemma TaskIdRoundTrip(id: int)
    ensures ExtractTaskId(TaskContainerName(id)) == Some(id)
    ensures ExtractTaskId(VpsContainerName(id)) == Some(id)
  {
    IntRoundTrip(id);
    var task, vps := TaskContainerName(id), VpsContainerName(id);
    assert task[..|TASK| + 1] == TASK + "-" && task[|TASK| + 1..] == IntText(id);
    assert vps[..|VPS| + 1] == VPS + "-" && vps[|VPS| + 1..] == IntText(id);
    assert (TASK + "-")[12] == 't' && (VPS + "-")[12] == 'v' && vps[12] == 'v';
  }

  /** Whatever an environment is called, its container is never taken for a task's. */
  lemma EnvNamesCarryNoTaskId(env: string)
    ensures ExtractTaskId(EnvContainerName(env)) == None
  {
    var name := EnvContainerName(env);
    assert name[12] == 'e' && (TASK + "-")[12] == 't' && (VPS + "-")[12] == 'v';
  }

  /** Two containers share a name only when they are of one kind and stand for the same thing. */
  lemma NamesNeverCollide(id: int, other: int, env: string)
    ensures TaskContainerName(id) != VpsContainerName(other)
    ensures TaskContainerName(id) != EnvContainerName(env)
    ensures VpsContainerName(id) != EnvContainerName(env)
  {
    var task, vps, environment := TaskContainerName(id), VpsContainerName(other), EnvContainerName(env);
    assert task[12] == 't' && vps[12] == 'v' && environment[12] == 'e';
    assert VpsContainerName(id)[12] == 'v';
  }

  lemma NamesAreInjective(id: int, other: int, env: string, otherEnv: string)
    ensures TaskContainerName(id) == TaskContainerName(other) ==> id == other
    ensures VpsContainerName(id) == VpsContainerName(other) ==> id == other
    ensures EnvContainerName(env) == EnvContainerName(otherEnv) ==> env == otherEnv
  {
    TaskIdRoundTrip(id);
    TaskIdRoundTrip(other);
    var a, b := EnvContainerName(env), EnvContainerName(otherEnv);
    assert a[|ENV| + 1..] == env && b[|ENV| + 1..] == otherEnv;
  }

  /** An id is found exactly in task and VPS names whose suffix reads as that number. */
  lemma ExtractedFrom(name: string, id: int)
    ensures ExtractTaskId(name) == Some(id) <==>
            exists text: string ::
              (name == TASK + "-" + text || name == VPS + "-" + text) && ParseInt(text) == Some(id)
  {
    if ExtractTaskId(name) == Some(id) {
      var n := if StartsWith(name, TASK + "-") then |TASK| + 1 else |VPS| + 1;
      assert name == name[..n] + name[n..];
    }
    forall text: string |
      (name == TASK + "-" + text || name == VPS + "-" + text) && ParseInt(text) == Some(id)
      ensures ExtractTaskId(name) == Some(id)
    {
      if name == TASK + "-" + text {
        assert name[..|TASK| + 1] == TASK + "-" && name[|TASK| + 1..] == text;
      } else {
        assert name[..|VPS| + 1] == VPS + "-" && name[|VPS| + 1..] == text;
        assert (TASK + "-")[12] == 't' && name[12] == 'v';
      }
    }
  }

  // ---------------------------------------------------------------------------
  // Image tags

  lemma SnapshotTagRoundTrip(id: int, timestamp: int)
    ensures ParseSnapshotTag(SnapshotImageTag(id, timestamp)) == Some((id, timestamp))
  {
    IntRoundTrip(id);
    IntRoundTrip(timestamp);
    var tag, prefix := SnapshotImageTag(id, timestamp), SNAPSHOT + "/vps-";
    var rest := IntText(id) + ":" + IntText(timestamp);
    assert tag == prefix + rest;
    assert tag[..|prefix|] == prefix && tag[|prefix|..] == rest;
    assert ':' !in IntText(id);
    CutFirstUnique(IntText(id), ':', IntText(timestamp));
  }

  /** The image of an environment is never read as a snapshot of a VPS. */
  lemma ImagesAreNoSnapshots(env: string, tag: string)
    ensures ParseSnapshotTag(ImageTag(env, tag)) == None
  {
    assert ImageTag(env, tag)[11] == '/' && (SNAPSHOT + "/vps-")[11] == '-';
  }

  /** Joining what was split after the first slash gives the text after the first slash. */
  lemma AfterFirstSlash(full: string)
    ensures CutFirst(full, '/').None? ==> Split(full, '/') == [full]
    ensures CutFirst(full, '/').Some? ==>
            var (before, rest) := CutFirst(full, '/').value;
            |Split(full, '/')| > 1 && Split(full, '/')[0] == before && JoinAll(Split(full, '/')[1..], '/') == rest
  {
    match CutFirst(full, '/')
    case None => SplitNone(full, '/');
    case Some((before, rest)) =>
      SplitFirst(before, '/', rest);
      JoinUndoesSplit(rest, '/');
      assert ([before] + Split(rest, '/'))[1..] == Split(rest, '/');
  }

  /**
   Environment and tag come back exactly when the tag has no colon; the environment may hold
   colons and slashes.
   */
  lemma ImageTagRoundTripIff(env: string, tag: string)
    ensures ParseImageTag(ImageTag(env, tag)) == (PREFIX, env, tag) <==> ':' !in tag
  {
    var rest := env + ":" + tag;
    assert ImageTag(env, tag) == PREFIX + ['/'] + rest;
    CutFirstUnique(PREFIX, '/', rest);
    AfterFirstSlash(ImageTag(env, tag));
    assert rest[|env|] == ':';
    if ':' !in tag {
      CutLastUnique(env, ':', tag);
    }
  }

  /** The parser cuts the namespace at the first slash and the tag at the last colon after it. */
  lemma ParsesAs(full: string)
    ensures ParseImageTag(full)
            == match CutFirst(full, '/')
               case None => NameAndTag("", full)
               case Some((before, rest)) => NameAndTag(before, rest)
  {
    AfterFirstSlash(full);
  }

  /** Nothing of any reference is lost: its three parts, put together, are the reference again. */
  lemma PartsRebuildReference(full: string)
    ensures var (namespace, name, tag) := ParseImageTag(full);
            var path := if '/' in full then namespace + "/" + name else name;
            (full == path + ":" + tag && ':' !in tag) || (full == path && tag == "latest" && ':' !in name)
    ensures '/' !in ParseImageTag(full).0
    ensures '/' !in full ==> ParseImageTag(full).0 == ""
  {
    ParsesAs(full);
    var (namespace, name, tag) := ParseImageTag(full);
    var rest := if '/' in full then CutFirst(full, '/').value.1 else full;
    if ':' in rest {
      assert rest == name + ":" + tag;
      if '/' in full {
        assert full == namespace + "/" + (name + ":" + tag) == namespace + "/" + name + ":" + tag;
      }
    }
  }
}
