/**
 Placement targets `hostname[:numa][::gpus]`: the command line splits off the GPU list
 (`cli/commands/vps.py`), the API client the NUMA node (`cli/api/vps.py`).
 */
module Targets {
  import opened Wrappers
  import opened Text

  /** What the request to the host carries. */
  datatype Placement = Placement(hostname: Option<string>, numa: Option<int>, gpus: Option<seq<int>>)

  // ---------------------------------------------------------------------------
  // Parsing

  /** `s.rsplit("::", 1)` */
  function CutLastPair(s: string): (r: Option<(string, string)>)
    ensures r.Some? ==> s == r.value.0 + "::" + r.value.1
  {
    if |s| < 2 then None
    else if s[|s| - 2] == ':' && s[|s| - 1] == ':' then Some((s[..|s| - 2], ""))
    else
      match CutLastPair(s[..|s| - 1])
      case None => None
      case Some((a, b)) => Some((a, b + [s[|s| - 1]]))
  }

  /** The non-blank entries as numbers; an entry that is none raises `ValueError`. */
  function GpuIds(entries: seq<string>): Option<seq<int>> {
    if entries == [] then Some([])
    else
      var entry := Strip(entries[0]);
      if entry == "" then GpuIds(entries[1..])
      else
        match (ParseInt(entry), GpuIds(entries[1..]))
        case (Some(id), Some(ids)) => Some([id] + ids)
        case _ => None
  }

  /** The target without its GPU list, and the list. */
  function ParseTargetString(target: Option<string>): Option<(Option<string>, Option<seq<int>>)> {
    if target.None? then Some((None, None))
    else
      match CutLastPair(target.value)
      case None => Some((target, None))
      case Some((rest, gpus)) =>
        match GpuIds(Split(gpus, ','))
        case Some(ids) => Some((Some(rest), Some(ids)))
        case None => None
  }

  function HostAndNuma(target: Option<string>): (Option<string>, Option<int>) {
    if target.None? || target.value == "" then (None, None)
    else
      match CutFirst(target.value, ':')
      case None => (target, None)
      case Some((host, numa)) => (if host == "" then None else Some(host), ParseInt(numa))
  }

  /** Both stages; None is the `ValueError` of a GPU entry. */
  function Parse(target: Option<string>): Option<Placement> {
    match ParseTargetString(target)
    case None => None
    case Some((rest, gpus)) =>
      var (host, numa) := HostAndNuma(rest);
      Some(Placement(host, numa, if gpus == None || gpus.value == [] then None else gpus))
  }

  /** The part of `create_vps` that fills in the placement fields. */
  method CreateVpsPlacement(target: Option<string>, gpuIds: Option<seq<int>>) returns (payload: Placement)
    ensures (payload.hostname, payload.numa) == HostAndNuma(target)
    ensures payload.gpus == if gpuIds == Some([]) then None else gpuIds
  {
    var targetHostname, targetNumaId := None, None;
    if target.Some? && target.value != "" {
      if ':' in target.value {
        var parts := CutFirst(target.value, ':').value;
        targetHostname := if parts.0 != "" then Some(parts.0) else None;
        if parts.1 != "" {
          targetNumaId := ParseInt(parts.1);
        }
      } else {
        targetHostname := target;
      }
    }
    payload := Placement(targetHostname, targetNumaId, if gpuIds == None || gpuIds.value == [] then None else gpuIds);
  }

  // ---------------------------------------------------------------------------
  // Printing

  function GpuTexts(ids: seq<int>): (r: seq<string>)
    ensures |r| == |ids|
  {
    if ids == [] then [] else [IntText(ids[0])] + GpuTexts(ids[1..])
  }

  function Head(p: Placement): string {
    (if p.hostname.Some? then p.hostname.value else "")
    + if p.numa.Some? then ":" + IntText(p.numa.value) else ""
  }

  /** The documented form `hostname[:numa][::gpus]`. */
  function Print(p: Placement): string {
    if p.gpus.Some? then Head(p) + "::" + JoinAll(GpuTexts(p.gpus.value), ',') else Head(p)
  }

  predicate Expressible(p: Placement) {
    && (p.hostname.Some? ==> p.hostname.value != "" && ':' !in p.hostname.value)
    && p.gpus != Some([])
  }

  // ---------------------------------------------------------------------------
  // Round trip

  lemma {:induction false} CutLastPairUnique(a: string, b: string)
    requires ':' !in b
    ensures CutLastPair(a + "::" + b) == Some((a, b))
  {
    var s := a + "::" + b;
    if b == [] {
      assert s[..|s| - 2] == a;
    } else {
      var front := b[..|b| - 1];
      assert s[..|s| - 1] == a + "::" + front;
      CutLastPairUnique(a, front);
      assert front + [b[|b| - 1]] == b;
      assert s[|s| - 1] == b[|b| - 1] != ':';
    }
  }

  ghost predicate HasPair(s: string) {
    exists i :: 0 < i < |s| && s[i - 1] == ':' && s[i] == ':'
  }

  lemma {:induction false} CutsExactlyPairs(s: string)
    ensures CutLastPair(s).Some? <==> HasPair(s)
  {
    if |s| >= 2 {
      var front := s[..|s| - 1];
      CutsExactlyPairs(front);
      if HasPair(front) {
        var i :| 0 < i < |front| && front[i - 1] == ':' && front[i] == ':';
        assert s[i] == ':';
      }
      if HasPair(s) && !(s[|s| - 2] == ':' && s[|s| - 1] == ':') {
        var i :| 0 < i < |s| && s[i - 1] == ':' && s[i] == ':';
        assert front[i] == ':';
      }
    }
  }

  /** The printed ids hold no separator, and reading them gives the ids. */
  lemma {:induction false} GpuTextsRoundTrip(ids: seq<int>)
    ensures forall t <- GpuTexts(ids) :: ',' !in t && ':' !in t
    ensures GpuIds(GpuTexts(ids)) == Some(ids)
  {
    if ids != [] {
      GpuTextsRoundTrip(ids[1..]);
      var t := IntText(ids[0]);
      IntRoundTrip(ids[0]);
      assert t[0] in t && t[|t| - 1] in t;
      NotStripped(t);
      assert [ids[0]] + ids[1..] == ids;
      assert GpuTexts(ids)[1..] == GpuTexts(ids[1..]);
    }
  }

  lemma {:induction false} JoinKeepsOut(parts: seq<string>, sep: char, c: char)
    requires c != sep && forall p <- parts :: c !in p
    ensures c !in JoinAll(parts, sep)
  {
    if |parts| > 1 {
      JoinKeepsOut(parts[1..], sep, c);
    }
  }

  /** With no colon on either side of a single one, there is no double colon. */
  lemma OneColonIsNoPair(host: string, n: string)
    requires ':' !in host && ':' !in n
    ensures CutLastPair(host + [':'] + n).None? && CutLastPair(host).None?
  {
    var h := host + [':'] + n;
    assert forall i :: |host| < i < |h| ==> h[i] == n[i - |host| - 1];
    assert forall i :: 0 <= i < |host| ==> h[i] == host[i];
    CutsExactlyPairs(h);
    CutsExactlyPairs(host);
  }

  lemma HeadIsRead(p: Placement)
    requires Expressible(p)
    ensures CutLastPair(Head(p)).None?
    ensures HostAndNuma(Some(Head(p))) == (p.hostname, p.numa)
  {
    var host := if p.hostname.Some? then p.hostname.value else "";
    if p.numa.Some? {
      var n := IntText(p.numa.value);
      IntRoundTrip(p.numa.value);
      assert Head(p) == host + [':'] + n;
      CutFirstUnique(host, ':', n);
      OneColonIsNoPair(host, n);
    } else {
      assert Head(p) == host;
      OneColonIsNoPair(host, "");
    }
  }

  lemma GpuListIsRead(ids: seq<int>)
    requires ids != []
    ensures GpuIds(Split(JoinAll(GpuTexts(ids), ','), ',')) == Some(ids)
    ensures ':' !in JoinAll(GpuTexts(ids), ',')
  {
    GpuTextsRoundTrip(ids);
    JoinKeepsOut(GpuTexts(ids), ',', ':');
    SplitUndoesJoin(GpuTexts(ids), ',');
  }

  /** The first stage takes a printed GPU list off any target in front of it. */
  lemma ListIsSplitOff(head: string, ids: seq<int>)
    requires ids != []
    ensures ParseTargetString(Some(head + "::" + JoinAll(GpuTexts(ids), ','))) == Some((Some(head), Some(ids)))
  {
    var list := JoinAll(GpuTexts(ids), ',');
    GpuListIsRead(ids);
    CutLastPairUnique(head, list);
  }

  lemma PrintedIsSplit(p: Placement)
    requires Expressible(p)
    ensures ParseTargetString(Some(Print(p))) == Some((Some(Head(p)), p.gpus))
  {
    if p.gpus.Some? {
      ListIsSplitOff(Head(p), p.gpus.value);
    } else {
      HeadIsRead(p);
    }
  }

  lemma PrintedIsRecovered(p: Placement)
    requires Expressible(p)
    ensures Parse(Some(Print(p))) == Some(p)
  {
    PrintedIsSplit(p);
    HeadIsRead(p);
  }

  /** No target text asks for an empty host name, one with a colon, or an empty GPU list. */
  lemma ParsedIsExpressible(target: Option<string>)
    ensures Parse(target).Some? ==> Expressible(Parse(target).value)
  {
  }

  /** The printed target is recovered exactly when its host name is non-empty and free of colons. */
  lemma PrintParseRoundTripIff(p: Placement)
    ensures Parse(Some(Print(p))) == Some(p) <==> Expressible(p)
  {
    ParsedIsExpressible(Some(Print(p)));
    if Expressible(p) {
      PrintedIsRecovered(p);
    }
  }

  /** Printing what a target was parsed into gives a normal form with the same meaning. */
  lemma NormalForm(target: Option<string>)
    requires Parse(target).Some?
    ensures Parse(Some(Print(Parse(target).value))) == Parse(target)
  {
    ParsedIsExpressible(target);
    PrintedIsRecovered(Parse(target).value);
  }

  /** An address with a double colon loses its tail to the GPU list, or fails there. */
  lemma DoubleColonIsTheGpuList(host: string, tail: string)
    requires ':' !in tail
    ensures ParseTargetString(Some(host + "::" + tail))
            == match GpuIds(Split(tail, ','))
               case Some(ids) => Some((Some(host), Some(ids)))
               case None => None
  {
    CutLastPairUnique(host, tail);
  }

  // ---------------------------------------------------------------------------
  // Texts that are not in normal form

  /** The documented form, with two GPUs. */
  lemma TargetIsSpelled(host: string, numa: int, first: int, second: int)
    requires host != "" && ':' !in host
    ensures Parse(Some(host + ":" + IntText(numa) + "::" + IntText(first) + "," + IntText(second)))
            == Some(Placement(Some(host), Some(numa), Some([first, second])))
  {
    var p := Placement(Some(host), Some(numa), Some([first, second]));
    PrintedIsRecovered(p);
    TwoGpuTexts(first, second);
    assert Head(p) == host + ":" + IntText(numa);
    assert Print(p) == Head(p) + "::" + (IntText(first) + "," + IntText(second));
    assert Print(p) == host + ":" + IntText(numa) + "::" + IntText(first) + "," + IntText(second);
  }

  lemma TwoGpuTexts(first: int, second: int)
    ensures JoinAll(GpuTexts([first, second]), ',') == IntText(first) + "," + IntText(second)
  {
    assert [first, second][1..] == [second] && [second][1..] == [];
    assert GpuTexts([second]) == [IntText(second)];
    assert GpuTexts([first, second]) == [IntText(first), IntText(second)];
    assert [IntText(first), IntText(second)][1..] == [IntText(second)];
  }

  /** The host name ends at the first colon and survives whatever follows; a NUMA part that is no number is none. */
  lemma HostSurvivesNuma(host: string, numa: string)
    requires ':' !in host
    ensures HostAndNuma(Some(host + ":" + numa)) == (if host == "" then None else Some(host), ParseInt(numa))
    ensures HostAndNuma(Some(host)) == (if host == "" then None else Some(host), None)
  {
    CutFirstUnique(host, ':', numa);
    assert host + ":" + numa == host + [':'] + numa;
  }

  /** Lists of GPU entries are read piece by piece; one bad piece spoils the list. */
  lemma {:induction false} GpuIdsOfBoth(a: seq<string>, b: seq<string>)
    ensures GpuIds(a + b) == match (GpuIds(a), GpuIds(b))
                             case (Some(ids), Some(more)) => Some(ids + more)
                             case _ => None
  {
    if a == [] {
      assert a + b == b;
      assert GpuIds(b).Some? ==> [] + GpuIds(b).value == GpuIds(b).value;
    } else {
      assert (a + b)[0] == a[0] && (a + b)[1..] == a[1..] + b;
      GpuIdsOfBoth(a[1..], b);
      if GpuIds(a).Some? && GpuIds(b).Some? && Strip(a[0]) != "" {
        assert GpuIds(a).value + GpuIds(b).value == [GpuIds(a).value[0]] + (GpuIds(a[1..]).value + GpuIds(b).value);
      }
    }
  }

  lemma GpuIdsOfStripped(t: string)
    ensures Strip(t) == "" ==> GpuIds([t]) == Some([])
    ensures Strip(t) != "" && ParseInt(Strip(t)).Some? ==> GpuIds([t]) == Some([ParseInt(Strip(t)).value])
    ensures Strip(t) != "" && ParseInt(Strip(t)).None? ==> GpuIds([t]) == None
  {
    assert [t][1..] == [] && GpuIds([]) == Some([]);
    if Strip(t) != "" && ParseInt(Strip(t)).Some? {
      assert [ParseInt(Strip(t)).value] + [] == [ParseInt(Strip(t)).value];
    }
  }

  /** A blank entry counts for nothing, a number counts whatever white space surrounds it, the rest is an error. */
  lemma GpuIdsOfOne(lead: string, entry: string, trail: string, id: int)
    requires AllSpace(lead) && AllSpace(trail)
    ensures GpuIds([lead + trail]) == Some([])
    ensures GpuIds([lead + IntText(id) + trail]) == Some([id])
    ensures entry != "" && !IsSpace(entry[0]) && !IsSpace(entry[|entry| - 1]) && ParseInt(entry) == None ==>
              GpuIds([lead + entry + trail]) == None
  {
    var n := IntText(id);
    IntRoundTrip(id);
    assert n != "" && n[0] in n && n[|n| - 1] in n;
    StripSurrounded(lead, "", trail);
    StripSurrounded(lead, n, trail);
    assert lead + "" + trail == lead + trail;
    GpuIdsOfStripped(lead + trail);
    GpuIdsOfStripped(lead + n + trail);
    GpuIdsOfStripped(lead + entry + trail);
    if entry != "" && !IsSpace(entry[0]) && !IsSpace(entry[|entry| - 1]) {
      StripSurrounded(lead, entry, trail);
    }
  }
}
