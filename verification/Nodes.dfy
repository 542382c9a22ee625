/** Workflow nodes, the pods they own, and the artifact reference a node reports. */
module Nodes {
  import opened Metadata

  datatype Phase =
    | NodePending
    | NodeRunning
    | NodeSucceeded
    | NodeSkipped
    | NodeFailed
    | NodeError
    | NodeOmitted
    | NodeUnknown(text: string)

  predicate IsSkippedOrOmitted(phase: Phase) {
    phase.NodeSkipped? || phase.NodeOmitted?
  }

  predicate InKnownState(phase: Phase) {
    phase.NodeSucceeded? || phase.NodeFailed? || phase.NodeError? || phase.NodePending? || phase.NodeRunning?
  }

  /** The phases in which the pod machine works on the pod. */
  predicate IsTerminal(phase: Phase) {
    phase.NodeSucceeded? || phase.NodeFailed? || phase.NodeError?
  }

  datatype Param = Param(name: string, value: string)

  /** One entry of the workflow's node map; the map key is the node ID. */
  datatype Node = Node(isPod: bool, template: string, phase: Phase, params: seq<Param>, display: string)

  /** What a parsed image reference gives: registry and repository, and the digest if it names one. */
  datatype Ref = Ref(repo: string, digest: Option<string>)

  /** `name.ParseReference` of the container registry library. */
  type Parser = string -> Option<Ref>

  predicate IsDigestRef(parse: Parser, s: string) {
    parse(s).Some? && parse(s).value.digest.Some?
  }

  /** The digest reference the node reports: `strings.HasPrefix("OCI", name)` accepts the names that are
      prefixes of "OCI", and the last accepted parameter decides. */
  function LastOci(params: seq<Param>): Option<string> {
    if params == [] then None
    else if HasPrefix("OCI", params[|params| - 1].name) then Some(params[|params| - 1].value)
    else LastOci(params[..|params| - 1])
  }

  /** The value recorded under the artifacts key for a node with these output parameters. */
  function Discover(parse: Parser, params: seq<Param>): Value {
    match LastOci(params)
    case None => NoArtifacts
    case Some(v) => if IsDigestRef(parse, v) then Text(v) else NoArtifacts
  }

  /** The recorded artifact is the last accepted parameter or nothing: an earlier valid reference is lost
      when a later accepted parameter is not a digest reference. */
  lemma {:induction false} DiscoverLast(parse: Parser, params: seq<Param>, i: nat)
    requires i < |params| && HasPrefix("OCI", params[i].name)
    requires forall j :: i < j < |params| ==> !HasPrefix("OCI", params[j].name)
    ensures Discover(parse, params)
         == if IsDigestRef(parse, params[i].value) then Text(params[i].value) else NoArtifacts
  {
    if i < |params| - 1 {
      DiscoverLast(parse, params[..|params| - 1], i);
    }
  }

  /** The names of the parameters that are looked at. */
  const OCI_NAMES: set<string> := {"", "O", "OC", "OCI"}

  /** Parameter `i` is the last that is looked at. */
  ghost predicate LastLookedAt(params: seq<Param>, i: nat) {
    i < |params| && params[i].name in OCI_NAMES && forall j :: i < j < |params| ==> params[j].name !in OCI_NAMES
  }

  lemma {:induction false} NothingLookedAt(params: seq<Param>)
    requires forall j :: 0 <= j < |params| ==> params[j].name !in OCI_NAMES
    ensures LastOci(params).None?
  {
    if params != [] {
      AcceptedNames(params[|params| - 1].name);
      NothingLookedAt(params[..|params| - 1]);
    }
  }

  lemma {:induction false} LastOrNone(params: seq<Param>) returns (i: Option<nat>)
    ensures i.Some? ==> LastLookedAt(params, i.value)
    ensures i.None? ==> forall j :: 0 <= j < |params| ==> params[j].name !in OCI_NAMES
  {
    var k := |params|;
    while k > 0
      invariant 0 <= k <= |params|
      invariant forall j :: k <= j < |params| ==> params[j].name !in OCI_NAMES
    {
      if params[k - 1].name in OCI_NAMES {
        return Some(k - 1);
      }
      k := k - 1;
    }
    i := None;
  }

  /** What is recorded: the text of the last parameter with one of the four names if it is a digest reference;
      otherwise, and when there is no such parameter, the marker. */
  lemma DiscoverExactly(parse: Parser, params: seq<Param>)
    ensures forall v :: Discover(parse, params) == Text(v)
                        <==> IsDigestRef(parse, v) && exists i: nat :: LastLookedAt(params, i) && params[i].value == v
    ensures Discover(parse, params) == NoArtifacts
            <==> forall i: nat :: LastLookedAt(params, i) ==> !IsDigestRef(parse, params[i].value)
    ensures (forall j :: 0 <= j < |params| ==> params[j].name !in OCI_NAMES) ==> Discover(parse, params) == NoArtifacts
  {
    hide Discover;
    var last := LastOrNone(params);
    match last
    case None =>
      NothingLookedAt(params);
      NoneRecorded(parse, params);
    case Some(i) =>
      forall j | 0 <= j < |params|
        ensures params[j].name in OCI_NAMES <==> HasPrefix("OCI", params[j].name)
      {
        AcceptedNames(params[j].name);
      }
      DiscoverLast(parse, params, i);
      assert forall k: nat :: LastLookedAt(params, k) ==> k == i;
  }

  lemma NoneRecorded(parse: Parser, params: seq<Param>)
    requires LastOci(params).None?
    ensures Discover(parse, params) == NoArtifacts
  {
  }

  /** Every phase is of exactly one kind: without a pod, unfinished, finished, or unknown. */
  lemma PhaseKinds(phase: Phase)
    ensures IsSkippedOrOmitted(phase) <==> phase in {NodeSkipped, NodeOmitted}
    ensures IsTerminal(phase) <==> phase in {NodeSucceeded, NodeFailed, NodeError}
    ensures InKnownState(phase) && !IsTerminal(phase) <==> phase in {NodePending, NodeRunning}
    ensures !InKnownState(phase) && !IsSkippedOrOmitted(phase) <==> phase.NodeUnknown?
  {
  }

  /** Exactly the digest references are ever recorded, so a later pass can parse what it reads back, and the
      marker text never stands for a reference. */
  lemma DiscoverParses(parse: Parser, params: seq<Param>)
    requires !IsDigestRef(parse, ValueText(NoArtifacts))
    ensures Discover(parse, params).Text? || Discover(parse, params).NoArtifacts?
    ensures Discover(parse, params).Text? <==> IsDigestRef(parse, ValueText(Discover(parse, params)))
    ensures ValueText(Discover(parse, params)) == ValueText(NoArtifacts) <==> Discover(parse, params) == NoArtifacts
  {
  }

  /** The accepted names, spelled out: not the names that start with "OCI". */
  lemma AcceptedNames(name: string)
    ensures HasPrefix("OCI", name) <==> name in {"", "O", "OC", "OCI"}
  {
    if HasPrefix("OCI", name) {
      assert |name| == 0 || |name| == 1 || |name| == 2 || |name| == 3;
      assert "OCI"[..0] == "" && "OCI"[..1] == "O" && "OCI"[..2] == "OC" && "OCI"[..3] == "OCI";
    }
  }

  function FormatPodName(workflow: string, template: string, id: string): string {
    workflow + "-" + template + "-" + TrimPrefix(id, workflow + "-")
  }

  /** How Argo forms the ID of a pod's node: workflow name, dash, dash-free suffix. */
  ghost predicate WellFormedId(workflow: string, id: string) {
    HasPrefix(id, workflow + "-") && |id| > |workflow| + 1 && '-' !in id[|workflow| + 1..]
  }

  /** Distinct nodes of a workflow own distinct pods. */
  lemma PodNamesDistinct(workflow: string, t1: string, id1: string, t2: string, id2: string)
    requires WellFormedId(workflow, id1) && WellFormedId(workflow, id2)
    requires FormatPodName(workflow, t1, id1) == FormatPodName(workflow, t2, id2)
    ensures t1 == t2 && id1 == id2
  {
    var p := workflow + "-";
    var s1, s2 := TrimPrefix(id1, p), TrimPrefix(id2, p);
    var n1, n2 := FormatPodName(workflow, t1, id1), FormatPodName(workflow, t2, id2);
    assert n1 == p + (t1 + "-" + s1) && n2 == p + (t2 + "-" + s2);
    assert n1[|p|..] == t1 + "-" + s1 && n2[|p|..] == t2 + "-" + s2;
    SplitAtLastDash(t1, s1, t2, s2);
    assert id1 == p + s1 && id2 == p + s2;
  }

  /** The name of a node's pod, for an ID of Argo's form. */
  lemma PodNameForm(workflow: string, template: string, suffix: string)
    ensures FormatPodName(workflow, template, workflow + "-" + suffix) == workflow + "-" + template + "-" + suffix
  {
    var id := workflow + "-" + suffix;
    assert id[..|workflow + "-"|] == workflow + "-";
    assert id[|workflow + "-"|..] == suffix;
  }

  lemma SplitAtLastDash(a: string, s: string, b: string, t: string)
    requires a + "-" + s == b + "-" + t
    requires '-' !in s && '-' !in t
    ensures a == b && s == t
  {
    var l, r := a + "-" + s, b + "-" + t;
    LastDash(a, s);
    LastDash(b, t);
    assert |a| == |b|;
    assert l[..|a|] == a && r[..|a|] == b;
    assert l[|a| + 1..] == s && r[|a| + 1..] == t;
  }

  lemma LastDash(a: string, s: string)
    requires '-' !in s
    ensures (a + "-" + s)[|a|] == '-'
    ensures forall k :: |a| < k <= |a| + |s| ==> (a + "-" + s)[k] != '-'
  {
    forall k | |a| < k <= |a| + |s|
      ensures (a + "-" + s)[k] != '-'
    {
      assert (a + "-" + s)[k] == s[k - |a| - 1];
    }
  }

  /** With a dash in the suffix two nodes can claim one pod. */
  lemma PodNamesCollide()
    ensures FormatPodName("w", "a-b", "w-c") == FormatPodName("w", "a", "w-b-c")
  {
    assert TrimPrefix("w-c", "w-") == "c";
    assert TrimPrefix("w-b-c", "w-") == "b-c";
  }
}
