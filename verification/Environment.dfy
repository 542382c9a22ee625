/** What the controller runs against: fixed facts about the workflow's pods and images, and the replies of
    the API server and of the registry, chosen freely by two oracles. */
module Environment {
  import opened Metadata
  import opened Nodes

  /** What Argo reports of a pod's node from the moment the node is terminal. */
  datatype Fate = Fate(errored: bool, params: seq<Param>)

  /** How a call through the controller's client ends; `LostReply` applies the patch and reports a failure. */
  datatype Reply = Ok | Conflict | NotFound | Failed | LostReply

  /** One call: its reply, and what other clients have made of the object by then. */
  datatype Outcome = Outcome(
    reply: Reply,
    labels: Meta, annotations: Meta, succeeded: bool, nodes: map<string, Node>)

  datatype NetOp = SignOp | ManifestOp | SyftOp | AttestSbomOp | RunDetailsOp | BuildOp | AttestOp

  /** A registry or signing call can take effect and still report a failure. */
  datatype NetReply = NetReply(ok: bool, published: bool)

  datatype MediaType = DockerManifestList | OciImageIndex | OtherMedia(text: string)

  /** What an image's manifest reads as when it is decoded as an index; `children` are the digests it lists,
      none for the manifest of a single image. */
  datatype Manifest = Manifest(mediaType: MediaType, children: seq<string>) | MalformedManifest

  /** Only Docker's media type counts as multi-platform. */
  predicate IsMultiPlatform(m: Manifest) {
    m.Manifest? && m.mediaType.DockerManifestList?
  }

  datatype SignerType = SecretSigner | KmsSigner | FulcioSigner | UnknownSigner

  datatype Config = Config(signer: SignerType, sbomGeneration: bool)

  datatype World = World(
    workflow: string,
    initialLabel: Option<Value>,
    fates: map<string, Fate>,
    startSucceeded: set<string>,
    parse: Parser,
    manifest: string -> Manifest,
    tape: nat -> Outcome,
    net: (NetOp, string, nat) -> NetReply)
  {
    /** The standing assumptions about the environment. */
    ghost predicate Ok() {
      && !IsDigestRef(parse, ValueText(NoArtifacts))
      && (forall i :: NodesOk(tape(i).nodes))
      && (forall op, ref, i :: net(op, ref, i).ok ==> net(op, ref, i).published)
    }

    /** Node IDs have Argo's form, and a terminal node shows the fate of its pod. */
    ghost predicate NodesOk(nodes: map<string, Node>) {
      forall id :: id in nodes && nodes[id].isPod ==>
        && WellFormedId(workflow, id)
        && NodeOk(FormatPodName(workflow, nodes[id].template, id), nodes[id].phase, nodes[id].params)
    }

    ghost predicate NodeOk(name: string, phase: Phase, params: seq<Param>) {
      name in fates && IsTerminal(phase) ==> phase.NodeError? == fates[name].errored && params == fates[name].params
    }

    function Artifact(p: string): Value
      requires p in fates
    {
      Discover(parse, fates[p].params)
    }

    /** The registry answers each request about a reference the same way, however often it is asked. */
    ghost predicate StableNet() {
      forall op, ref, i, j :: net(op, ref, i) == net(op, ref, j)
    }

    /** The images that the manifest lists, under the image's repository. */
    function Children(ref: string): seq<string> {
      match manifest(ref)
      case Manifest(_, children) => ChildRefs(if parse(ref).Some? then parse(ref).value.repo else "", children)
      case MalformedManifest => []
    }

    /** The images that are scanned for the image. */
    function SbomTargets(ref: string): seq<string> {
      if IsMultiPlatform(manifest(ref)) then Children(ref) else [ref]
    }

    /** The listed images are scanned if and only if the media type is Docker's, unless the image lists itself
        and nothing else; an image that is not scanned by its list is itself the one image scanned. */
    lemma TargetsAreChildren(ref: string)
      requires manifest(ref).Manifest?
      ensures SbomTargets(ref) == Children(ref)
              <==> manifest(ref).mediaType == DockerManifestList || Children(ref) == [ref]
      ensures manifest(ref).mediaType != DockerManifestList ==> SbomTargets(ref) == [ref]
      ensures |Children(ref)| == |manifest(ref).children|
      ensures parse(ref).Some? ==> forall i :: 0 <= i < |manifest(ref).children| ==>
                Children(ref)[i] == parse(ref).value.repo + "@" + manifest(ref).children[i]
    {
    }
  }

  function ChildRefs(repo: string, children: seq<string>): (r: seq<string>)
    ensures |r| == |children|
    ensures forall i :: 0 <= i < |r| ==> r[i] == repo + "@" + children[i]
  {
    seq(|children|, i requires 0 <= i < |children| => repo + "@" + children[i])
  }

  datatype Subject = Subject(name: string, sha256: string)

  /** An in-toto statement: its subjects and the workflow metadata it quotes. */
  datatype Statement = Statement(subjects: seq<Subject>, labels: Meta, annotations: Meta)

  /** The subject is the image: its repository, and its digest without the algorithm if that is "sha256:". */
  predicate Identifies(parse: Parser, ref: string, s: Subject) {
    && IsDigestRef(parse, ref) && s.name == parse(ref).value.repo
    && var digest := parse(ref).value.digest.value;
       if HasPrefix(digest, "sha256:") then "sha256:" + s.sha256 == digest else s.sha256 == digest
  }

  function SubjectOf(parse: Parser, ref: string): (s: Subject)
    requires IsDigestRef(parse, ref)
    ensures Identifies(parse, ref, s)
  {
    var digest := parse(ref).value.digest.value;
    assert HasPrefix(digest, "sha256:") ==> "sha256:" + digest[|"sha256:"|..] == digest;
    Subject(parse(ref).value.repo, TrimPrefix(digest, "sha256:"))
  }
}
