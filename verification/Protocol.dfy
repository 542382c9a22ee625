/** The reconciler as a state machine over its durable state: the five annotations of every pod, the
    status label of the workflow, and what has been published. Each action is one write or one external
    effect; a crash is a trace that stops. */
module Protocol {
  import opened Metadata
  import opened Nodes
  import opened Environment
  import opened Lists

  /** A pod's five annotations. */
  datatype Own = Own(
    status: Option<Value>,
    artifacts: Option<Value>,
    signed: Option<Value>,
    sbom: Option<Value>,
    provenance: Option<Value>)

  const BLANK := Own(None, None, None, None, None)

  const POD_KEYS: set<Key> := {StatusKey, ArtifactsKey, SignedKey, SbomKey, ProvenanceKey}

  function OwnOf(m: Meta): Own {
    Own(At(m, StatusKey), At(m, ArtifactsKey), At(m, SignedKey), At(m, SbomKey), At(m, ProvenanceKey))
  }

  function Field(o: Own, k: Key): Option<Value> {
    match k
    case StatusKey => o.status
    case ArtifactsKey => o.artifacts
    case SignedKey => o.signed
    case SbomKey => o.sbom
    case ProvenanceKey => o.provenance
    case _ => None
  }

  function Put(o: Own, k: Key, v: Value): Own {
    match k
    case StatusKey => o.(status := Some(v))
    case ArtifactsKey => o.(artifacts := Some(v))
    case SignedKey => o.(signed := Some(v))
    case SbomKey => o.(sbom := Some(v))
    case ProvenanceKey => o.(provenance := Some(v))
    case _ => o
  }

  predicate Final(status: Option<Value>) {
    status.Some? && status.value != InProgress
  }

  predicate Found(o: Own) {
    o.artifacts.Some? && o.artifacts.value != NoArtifacts
  }

  predicate TerminalLabel(wfStatus: Option<Value>) {
    wfStatus == Some(Completed) || wfStatus == Some(Error)
  }

  /** A signing verdict not yet recorded, and the pass that obtained it. */
  datatype Flight = Flight(pass: nat, ok: bool)

  /** A pod with its accounts: `unfinished` once a pass has seen the pod not Succeeded; a signing verdict not yet
      recorded; the references `published`; the statement last `attested` with success, and how the last request
      for an attestation ended; `unscanned` once a request for its SBOMs has failed. */
  datatype PodRec = PodRec(
    own: Own,
    succeeded: bool,
    unfinished: bool,
    flight: Option<Flight>,
    published: set<string>,
    attested: Option<Statement>,
    granted: Option<bool>,
    unscanned: bool)

  /** The pass in progress: its configuration, the pods of its snapshot in order, their statuses when it began,
      whether the snapshot has Pod nodes without a pod, and how far the pass has come: once `validated`, how many
      calls and requests there had been; the request at which a statement was `refused`; once `failed`, how many
      calls there had been. */
  datatype Pass = Pass(
    cfg: Config,
    members: seq<string>,
    entry: map<string, Option<Value>>,
    hollow: bool,
    validated: bool,
    calls: nat,
    requests: nat,
    refused: Option<nat>,
    failed: bool,
    failedAt: nat,
    stmt: Option<Statement>)

  /** `sboms`: the images with a published SBOM; `described`: those for which a request to attest it was granted. */
  datatype State = State(
    pods: map<string, PodRec>,
    wfStatus: Option<Value>,
    passNo: nat,
    pass: Pass,
    sboms: set<string>,
    described: set<string>)

  datatype Action =
    | Begin(cfg: Config, members: seq<string>, hollow: bool)
    | Succeed(pod: string)
    | Observe(pod: string)
    | Sign(pod: string, ref: string, published: bool, ok: bool)
    | AttestSbom(pod: string, ref: string, published: bool, ok: bool)
    | SbomFail(pod: string)
    | Write(pod: string, key: Key, value: Value)
    | Validate(calls: nat, requests: nat)
    | Generate(pod: string, at: nat, ok: bool)
    | Attest(pod: string, stmt: Statement, published: bool, ok: bool)
    | ProvenanceFail(calls: nat)
    | Label(value: Value)

  function NewPass(cfg: Config, members: seq<string>, entry: map<string, Option<Value>>, hollow: bool): Pass {
    Pass(cfg, members, entry, hollow, false, 0, 0, None, false, 0, None)
  }

  function BlankRec(succeeded: bool): PodRec {
    PodRec(BLANK, succeeded, false, None, {}, None, None, false)
  }

  function Init(w: World): State {
    State(map p | p in w.fates :: BlankRec(p in w.startSucceeded), w.initialLabel, 0,
          NewPass(Config(UnknownSigner, false), [], map[], false), {}, {})
  }

  /** The artifacts of the listed pods that found one, in order. */
  function Subjects(w: World, pods: map<string, PodRec>, members: seq<string>): seq<Subject> {
    Concat((p: string) => SubjectsAt(w, pods, p), members)
  }

  function SubjectsAt(w: World, pods: map<string, PodRec>, p: string): seq<Subject> {
    if p in pods && Found(pods[p].own) then SubjectOfValue(w, pods[p].own.artifacts.value) else []
  }

  function SubjectOfValue(w: World, v: Value): seq<Subject> {
    if IsDigestRef(w.parse, ValueText(v)) then [SubjectOf(w.parse, ValueText(v))] else []
  }

  predicate CleanMeta(m: Meta) {
    forall k :: k in m && IsSlsaKey(k) ==> k == EnableKey
  }

  // ---------- guards ----------

  /** When pod `p` may be given value `v` under key `k`. */
  ghost predicate MayWrite(w: World, s: State, p: string, k: Key, v: Value)
    requires p in s.pods && p in w.fates
  {
    var r := s.pods[p];
    var o := r.own;
    match k
    case StatusKey =>
      !s.pass.validated &&
      (match v
       case InProgress => o.status.None? && !w.fates[p].errored && r.succeeded
       case Skipped =>
         || (o.status.None? && (w.fates[p].errored || r.unfinished))
         || (o.status == Some(InProgress) && o.artifacts == Some(NoArtifacts) && o.signed.Some?)
       case Completed => o.status == Some(InProgress) && Found(o) && o.signed == Some(Completed)
       case Error => o.status == Some(InProgress) && Found(o) && o.signed == Some(Error)
       case _ => false)
    case ArtifactsKey => !s.pass.validated && o.status == Some(InProgress) && o.artifacts.None? && v == w.Artifact(p)
    case SignedKey =>
      !s.pass.validated && o.status == Some(InProgress) && o.artifacts.Some? && o.signed.None?
      && (if Found(o) then v in {Completed, Error} && r.flight == Some(Flight(s.passNo, v == Completed))
          else v == Skipped)
    case SbomKey =>
      !s.pass.validated && s.pass.cfg.sbomGeneration
      && o.status == Some(InProgress) && o.signed.Some? && o.sbom.None?
      && (if Found(o)
          then (v == Error && r.unscanned)
               || (v == Attached && forall t :: t in w.SbomTargets(ValueText(o.artifacts.value)) ==> t in s.described)
          else v == Skipped)
    case ProvenanceKey =>
      s.pass.validated && !s.pass.failed && Final(o.status) && o.provenance.None?
      && (if Found(o) then v in {Attached, Error} && r.granted == Some(v == Attached) else v == Skipped)
    case _ => false
  }

  ghost predicate MaySign(w: World, s: State, p: string, ref: string)
    requires p in s.pods && p in w.fates
  {
    var r := s.pods[p];
    && !s.pass.validated
    && r.own.status == Some(InProgress) && r.own.artifacts == Some(Text(ref)) && r.own.signed.None?
    && (r.flight.Some? ==> r.flight.value.pass < s.passNo)
  }

  ghost predicate MayAttest(w: World, s: State, p: string, stmt: Statement)
    requires p in s.pods
  {
    && s.pass.validated && !s.pass.failed
    && Found(s.pods[p].own) && s.pods[p].own.provenance.None?
    && stmt.subjects == Subjects(w, s.pods, s.pass.members)
    && CleanMeta(stmt.labels) && CleanMeta(stmt.annotations)
    && (s.pass.stmt.Some? ==> s.pass.stmt == Some(stmt))
  }

  ghost predicate MayScan(w: World, s: State, p: string, ref: string)
    requires p in s.pods
  {
    MayDescribe(s, p) && ref in w.SbomTargets(ValueText(s.pods[p].own.artifacts.value))
  }

  /** The pod is at the point of its SBOM. */
  ghost predicate MayDescribe(s: State, p: string)
    requires p in s.pods
  {
    var o := s.pods[p].own;
    !s.pass.validated && s.pass.cfg.sbomGeneration
    && o.status == Some(InProgress) && o.signed.Some? && o.sbom.None? && Found(o)
  }

  /** Some request on the way to the SBOMs of an image is refused, or its manifest or reference is no good. */
  ghost predicate SbomRefused(w: World, ref: string) {
    || (exists i :: !w.net(ManifestOp, ref, i).ok)
    || w.manifest(ref).MalformedManifest?
    || (w.manifest(ref).mediaType == DockerManifestList && w.parse(ref).None?)
    || (exists t, i :: t in w.SbomTargets(ref) && !w.net(SyftOp, t, i).ok)
    || (exists t, i :: t in w.SbomTargets(ref) && !w.net(AttestSbomOp, t, i).ok)
  }

  /** What a request that needs the signer is answered: by the oracle, or refused for want of a signer. */
  ghost predicate Answered(w: World, cfg: Config, op: NetOp, ref: string, reply: NetReply) {
    if cfg.signer.UnknownSigner? then reply == NetReply(false, false) else exists i :: w.net(op, ref, i) == reply
  }

  /** The provenance step has failed for a reason: a statement it asked for was refused, or its last call failed. */
  ghost predicate Caused(w: World, pass: Pass) {
    Refusal(w, pass) || (pass.calls < pass.failedAt && w.tape(pass.failedAt - 1).reply != Ok)
  }

  ghost predicate Refusal(w: World, pass: Pass) {
    pass.refused.Some? && pass.requests <= pass.refused.value && GenerationRefused(w, pass.refused.value)
  }

  /** A statement cannot be built with request `i` for the run details and the next for the build. */
  ghost predicate GenerationRefused(w: World, i: nat) {
    !w.net(RunDetailsOp, "", i).ok || !w.net(BuildOp, "", i + 1).ok
  }

  /** Every pod of the snapshot is done, and the ones in error were so when the pass began. */
  ghost predicate MayValidate(s: State) {
    forall p :: p in s.pass.members ==>
      && p in s.pods && p in s.pass.entry
      && Final(s.pods[p].own.status)
      && (s.pods[p].own.status == Some(Error) ==> s.pass.entry[p] == Some(Error))
  }

  ghost predicate MayLabel(s: State, v: Value) {
    match v
    case InProgress => true
    case Completed =>
      && s.pass.validated && !s.pass.failed && !s.pass.hollow
      && forall p :: p in s.pass.members ==> p in s.pods && s.pods[p].own.provenance.Some?
    case Error => (s.pass.validated && s.pass.failed) || (!s.pass.validated && FreshError(s))
    case _ => false
  }

  /** Some pod of the snapshot failed signing in this pass, durably. */
  ghost predicate FreshError(s: State) {
    exists p :: p in s.pass.members && p in s.pods && p in s.pass.entry
                && s.pods[p].own.signed == Some(Error) && s.pods[p].own.status == Some(Error)
                && !Final(s.pass.entry[p])
  }

  ghost predicate Enabled(w: World, s: State, a: Action) {
    match a
    case Begin(_, members, _) =>
      !TerminalLabel(s.wfStatus) && forall i, j :: 0 <= i < j < |members| ==> members[i] != members[j]
    case Succeed(p) => p in s.pods
    case Observe(p) => Active(w, s, p) && !s.pods[p].succeeded
    case Sign(p, ref, published, ok) =>
      Active(w, s, p) && MaySign(w, s, p, ref) && (ok ==> published)
      && Answered(w, s.pass.cfg, SignOp, ref, NetReply(ok, published))
    case AttestSbom(p, ref, published, ok) =>
      Active(w, s, p) && MayScan(w, s, p, ref) && !s.pass.cfg.signer.UnknownSigner?
      && (exists i :: w.net(SyftOp, ref, i).ok) && Answered(w, s.pass.cfg, AttestSbomOp, ref, NetReply(ok, published))
    case SbomFail(p) =>
      Active(w, s, p) && MayDescribe(s, p)
      && (s.pass.cfg.signer.UnknownSigner? || SbomRefused(w, ValueText(s.pods[p].own.artifacts.value)))
    case Write(p, k, v) => Active(w, s, p) && MayWrite(w, s, p, k, v)
    case Validate(_, _) => !TerminalLabel(s.wfStatus) && !s.pass.validated && MayValidate(s)
    case Attest(p, stmt, published, ok) =>
      Active(w, s, p) && MayAttest(w, s, p, stmt)
      && Answered(w, s.pass.cfg, AttestOp, ValueText(s.pods[p].own.artifacts.value), NetReply(ok, published))
    case Generate(p, at, ok) =>
      Active(w, s, p) && s.pass.validated && !s.pass.failed && Found(s.pods[p].own) && s.pods[p].own.provenance.None?
      && s.pass.requests <= at && ok == !GenerationRefused(w, at)
    case ProvenanceFail(calls) =>
      !TerminalLabel(s.wfStatus) && s.pass.validated && Caused(w, s.pass.(failedAt := calls))
    case Label(v) => !TerminalLabel(s.wfStatus) && s.wfStatus != Some(v) && MayLabel(s, v)
  }

  ghost predicate Active(w: World, s: State, p: string) {
    !TerminalLabel(s.wfStatus) && p in s.pass.members && p in s.pods && p in w.fates
  }

  // ---------- effects ----------

  function Written(r: PodRec, k: Key, v: Value): PodRec {
    r.(own := Put(r.own, k, v), flight := if k == SignedKey then None else r.flight)
  }

  function SignedOnce(r: PodRec, passNo: nat, ref: string, published: bool, ok: bool): PodRec {
    r.(flight := Some(Flight(passNo, ok)),
       published := if published then r.published + {ref} else r.published)
  }

  function AttestedOnce(r: PodRec, stmt: Statement, ok: bool): PodRec {
    r.(granted := Some(ok), attested := if ok then Some(stmt) else r.attested)
  }

  function SetPod(s: State, p: string, r: PodRec): State {
    s.(pods := s.pods[p := r])
  }

  function Effect(s: State, a: Action): State {
    match a
    case Begin(cfg, members, hollow) =>
      s.(passNo := s.passNo + 1,
         pass := NewPass(cfg, members, map p | p in members && p in s.pods :: s.pods[p].own.status, hollow))
    case Succeed(p) => if p in s.pods then SetPod(s, p, s.pods[p].(succeeded := true)) else s
    case Observe(p) => if p in s.pods then SetPod(s, p, s.pods[p].(unfinished := true)) else s
    case Sign(p, ref, published, ok) =>
      if p in s.pods then SetPod(s, p, SignedOnce(s.pods[p], s.passNo, ref, published, ok)) else s
    case AttestSbom(_, ref, published, ok) =>
      s.(sboms := if published then s.sboms + {ref} else s.sboms,
         described := if ok then s.described + {ref} else s.described)
    case SbomFail(p) => if p in s.pods then SetPod(s, p, s.pods[p].(unscanned := true)) else s
    case Write(p, k, v) => if p in s.pods then SetPod(s, p, Written(s.pods[p], k, v)) else s
    case Validate(calls, requests) => s.(pass := s.pass.(validated := true, calls := calls, requests := requests))
    case Generate(_, at, ok) => if ok then s else s.(pass := s.pass.(refused := Some(at)))
    case Attest(p, stmt, _, ok) =>
      var s' := s.(pass := s.pass.(stmt := Some(stmt)));
      if p in s.pods then SetPod(s', p, AttestedOnce(s.pods[p], stmt, ok)) else s'
    case ProvenanceFail(calls) => s.(pass := s.pass.(failed := true, failedAt := calls))
    case Label(v) => s.(wfStatus := Some(v))
  }

  /** The state a trace leads to, and whether every action of it was enabled. */
  function Exec(w: World, t: seq<Action>): State {
    if t == [] then Init(w) else Effect(Exec(w, t[..|t| - 1]), t[|t| - 1])
  }

  ghost predicate Legal(w: World, t: seq<Action>) {
    t == [] || (Legal(w, t[..|t| - 1]) && Enabled(w, Exec(w, t[..|t| - 1]), t[|t| - 1]))
  }

  lemma Append(w: World, t: seq<Action>, a: Action)
    requires Legal(w, t) && Enabled(w, Exec(w, t), a)
    ensures Legal(w, t + [a]) && Exec(w, t + [a]) == Effect(Exec(w, t), a)
  {
    assert (t + [a])[..|t|] == t;
  }

  /** The last action of a run. */
  lemma LastAction(w: World, t: seq<Action>)
    requires Legal(w, t) && t != []
    ensures var u, a := t[..|t| - 1], t[|t| - 1];
            Legal(w, u) && Enabled(w, Exec(w, u), a) && Exec(w, t) == Effect(Exec(w, u), a) && t == u + [a]
  {
  }

  /** A run stopped anywhere is a run. */
  lemma {:induction false} PrefixLegal(w: World, t: seq<Action>, n: nat)
    requires Legal(w, t) && n <= |t|
    ensures Legal(w, t[..n])
    decreases |t|
  {
    if n < |t| {
      PrefixLegal(w, t[..|t| - 1], n);
      assert t[..|t| - 1][..n] == t[..n];
    } else {
      assert t[..n] == t;
    }
  }
}
