/** The in-memory status of one workflow pod and the visit that brings the pod to its final annotations. */
module PodStatus {
  import opened Metadata
  import opened Nodes
  import opened Environment
  import opened Protocol
  import opened Theorems
  import opened Cluster
  import opened StatusUpdater
  import opened PassSpec
  import Provenance
  import SbomOci

  /** Of the pods only `p` has changed. */
  ghost predicate PodOnly(s: State, s': State, p: string) {
    && p in s.pods && s'.pods.Keys == s.pods.Keys
    && (forall q :: q in s.pods && q != p ==> s'.pods[q] == s.pods[q])
    && s'.passNo == s.passNo && s'.wfStatus == s.wfStatus
    && s.sboms <= s'.sboms && s.described <= s'.described
    && (s.pods[p].succeeded ==> s'.pods[p].succeeded)
  }

  /** The trace grew, and at most the given numbers of requests were made. */
  ghost predicate Within(j: Journal, j': Journal, signs: nat, sboms: nat, attests: nat) {
    && j.trace <= j'.trace
    && j.effects.signed <= j'.effects.signed && |j'.effects.signed| <= |j.effects.signed| + signs
    && j.effects.sboms <= j'.effects.sboms <= j.effects.sboms + sboms
    && j.effects.attests <= j'.effects.attests <= j.effects.attests + attests
  }

  lemma WithinReflexive(j: Journal)
    ensures Within(j, j, 0, 0, 0)
  {
  }

  lemma WithinThrough(j: Journal, j1: Journal, j2: Journal, m: (nat, nat, nat), n: (nat, nat, nat))
    requires Within(j, j1, m.0, m.1, m.2) && Within(j1, j2, n.0, n.1, n.2)
    ensures Within(j, j2, m.0 + n.0, m.1 + n.1, m.2 + n.2)
    ensures m.0 == 0 ==> j1.effects.signed == j.effects.signed
    ensures n.0 == 0 ==> j2.effects.signed == j1.effects.signed
  {
  }

  lemma WithinWidened(j: Journal, j': Journal, m: (nat, nat, nat), n: (nat, nat, nat))
    requires Within(j, j', m.0, m.1, m.2) && m.0 <= n.0 && m.1 <= n.1 && m.2 <= n.2
    ensures Within(j, j', n.0, n.1, n.2)
  {
  }

  lemma InvOf(c: Server)
    requires c.Valid()
    ensures Inv(c.w, c.j.s) && c.w.Ok()
  {
    Reachable(c.w, c.j.trace);
  }

  lemma PodInvOf(c: Server, p: string)
    requires c.Valid() && p in c.j.s.pods
    ensures p in c.w.fates && PodInv(c.w, c.j.s.pods[p], p, c.j.s.passNo) && PodObj(p) in c.store
    ensures p in c.j.s.pass.entry && Final(c.j.s.pass.entry[p]) ==> c.j.s.pods[p].own.status == c.j.s.pass.entry[p]
  {
    InvOf(c);
    GoodObject(c.w, c.store, c.j, PodObj(p));
  }

  /** What a patch of one annotation means for its pod. */
  lemma AfterPatch(s: State, s': State, p: string, k: Key, v: Value)
    requires PatchedAtMostOnce(s, s', PodObj(p), k, v) && p in s.pods && k in POD_KEYS
    ensures PodOnly(s, s', p) && s'.pass == s.pass && s'.sboms == s.sboms
    ensures s'.pods[p].own in {s.pods[p].own, Put(s.pods[p].own, k, v)}
    ensures HasValue(s', PodObj(p), k, v) ==> s'.pods[p].own == Put(s.pods[p].own, k, v)
    ensures k != SignedKey ==> s'.pods[p].flight == s.pods[p].flight
    ensures s'.pods[p].attested == s.pods[p].attested
  {
  }

  /** The signer types that exist. */
  const SIGNER_TYPES: set<SignerType> := {SecretSigner, KmsSigner, FulcioSigner}

  /** Ask for a signature of the pod's artifact; the request is recorded whatever comes of it. */
  method SignWithConfigOpts(c: Server, cfg: Config, ref: string, ghost p: string) returns (ok: bool)
    requires c.Valid() && Active(c.w, c.j.s, p) && MaySign(c.w, c.j.s, p, ref) && c.j.s.pass.cfg == cfg
    modifies c
    ensures c.Valid() && c.clock == old(c.clock) && c.store == old(c.store)
    ensures ok <==> cfg.signer in SIGNER_TYPES && c.w.net(SignOp, ref, old(c.requests)).ok
    ensures exists published :: c.j.trace == old(c.j.trace) + [Sign(p, ref, published, ok)]
    ensures c.j.effects == old(c.j.effects).(signed := old(c.j.effects.signed) + [ref])
    ensures PodOnly(old(c.j.s), c.j.s, p) && c.j.s.pass == old(c.j.s.pass) && c.j.s.sboms == old(c.j.s.sboms)
    ensures c.j.s.pods[p].own == old(c.j.s.pods[p].own) && c.j.s.pods[p].succeeded == old(c.j.s.pods[p].succeeded)
    ensures c.j.s.pods[p].flight == Some(Flight(c.j.s.passNo, ok))
    ensures c.w.StableNet() ==> ok == SignVerdict(c.w, cfg, ref)
    ensures old(c.requests) <= c.requests
  {
    hide Good, Enabled, Effect;
    GoodObject(c.w, c.store, c.j, WorkflowObj);
    var reply := if cfg.signer.UnknownSigner? then NetReply(false, false) else c.w.net(SignOp, ref, c.requests);
    assert c.w.StableNet() ==> reply.ok == SignVerdict(c.w, cfg, ref);
    c.requests := c.requests + 1;
    SignEffect(c.w, c.j.s, p, ref, reply.published, reply.ok);
    c.Commit(Sign(p, ref, reply.published, reply.ok));
    ok := reply.ok;
  }

  lemma SignEffect(w: World, s: State, p: string, ref: string, published: bool, ok: bool)
    requires Active(w, s, p) && MaySign(w, s, p, ref) && (ok ==> published)
    requires Answered(w, s.pass.cfg, SignOp, ref, NetReply(ok, published))
    ensures Enabled(w, s, Sign(p, ref, published, ok))
    ensures var s' := Effect(s, Sign(p, ref, published, ok));
            && PodOnly(s, s', p) && s'.pass == s.pass && s'.sboms == s.sboms
            && s'.pods[p] == SignedOnce(s.pods[p], s.passNo, ref, published, ok)
  {
  }

  /** All SBOMs of the image, by the generator; without a known signer type there are none. */
  method GenerateSBOMWithConfigOpts(c: Server, cfg: Config, ref: string, ghost p: string) returns (ok: bool)
    requires c.Valid() && Active(c.w, c.j.s, p) && MayDescribe(c.j.s, p) && c.j.s.pass.cfg == cfg
    requires ref == ValueText(c.j.s.pods[p].own.artifacts.value)
    modifies c
    ensures old(c.requests) <= c.requests
    ensures c.Valid() && c.store == old(c.store) && c.clock == old(c.clock)
    ensures PodOnly(old(c.j.s), c.j.s, p) && c.j.s.pass == old(c.j.s.pass)
    ensures c.j.s.pods[p] == old(c.j.s.pods[p]).(unscanned := c.j.s.pods[p].unscanned)
    ensures old(c.j.trace) <= c.j.trace
    ensures c.j.effects == old(c.j.effects).(sboms := old(c.j.effects.sboms) + 1)
    ensures Enabled(c.w, c.j.s, Write(p, SbomKey, if ok then Attached else Error))
    ensures if ok then cfg.signer in SIGNER_TYPES && forall t :: t in c.w.SbomTargets(ref) ==> t in c.j.s.described
            else cfg.signer !in SIGNER_TYPES || SbomRefused(c.w, ref)
    ensures c.w.StableNet() ==> (if ok then Attached else Error) == SbomValue(c.w, cfg, ref)
  {
    hide Server.Valid, SbomOci.SbomVerdict, Enabled, Effect, SbomRefused, World.SbomTargets, MayDescribe, TerminalLabel,
         World.StableNet, World.Ok;
    CountSbom(c);
    ok := false;
    if !cfg.signer.UnknownSigner? {
      ok := SbomOci.GenerateSBOMforOCI(c, ref, p);
    }
    if !ok {
      FailEffect(c.w, c.j.s, p, ref);
      c.Commit(SbomFail(p));
    }
    SbomGuard(c.w, c.j.s, p, ok);
  }

  ghost method CountSbom(c: Server)
    requires c.Valid()
    modifies c`j
    ensures c.Valid() && c.j == old(c.j).(effects := old(c.j.effects).(sboms := old(c.j.effects.sboms) + 1))
  {
    hide Good;
    EffectsGood(c.w, c.store, c.j, c.j.effects.(sboms := c.j.effects.sboms + 1));
    c.j := c.j.(effects := c.j.effects.(sboms := c.j.effects.sboms + 1));
  }

  lemma FailEffect(w: World, s: State, p: string, ref: string)
    requires Active(w, s, p) && MayDescribe(s, p) && ref == ValueText(s.pods[p].own.artifacts.value)
    requires s.pass.cfg.signer.UnknownSigner? || SbomRefused(w, ref)
    ensures Enabled(w, s, SbomFail(p))
    ensures var s' := Effect(s, SbomFail(p));
            && s' == s.(pods := s.pods[p := s.pods[p].(unscanned := true)])
            && Active(w, s', p) && MayDescribe(s', p)
  {
  }

  lemma SbomGuard(w: World, s: State, p: string, ok: bool)
    requires Active(w, s, p) && MayDescribe(s, p)
    requires if ok then forall t :: t in w.SbomTargets(ValueText(s.pods[p].own.artifacts.value)) ==> t in s.described
             else s.pods[p].unscanned
    ensures Enabled(w, s, Write(p, SbomKey, if ok then Attached else Error))
  {
  }

  lemma DriftEffect(s: State, s': State, p: string)
    requires Drifted(s, s', PodObj(p))
    ensures p in s.pods ==> PodOnly(s, s', p) && s'.pass == s.pass && s'.pods[p].own == s.pods[p].own
                            && s'.pods[p].flight == s.pods[p].flight && s'.pods[p].unfinished == s.pods[p].unfinished
    ensures p !in s.pods ==> s' == s
  {
  }

  lemma EffectsGood(w: World, store: map<ObjKey, Stored>, j: Journal, effects: Effects)
    requires Good(w, store, j)
    ensures Good(w, store, j.(effects := effects))
  {
  }

  class PodStatus {
    const name: string
    const display: string
    const phase: Phase
    const params: seq<Param>
    var pod: Object?
    var artifactsFound: bool
    var artifactInfo: Value
    var signed: bool
    var reconciliation: bool

    constructor (name: string, display: string, phase: Phase, params: seq<Param>)
      ensures this.name == name && this.display == display && this.phase == phase && this.params == params
      ensures Untouched()
    {
      this.name, this.display, this.phase, this.params := name, display, phase, params;
      pod, artifactsFound, artifactInfo, signed, reconciliation := null, false, Text(""), false, false;
    }

    predicate Untouched()
      reads this
    {
      pod == null && !artifactsFound && !signed && !reconciliation
    }

    /** The pass is at work on this pod. */
    ghost predicate Ready(c: Server)
      reads c
    {
      c.Valid() && Active(c.w, c.j.s, name) && !c.j.s.pass.validated
      && IsTerminal(phase) && c.w.NodeOk(name, phase, params)
    }

    ghost predicate Holds()
      reads this, pod
    {
      pod != null && pod.key == PodObj(name)
    }

    /** The copy held of the pod shows its annotations as they are. */
    ghost predicate Synced(c: Server)
      reads this, pod, c
    {
      Holds() && name in c.j.s.pods
      && OwnOf(pod.annotations) == c.j.s.pods[name].own && pod.succeeded == c.j.s.pods[name].succeeded
    }

    ghost function Mine(c: Server): Own
      requires name in c.j.s.pods
      reads c
    {
      c.j.s.pods[name].own
    }

    /** The artifact as held in memory is the one on record. */
    ghost predicate Knows(o: Own)
      reads this
    {
      artifactsFound == Found(o) && (artifactsFound ==> artifactInfo == o.artifacts.value)
    }

    method Annotate(c: Server, k: Key, v: Value) returns (err: Option<Failure>)
      requires c.Valid() && Holds() && name in c.j.s.pods && k in POD_KEYS
      requires Field(Mine(c), k) == Some(v) || Enabled(c.w, c.j.s, Write(name, k, v))
      modifies c, pod
      ensures c.Valid() && Continues(old(c.j), c.j) && c.requests == old(c.requests)
      ensures old(c.clock) < c.clock <= old(c.clock) + 6
      ensures PodOnly(old(c.j.s), c.j.s, name) && c.j.s.pass == old(c.j.s.pass) && c.j.s.sboms == old(c.j.s.sboms)
      ensures Mine(c) in {old(Mine(c)), Put(old(Mine(c)), k, v)}
      ensures k != SignedKey ==> c.j.s.pods[name].flight == old(c.j.s.pods[name].flight)
      ensures Holds()
      ensures err.None? ==> Synced(c) && Mine(c) == Put(old(Mine(c)), k, v)
      ensures AsAnswered(c.w, old(c.clock), c.clock, err)
    {
      hide Good, Enabled, PatchedAtMostOnce, PatchLaw;
      GoodObject(c.w, c.store, c.j, PodObj(name));
      err := PatchAnnotations(c, pod, k, v);
      AfterPatch(old(c.j.s), c.j.s, name, k, v);
      GoodObject(c.w, c.store, c.j, PodObj(name));
    }

    method GetPod(c: Server) returns (p: Object, reply: Reply)
      requires c.Valid()
      modifies c
      ensures c.Valid() && Continues(old(c.j), c.j) && c.requests == old(c.requests) && c.clock == old(c.clock) + 1
      ensures fresh(p) && p.key == PodObj(name)
      ensures name in old(c.j.s.pods) ==>
                PodOnly(old(c.j.s), c.j.s, name) && c.j.s.pass == old(c.j.s.pass) && Mine(c) == old(Mine(c))
                && c.j.s.pods[name].flight == old(c.j.s.pods[name].flight)
                && c.j.s.pods[name].succeeded == (old(c.j.s.pods[name].succeeded) || c.w.tape(old(c.clock)).succeeded)
      ensures name !in old(c.j.s.pods) ==> c.j.s == old(c.j.s)
      ensures reply == Ok ==> name in c.j.s.pods
                              && OwnOf(p.annotations) == Mine(c) && p.succeeded == c.j.s.pods[name].succeeded
      ensures reply == Ok <==> name in old(c.j.s.pods) && c.w.tape(old(c.clock)).reply == Ok
    {
      hide Good, Drifted;
      GoodObject(c.w, c.store, c.j, PodObj(name));
      p := new Object.Named(PodObj(name));
      reply := c.Get(p);
      DriftEffect(old(c.j.s), c.j.s, name);
      GoodObject(c.w, c.store, c.j, PodObj(name));
    }

    method CurrentReconciliationStatus(p: Object)
      requires Untouched()
      modifies this
      ensures pod == p
      ensures var o := OwnOf(p.annotations);
              && reconciliation == Final(o.status) && Knows(o)
              && signed == o.signed.Some?
    {
      pod := p;
      var status := At(p.annotations, StatusKey);
      if status.Some? && status.value != InProgress {
        reconciliation := true;
      }
      var artifacts := At(p.annotations, ArtifactsKey);
      if artifacts.Some? && artifacts.value != NoArtifacts {
        artifactsFound := true;
        artifactInfo := artifacts.value;
      }
      if At(p.annotations, SignedKey).Some? {
        signed := true;
      }
    }

    method MarkPodAsSkipped(c: Server) returns (err: Option<Failure>)
      requires Ready(c) && Holds() && Mine(c).status.None?
      requires c.w.fates[name].errored || c.j.s.pods[name].unfinished
      modifies this`reconciliation, c, pod
      ensures c.Valid() && Continues(old(c.j), c.j) && c.requests == old(c.requests)
      ensures old(c.clock) < c.clock <= old(c.clock) + 6
      ensures PodOnly(old(c.j.s), c.j.s, name) && c.j.s.pass == old(c.j.s.pass)
      ensures err.None? ==> Synced(c) && reconciliation && Mine(c) == old(Mine(c)).(status := Some(Skipped))
      ensures AsAnswered(c.w, old(c.clock), c.clock, err)
    {
      hide Good;
      reconciliation := true;
      err := Annotate(c, StatusKey, Skipped);
    }

    method HandleArtifactInfo(c: Server) returns (err: Option<Failure>)
      requires Ready(c) && Synced(c) && Mine(c).status == Some(InProgress)
      requires Knows(Mine(c))
      modifies this`artifactsFound, this`artifactInfo, c, pod
      ensures c.Valid() && Continues(old(c.j), c.j) && c.requests == old(c.requests)
      ensures old(c.clock) <= c.clock <= old(c.clock) + 6
      ensures PodOnly(old(c.j.s), c.j.s, name) && c.j.s.pass == old(c.j.s.pass)
      ensures c.j.s.pods[name].flight == old(c.j.s.pods[name].flight)
      ensures err.None? ==> Synced(c) && Knows(Mine(c))
                            && Mine(c) == WithArtifact(c.w, c.w.fates[name], old(Mine(c)))
                            && Mine(c).artifacts.Some? && Mine(c) == old(Mine(c)).(artifacts := Mine(c).artifacts)
      ensures AsAnswered(c.w, old(c.clock), c.clock, err)
    {
      hide Good;
      if At(pod.annotations, ArtifactsKey).None? {
        var status := false;
        artifactInfo := NoArtifacts;
        for i := 0 to |params|
          invariant artifactInfo == Discover(c.w.parse, params[..i]) && status == artifactInfo.Text?
          invariant unchanged(c) && unchanged(pod)
        {
          assert params[..i + 1][..i] == params[..i];
          if HasPrefix("OCI", params[i].name) {
            if IsDigestRef(c.w.parse, params[i].value) {
              artifactInfo := Text(params[i].value);
              status := true;
            } else {
              artifactInfo := NoArtifacts;
              status := false;
            }
          }
        }
        assert params[..|params|] == params;
        artifactsFound := status;
        err := Annotate(c, ArtifactsKey, artifactInfo);
        return;
      }
      artifactsFound := At(pod.annotations, ArtifactsKey) != Some(NoArtifacts);
      err := None;
    }

    /** This pass has not asked for a signature of the pod. */
    ghost predicate Unsigned(c: Server)
      requires name in c.j.s.pods
      reads c
    {
      var flight := c.j.s.pods[name].flight;
      flight.Some? ==> flight.value.pass < c.j.s.passNo
    }

    method HandleArtifactSigning(c: Server, cfg: Config) returns (err: Option<Failure>)
      requires Ready(c) && Synced(c) && Mine(c).status == Some(InProgress) && Mine(c).artifacts.Some?
      requires Knows(Mine(c)) && Unsigned(c) && c.j.s.pass.cfg == cfg
      modifies this`signed, c, pod
      ensures c.Valid() && Within(old(c.j), c.j, 1, 0, 0)
      ensures old(c.clock) <= c.clock <= old(c.clock) + 6 && old(c.requests) <= c.requests
      ensures PodOnly(old(c.j.s), c.j.s, name) && c.j.s.pass == old(c.j.s.pass)
      ensures err.None? ==>
                && Synced(c) && Knows(Mine(c)) && (artifactsFound ==> signed == (Mine(c).signed == Some(Completed)))
                && Mine(c).signed.Some? && Mine(c) == old(Mine(c)).(signed := Mine(c).signed)
      ensures err.None? && c.w.StableNet() ==> Mine(c) == WithSignature(c.w, cfg, old(Mine(c)))
      ensures err.None? ==>
                c.j.effects.signed == old(c.j.effects.signed) + ToSign(c.w, c.w.fates[name], true, old(Mine(c)))
      ensures AsAnswered(c.w, old(c.clock), c.clock, err)
    {
      hide Server.Valid, MaySign, SignVerdict, Enabled, World.NodeOk;
      PodInvOf(c, name);
      if !artifactsFound {
        SkipGuard(c, SignedKey);
        err := Annotate(c, SignedKey, Skipped);
        return;
      }
      if At(pod.annotations, SignedKey).None? {
        err := SignAndRecord(c, cfg);
        return;
      }
      signed := At(pod.annotations, SignedKey) == Some(Completed);
      err := None;
    }

    /** Ask for the signature and record what came of it; a crash in between leaves the request unrecorded. */
    method SignAndRecord(c: Server, cfg: Config) returns (err: Option<Failure>)
      requires Ready(c) && Synced(c) && Mine(c).status == Some(InProgress) && Mine(c).signed.None?
      requires Knows(Mine(c)) && artifactsFound && Unsigned(c) && c.j.s.pass.cfg == cfg
      modifies this`signed, c, pod
      ensures c.Valid() && Within(old(c.j), c.j, 1, 0, 0)
      ensures old(c.clock) <= c.clock <= old(c.clock) + 6 && old(c.requests) <= c.requests
      ensures PodOnly(old(c.j.s), c.j.s, name) && c.j.s.pass == old(c.j.s.pass)
      ensures err.None? ==> Synced(c) && Mine(c) == old(Mine(c)).(signed := Some(if signed then Completed else Error))
      ensures signed <==> cfg.signer in SIGNER_TYPES
                          && c.w.net(SignOp, ValueText(old(Mine(c)).artifacts.value), old(c.requests)).ok
      ensures c.w.StableNet() ==> signed == SignVerdict(c.w, cfg, ValueText(old(Mine(c)).artifacts.value))
      ensures c.j.effects.signed == old(c.j.effects.signed) + [ValueText(old(Mine(c)).artifacts.value)]
      ensures AsAnswered(c.w, old(c.clock), c.clock, err)
    {
      hide Good, MaySign, SignVerdict, Enabled, World.NodeOk;
      PodInvOf(c, name);
      var ref := ValueText(artifactInfo);
      SignGuard(c, ref);
      var ok := SignWithConfigOpts(c, cfg, ref, name);
      signed := ok;
      RecordGuard(c, ok);
      err := Annotate(c, SignedKey, if ok then Completed else Error);
    }

    lemma SignGuard(c: Server, ref: string)
      requires Ready(c) && Mine(c).status == Some(InProgress) && Found(Mine(c)) && Unsigned(c)
      requires Mine(c).signed.None? && ref == ValueText(Mine(c).artifacts.value)
      ensures MaySign(c.w, c.j.s, name, ref)
    {
      PodInvOf(c, name);
      InvOf(c);
      DiscoverParses(c.w.parse, c.w.fates[name].params);
    }

    lemma RecordGuard(c: Server, ok: bool)
      requires Ready(c) && Mine(c).status == Some(InProgress) && Found(Mine(c)) && Mine(c).signed.None?
      requires c.j.s.pods[name].flight == Some(Flight(c.j.s.passNo, ok))
      ensures Enabled(c.w, c.j.s, Write(name, SignedKey, if ok then Completed else Error))
    {
    }

    /** A pod without an artifact is given, or already has, the value `Skipped`. */
    lemma SkipGuard(c: Server, k: Key)
      requires Ready(c) && Mine(c).status == Some(InProgress) && Mine(c).artifacts.Some? && !Found(Mine(c))
      requires k == SignedKey || (k == SbomKey && Mine(c).signed.Some? && c.j.s.pass.cfg.sbomGeneration)
      ensures Field(Mine(c), k) == Some(Skipped) || Enabled(c.w, c.j.s, Write(name, k, Skipped))
    {
      PodInvOf(c, name);
    }

    method HandleSBOMGeneration(c: Server, cfg: Config) returns (err: Option<Failure>)
      requires Ready(c) && Synced(c) && Mine(c).status == Some(InProgress)
      requires Mine(c).signed.Some? && Mine(c).artifacts.Some?
      requires Knows(Mine(c)) && cfg.sbomGeneration && c.j.s.pass.cfg == cfg
      modifies c, pod
      ensures c.Valid() && Within(old(c.j), c.j, 0, 1, 0) && c.j.effects.signed == old(c.j.effects.signed)
      ensures old(c.clock) <= c.clock <= old(c.clock) + 6 && old(c.requests) <= c.requests
      ensures PodOnly(old(c.j.s), c.j.s, name) && c.j.s.pass == old(c.j.s.pass)
      ensures Holds() && Mine(c) == old(Mine(c)).(sbom := Mine(c).sbom)
      ensures err.None? ==> Mine(c).sbom.Some?
      ensures err.None? && c.w.StableNet() ==> Mine(c) == WithSbom(c.w, cfg, old(Mine(c)))
      ensures AsAnswered(c.w, old(c.clock), c.clock, err)
    {
      hide Good, World.StableNet, TerminalLabel, World.NodeOk, SbomValue;
      PodInvOf(c, name);
      if !artifactsFound {
        SkipGuard(c, SbomKey);
        err := Annotate(c, SbomKey, Skipped);
        return;
      }
      if At(pod.annotations, SbomKey).None? {
        err := GenerateAndRecord(c, cfg);
        return;
      }
      err := None;
    }

    /** Ask for the SBOMs of the artifact and record what came of it. */
    method GenerateAndRecord(c: Server, cfg: Config) returns (err: Option<Failure>)
      requires Ready(c) && Synced(c) && Mine(c).status == Some(InProgress)
      requires Mine(c).signed.Some? && Mine(c).sbom.None? && Knows(Mine(c)) && artifactsFound
      requires cfg.sbomGeneration && c.j.s.pass.cfg == cfg
      modifies c, pod
      ensures c.Valid() && Within(old(c.j), c.j, 0, 1, 0) && c.j.effects.signed == old(c.j.effects.signed)
      ensures old(c.clock) <= c.clock <= old(c.clock) + 6 && old(c.requests) <= c.requests
      ensures PodOnly(old(c.j.s), c.j.s, name) && c.j.s.pass == old(c.j.s.pass)
      ensures Holds() && Mine(c) == old(Mine(c)).(sbom := Mine(c).sbom)
      ensures err.None? ==> Mine(c).sbom in {Some(Attached), Some(Error)}
      ensures err.None? && c.w.StableNet() ==>
                Mine(c).sbom == Some(SbomValue(c.w, cfg, ValueText(old(Mine(c)).artifacts.value)))
      ensures AsAnswered(c.w, old(c.clock), c.clock, err)
    {
      hide Good, SbomOci.SbomVerdict, World.StableNet, World.NodeOk, World.SbomTargets, SbomValue;
      PodInvOf(c, name);
      var ref := ValueText(artifactInfo);
      var ok := GenerateSBOMWithConfigOpts(c, cfg, ref, name);
      var state := if ok then Attached else Error;
      err := Annotate(c, SbomKey, state);
    }

    method UpdateFinalStatus(c: Server) returns (err: Option<Failure>)
      requires Ready(c) && Holds() && Mine(c).status == Some(InProgress) && Mine(c).signed.Some?
      requires Knows(Mine(c)) && (artifactsFound ==> signed == (Mine(c).signed == Some(Completed)))
      modifies this`reconciliation, c, pod
      ensures c.Valid() && Continues(old(c.j), c.j) && c.requests == old(c.requests)
      ensures old(c.clock) < c.clock <= old(c.clock) + 6
      ensures PodOnly(old(c.j.s), c.j.s, name) && c.j.s.pass == old(c.j.s.pass)
      ensures err.None? ==> Synced(c) && reconciliation
                            && Mine(c) == old(Mine(c)).(status := Some(FinalStatus(old(Mine(c)))))
      ensures AsAnswered(c.w, old(c.clock), c.clock, err)
    {
      hide Good;
      PodInvOf(c, name);
      reconciliation := true;
      if !artifactsFound {
        err := Annotate(c, StatusKey, Skipped);
        return;
      }
      if signed {
        err := Annotate(c, StatusKey, Completed);
        return;
      }
      err := Annotate(c, StatusKey, Error);
    }

    /** The visit of a pod whose node is done and whose status is not final. */
    method HandlePodReconciliation(c: Server, cfg: Config) returns (err: Option<Failure>)
      requires Ready(c) && Synced(c) && Unsigned(c) && !Final(Mine(c).status) && Knows(Mine(c))
      requires c.j.s.pass.cfg == cfg
      modifies this, c, pod
      ensures c.Valid() && Within(old(c.j), c.j, 1, 1, 0)
      ensures old(c.clock) < c.clock <= old(c.clock) + 30 && old(c.requests) <= c.requests
      ensures PodOnly(old(c.j.s), c.j.s, name) && c.j.s.pass == old(c.j.s.pass)
      ensures pod == old(pod)
      ensures err.None? ==>
                && Synced(c) && reconciliation && Final(Mine(c).status) && Knows(Mine(c))
                && (artifactsFound ==> signed == (Mine(c).signed == Some(Completed)))
      ensures AsAnswered(c.w, old(c.clock), c.clock, err)
      ensures c.Quiet(old(c.clock), c.clock) && c.w.StableNet() ==>
                && Mine(c) == Settle(c.w, cfg, c.w.fates[name], old(pod.succeeded), old(Mine(c)))
                && c.j.effects.signed
                   == old(c.j.effects.signed) + ToSign(c.w, c.w.fates[name], old(pod.succeeded), old(Mine(c)))
    {
      hide Server.Valid, Active, SignVerdict, SbomValue,
           Inv, World.Ok, World.Artifact, OwnOf, WithArtifact, WithSignature, WithSbom, FinalStatus, Enabled, Effect;
      PodInvOf(c, name);
      if phase.NodeError? {
        err := MarkPodAsSkipped(c);
        return;
      }
      if !pod.succeeded {
        ObserveEffect(c.w, c.j.s, name);
        c.Commit(Observe(name));
        StillActive(c.w, old(c.j.s), old(c.j.s), c.j.s, name);
        err := MarkPodAsSkipped(c);
        return;
      }
      err := Process(c, cfg);
    }

    lemma StillActive(w: World, s: State, s1: State, s2: State, p: string)
      requires Active(w, s, p) && PodOnly(s, s1, p) && s1.pass == s.pass
      requires PodOnly(s1, s2, p) && s2.pass == s1.pass
      ensures Active(w, s2, p) && PodOnly(s, s2, p) && s2.passNo == s.passNo && p in s2.pods && p in w.fates
    {
    }

    lemma ObserveEffect(w: World, s: State, p: string)
      requires Active(w, s, p) && !s.pods[p].succeeded
      ensures Enabled(w, s, Observe(p))
      ensures var s' := Effect(s, Observe(p));
              PodOnly(s, s', p) && s'.pass == s.pass && s'.pods[p] == s.pods[p].(unfinished := true)
    {
    }

    /** Discover, sign, describe, and record the outcome. */
    method Process(c: Server, cfg: Config) returns (err: Option<Failure>)
      requires Ready(c) && Synced(c) && Unsigned(c) && !Final(Mine(c).status) && Knows(Mine(c))
      requires pod.succeeded && !c.w.fates[name].errored && c.j.s.pass.cfg == cfg
      modifies this, c, pod
      ensures c.Valid() && Within(old(c.j), c.j, 1, 1, 0)
      ensures old(c.clock) < c.clock <= old(c.clock) + 30 && old(c.requests) <= c.requests
      ensures PodOnly(old(c.j.s), c.j.s, name) && c.j.s.pass == old(c.j.s.pass)
      ensures pod == old(pod)
      ensures err.None? ==>
                && Synced(c) && reconciliation && Final(Mine(c).status) && Knows(Mine(c))
                && (artifactsFound ==> signed == (Mine(c).signed == Some(Completed)))
      ensures AsAnswered(c.w, old(c.clock), c.clock, err)
      ensures c.Quiet(old(c.clock), c.clock) && c.w.StableNet() ==>
                && Mine(c) == Settle(c.w, cfg, c.w.fates[name], true, old(Mine(c)))
                && c.j.effects.signed == old(c.j.effects.signed) + ToSign(c.w, c.w.fates[name], true, old(Mine(c)))
    {
      hide Server.Valid, Active, SignVerdict, SbomValue, PodOnly, Settle, ToSign, WithArtifact, WithSignature,
           WithSbom, World.NodeOk, PodInv, World.StableNet, TerminalLabel, Inv, PassInv, Enabled, Effect, Discover,
           World.Artifact, IsTerminal, FinalStatus, OwnOf, World.Ok;
      PodInvOf(c, name);
      ghost var s0 := c.j.s;
      SettleWorks(c.w, cfg, c.w.fates[name], Mine(c));
      PodOnlyReflexive(s0, name);
      err := MarkAndDiscover(c);
      StillActive(c.w, s0, s0, c.j.s, name);
      if err.Some? {
        return;
      }
      ghost var s2 := c.j.s;
      err := HandleArtifactSigning(c, cfg);
      StillActive(c.w, s0, s2, c.j.s, name);
      if err.Some? {
        return;
      }
      ghost var s3 := c.j.s;
      err := DescribeAndClose(c, cfg);
      StillActive(c.w, s0, s3, c.j.s, name);
    }

    /** A failed SBOM does not keep the status from becoming final. */
    method DescribeAndClose(c: Server, cfg: Config) returns (err: Option<Failure>)
      requires Ready(c) && Synced(c) && Mine(c).status == Some(InProgress)
      requires Mine(c).artifacts.Some? && Mine(c).signed.Some?
      requires Knows(Mine(c)) && (artifactsFound ==> signed == (Mine(c).signed == Some(Completed)))
      requires c.j.s.pass.cfg == cfg
      modifies this`reconciliation, c, pod
      ensures c.Valid() && Within(old(c.j), c.j, 0, 1, 0) && c.j.effects.signed == old(c.j.effects.signed)
      ensures old(c.clock) < c.clock <= old(c.clock) + 12 && old(c.requests) <= c.requests
      ensures PodOnly(old(c.j.s), c.j.s, name) && c.j.s.pass == old(c.j.s.pass)
      ensures err.None? ==>
                && Synced(c) && reconciliation && Final(Mine(c).status) && Knows(Mine(c))
                && (artifactsFound ==> signed == (Mine(c).signed == Some(Completed)))
      ensures AsAnswered(c.w, old(c.clock), c.clock, err)
      ensures c.Quiet(old(c.clock), c.clock) && c.w.StableNet() ==>
                && var o := WithSbom(c.w, cfg, old(Mine(c)));
                Mine(c) == o.(status := Some(FinalStatus(o)))
    {
      hide Server.Valid, Active, SbomValue, PodOnly, World.NodeOk;
      ghost var s0 := c.j.s;
      PodOnlyReflexive(s0, name);
      if cfg.sbomGeneration {
        var failure := HandleSBOMGeneration(c, cfg);
        StillActive(c.w, s0, s0, c.j.s, name);
      }
      ghost var s1 := c.j.s;
      err := UpdateFinalStatus(c);
      StillActive(c.w, s0, s1, c.j.s, name);
    }

    lemma PodOnlyReflexive(s: State, p: string)
      requires p in s.pods
      ensures PodOnly(s, s, p)
    {
    }

    method MarkAndDiscover(c: Server) returns (err: Option<Failure>)
      requires Ready(c) && Synced(c) && !Final(Mine(c).status) && Knows(Mine(c))
      requires pod.succeeded && !c.w.fates[name].errored
      modifies this`artifactsFound, this`artifactInfo, c, pod
      ensures c.Valid() && Continues(old(c.j), c.j)
      ensures old(c.clock) < c.clock <= old(c.clock) + 12 && c.requests == old(c.requests)
      ensures PodOnly(old(c.j.s), c.j.s, name) && c.j.s.pass == old(c.j.s.pass)
      ensures c.j.s.pods[name].flight == old(c.j.s.pods[name].flight)
      ensures err.None? ==>
                && Synced(c) && Knows(Mine(c)) && Mine(c).status == Some(InProgress) && Mine(c).artifacts.Some?
                && Mine(c) == WithArtifact(c.w, c.w.fates[name], old(Mine(c)).(status := Some(InProgress)))
      ensures AsAnswered(c.w, old(c.clock), c.clock, err)
    {
      hide Good, Active, PodOnly, WithArtifact, World.NodeOk;
      ghost var s0 := c.j.s;
      PodOnlyReflexive(s0, name);
      StartGuard(c);
      err := Annotate(c, StatusKey, InProgress);
      StillActive(c.w, s0, s0, c.j.s, name);
      if err.Some? {
        return;
      }
      ghost var s1 := c.j.s;
      err := HandleArtifactInfo(c);
      StillActive(c.w, s0, s1, c.j.s, name);
    }

    lemma StartGuard(c: Server)
      requires Ready(c) && !Final(Mine(c).status) && c.j.s.pods[name].succeeded && !c.w.fates[name].errored
      ensures Mine(c).status == Some(InProgress) || Enabled(c.w, c.j.s, Write(name, StatusKey, InProgress))
    {
    }

    /** The pods a visit may have changed. */
    ghost predicate Touches(s: State, s': State) {
      if name in s.pods then PodOnly(s, s', name) else s' == s
    }

    /** What the flags say after a visit without error: a pod already final when the pass began counts as
        signed whatever its signing came to; one finished now counts as signed only if it was. */
    ghost predicate Reported(c: Server)
      reads this, pod, c
    {
      if IsSkippedOrOmitted(phase) then reconciliation && pod == null && !artifactsFound
      else if !IsTerminal(phase) then Untouched()
      else
        && Synced(c) && reconciliation && Final(Mine(c).status) && Knows(Mine(c))
        && name in c.j.s.pass.entry
        && (artifactsFound ==> signed == (Final(c.j.s.pass.entry[name]) || Mine(c).signed == Some(Completed)))
    }

    /** The pod has not been visited in this pass. */
    ghost predicate Pristine(c: Server)
      reads this, c
    {
      && Untouched()
      && (!IsSkippedOrOmitted(phase) && name in c.j.s.pods ==>
            Unsigned(c) && name in c.j.s.pass.entry && c.j.s.pass.entry[name] == Mine(c).status)
    }

    /** The error of a visit: a failed first call, which fetches the pod, is never a conflict; after that it is
        what the last call was answered. */
    ghost predicate VisitAnswered(w: World, lo: nat, hi: nat, there: bool, err: Option<Failure>) {
      lo < hi
      && if hi == lo + 1 then err == if there && w.tape(lo).reply == Ok then None else Some(ApiFailure)
         else AsAnswered(w, lo, hi, err)
    }

    /** The pod is `seen` as its first call finds it: Succeeded before, or by then. */
    method ReconcilePod(c: Server, cfg: Config) returns (err: Option<Failure>, ghost seen: bool)
      requires c.Valid() && Pristine(c) && !c.j.s.pass.validated && !TerminalLabel(c.j.s.wfStatus)
      requires c.j.s.pass.cfg == cfg && c.w.NodeOk(name, phase, params)
      requires !IsSkippedOrOmitted(phase) ==> name in c.j.s.pass.members
      modifies this, c
      ensures c.Valid() && Within(old(c.j), c.j, 1, 1, 0)
      ensures old(c.clock) <= c.clock <= old(c.clock) + 31 && old(c.requests) <= c.requests
      ensures Touches(old(c.j.s), c.j.s) && c.j.s.pass == old(c.j.s.pass)
      ensures pod != null ==> fresh(pod)
      ensures err.None? ==> Reported(c)
      ensures err.Some? ==>
                && err.value !in {NotReconciled} && !err.value.SigningFailed?
                && (!c.Quiet(old(c.clock), c.clock) || (IsTerminal(phase) && name !in c.j.s.pods) || phase.NodeUnknown?)
      ensures err == Some(ConflictOrNotFound)
              <==> old(c.clock) + 1 < c.clock && c.w.tape(c.clock - 1).reply in {Conflict, NotFound}
      ensures err == Some(UnknownPhase(name)) <==> phase.NodeUnknown?
      ensures IsTerminal(phase) ==>
                old(c.clock) < c.clock && VisitAnswered(c.w, old(c.clock), c.clock, name in old(c.j.s.pods), err)
      ensures !IsTerminal(phase) ==> c.j == old(c.j) && c.clock == old(c.clock)
      ensures err.None? ==> IsSkippedOrOmitted(phase) || InKnownState(phase)
      ensures IsTerminal(phase) && name in old(c.j.s.pods) ==>
                && seen == (old(c.j.s.pods[name].succeeded) || c.w.tape(old(c.clock)).succeeded)
                && (seen ==> c.j.s.pods[name].succeeded)
      ensures c.Quiet(old(c.clock), c.clock) && c.w.StableNet() && IsTerminal(phase) && name in old(c.j.s.pods) ==>
                && Mine(c) == Settle(c.w, cfg, c.w.fates[name], seen, old(Mine(c)))
                && c.j.effects.signed
                   == old(c.j.effects.signed) + ToSign(c.w, c.w.fates[name], seen, old(Mine(c)))
    {
      hide Server.Valid, Settle, ToSign, World.NodeOk, World.StableNet, PodInv, World.Ok, TerminalLabel;
      seen := false;
      if IsSkippedOrOmitted(phase) {
        reconciliation := true;
        err := None;
        return;
      } else if !InKnownState(phase) {
        err := Some(UnknownPhase(name));
        return;
      }
      if phase.NodeRunning? || phase.NodePending? {
        err := None;
        return;
      }
      err, seen := VisitPod(c, cfg);
    }

    /** Fetch the pod of a finished node and do what is still to be done. */
    method VisitPod(c: Server, cfg: Config) returns (err: Option<Failure>, ghost seen: bool)
      requires c.Valid() && Pristine(c) && !c.j.s.pass.validated && !TerminalLabel(c.j.s.wfStatus)
      requires c.j.s.pass.cfg == cfg && c.w.NodeOk(name, phase, params)
      requires IsTerminal(phase) && name in c.j.s.pass.members
      modifies this, c
      ensures c.Valid() && Within(old(c.j), c.j, 1, 1, 0)
      ensures old(c.clock) < c.clock <= old(c.clock) + 31 && old(c.requests) <= c.requests
      ensures Touches(old(c.j.s), c.j.s) && c.j.s.pass == old(c.j.s.pass)
      ensures pod != null ==> fresh(pod)
      ensures err.None? ==> Reported(c)
      ensures err.Some? ==> !c.Quiet(old(c.clock), c.clock) || name !in c.j.s.pods
      ensures VisitAnswered(c.w, old(c.clock), c.clock, name in old(c.j.s.pods), err)
      ensures name in old(c.j.s.pods) ==>
                && seen == (old(c.j.s.pods[name].succeeded) || c.w.tape(old(c.clock)).succeeded)
                && (seen ==> c.j.s.pods[name].succeeded)
      ensures c.Quiet(old(c.clock), c.clock) && c.w.StableNet() && name in old(c.j.s.pods) ==>
                && Mine(c) == Settle(c.w, cfg, c.w.fates[name], seen, old(Mine(c)))
                && c.j.effects.signed
                   == old(c.j.effects.signed) + ToSign(c.w, c.w.fates[name], seen, old(Mine(c)))
    {
      hide Good, Settle, ToSign, World.NodeOk, World.StableNet, PodInv, World.Ok, Inv, Enabled, TerminalLabel;
      var p, reply := GetPod(c);
      seen := name in c.j.s.pods && c.j.s.pods[name].succeeded;
      if reply != Ok {
        err := Some(ApiFailure);
        return;
      }
      PodInvOf(c, name);
      CurrentReconciliationStatus(p);
      if reconciliation {
        SettledStays(c.w, cfg, c.w.fates[name], pod.succeeded, Mine(c));
        err := None;
        return;
      }
      err := HandlePodReconciliation(c, cfg);
    }

    /** The pod is done and its flags are as validation leaves them. */
    ghost predicate Validated(c: Server)
      reads this, pod, c
    {
      if IsSkippedOrOmitted(phase) then pod == null && !artifactsFound
      else
        && IsTerminal(phase) && name in c.j.s.pass.members && Synced(c) && Final(Mine(c).status) && Knows(Mine(c))
        && (artifactsFound ==> signed)
    }

    /** The provenance value of one pod. A pod that was never fetched makes the process panic. */
    method HandleProvenanceAttachment(c: Server, cfg: Config, wf: Object, subjects: seq<Subject>)
      returns (err: Option<Failure>, panicked: bool)
      requires c.Valid() && Attesting(c.w, c.j.s, wf.labels, wf.annotations, subjects) && Validated(c)
      requires wf.key == WorkflowObj && c.j.s.pass.cfg == cfg
      modifies c, pod, wf
      ensures c.Valid() && Within(old(c.j), c.j, 0, 0, 1)
      ensures old(c.clock) <= c.clock <= old(c.clock) + 6
      ensures Attesting(c.w, c.j.s, wf.labels, wf.annotations, subjects)
      ensures wf.nodes == old(wf.nodes)
      ensures panicked <==> IsSkippedOrOmitted(phase)
      ensures panicked ==> c.j == old(c.j) && err.None?
      ensures !panicked ==> PodOnly(old(c.j.s), c.j.s, name)
                            && Mine(c) == old(Mine(c)).(provenance := Mine(c).provenance)
      ensures c.j.s.pass == old(c.j.s.pass).(stmt := c.j.s.pass.stmt, refused := c.j.s.pass.refused)
      ensures panicked ==> c.j.s.pass == old(c.j.s.pass)
      ensures !panicked && err.None? ==> Mine(c).provenance.Some?
      ensures !panicked && err.None? && c.w.StableNet() ==> Mine(c) == WithProvenance(c.w, cfg, old(Mine(c)))
      ensures old(c.requests) <= c.requests
      ensures StepFailed(c.w, old(c.j.s.pass), c.j.s.pass, old(c.clock), c.clock, err)
      ensures c.w.StableNet() && Provenance.GenerationOk(c.w) ==> err != Some(GenerationFailed)
    {
      hide Server.Valid, Attesting, SubjectsPlus, World.NodeOk, AttestVerdict, GenerationRefused, World.StableNet,
           World.Ok, Provenance.GenerationOk, TerminalLabel, Provenance.Filtered;
      err, panicked := None, false;
      if !artifactsFound {
        if pod == null {
          return None, true;
        }
        SkipProvenanceGuard(c, wf.labels, wf.annotations, subjects);
        err := Annotate(c, ProvenanceKey, Skipped);
        AttestingFrame(c, old(c.j.s), name, wf.labels, wf.annotations, subjects);
        return;
      }
      if At(pod.annotations, ProvenanceKey).None? && signed {
        err := AttachProvenance(c, cfg, wf, subjects);
      }
    }

    /** The statement, its attestation, and the record of what came of it. */
    method AttachProvenance(c: Server, cfg: Config, wf: Object, subjects: seq<Subject>) returns (err: Option<Failure>)
      requires c.Valid() && Attesting(c.w, c.j.s, wf.labels, wf.annotations, subjects) && Validated(c)
      requires wf.key == WorkflowObj && artifactsFound && Mine(c).provenance.None? && c.j.s.pass.cfg == cfg
      modifies c, pod, wf
      ensures c.Valid() && Within(old(c.j), c.j, 0, 0, 1)
      ensures old(c.clock) <= c.clock <= old(c.clock) + 6 && old(c.requests) < c.requests
      ensures Attesting(c.w, c.j.s, wf.labels, wf.annotations, subjects)
      ensures wf.nodes == old(wf.nodes)
      ensures PodOnly(old(c.j.s), c.j.s, name) && Mine(c) == old(Mine(c)).(provenance := Mine(c).provenance)
      ensures c.j.s.pass == old(c.j.s.pass).(stmt := c.j.s.pass.stmt, refused := c.j.s.pass.refused)
      ensures err.None? ==> Mine(c).provenance == Some(
                if cfg.signer in SIGNER_TYPES
                   && c.w.net(AttestOp, ValueText(old(Mine(c)).artifacts.value), old(c.requests) + 2).ok
                then Attached else Error)
      ensures err.None? && c.w.StableNet() ==> Mine(c) == WithProvenance(c.w, cfg, old(Mine(c)))
      ensures StepFailed(c.w, old(c.j.s.pass), c.j.s.pass, old(c.clock), c.clock, err)
      ensures err == Some(GenerationFailed) <==> GenerationRefused(c.w, old(c.requests))
      ensures c.w.StableNet() && Provenance.GenerationOk(c.w) ==> err != Some(GenerationFailed)
    {
      hide Good, Attesting, SubjectsPlus, World.NodeOk, AttestVerdict, GenerationRefused, World.StableNet, World.Ok,
           Provenance.GenerationOk, TerminalLabel, Provenance.Filtered, Active, Refusal;
      var stmt := GenerateStatement(c, wf, subjects);
      if stmt.None? {
        return Some(GenerationFailed);
      }
      err := AttestAndRecord(c, cfg, stmt.value, wf.labels, wf.annotations);
    }

    /** Ask for the attestation and record what came of it. */
    method AttestAndRecord(c: Server, cfg: Config, stmt: Statement, ghost labels: Meta, ghost annotations: Meta)
      returns (err: Option<Failure>)
      requires c.Valid() && Attesting(c.w, c.j.s, labels, annotations, stmt.subjects) && Validated(c)
      requires stmt == Statement(stmt.subjects, Provenance.Filtered(labels), Provenance.Filtered(annotations))
      requires artifactsFound && Mine(c).provenance.None? && c.j.s.pass.cfg == cfg
      modifies c, pod
      ensures c.Valid() && Within(old(c.j), c.j, 0, 0, 1)
      ensures old(c.clock) < c.clock <= old(c.clock) + 6 && old(c.requests) <= c.requests
      ensures Attesting(c.w, c.j.s, labels, annotations, stmt.subjects)
      ensures PodOnly(old(c.j.s), c.j.s, name) && Mine(c) == old(Mine(c)).(provenance := Mine(c).provenance)
      ensures c.j.s.pass == old(c.j.s.pass).(stmt := c.j.s.pass.stmt)
      ensures err.None? ==> Mine(c).provenance == Some(
                if cfg.signer in SIGNER_TYPES
                   && c.w.net(AttestOp, ValueText(old(Mine(c)).artifacts.value), old(c.requests)).ok
                then Attached else Error)
      ensures err.None? && c.w.StableNet() ==> Mine(c) == WithProvenance(c.w, cfg, old(Mine(c)))
      ensures AsAnswered(c.w, old(c.clock), c.clock, err)
    {
      hide Good, Attesting, SubjectsPlus, World.NodeOk, AttestVerdict, World.StableNet, World.Ok, TerminalLabel,
           Provenance.Filtered, Active;
      var ok := AttestWithConfigOpts(c, cfg, ValueText(artifactInfo), stmt, name, labels, annotations);
      ghost var s1 := c.j.s;
      err := Annotate(c, ProvenanceKey, if ok then Attached else Error);
      AttestingFrame(c, s1, name, labels, annotations, stmt.subjects);
    }

    /** The pod's statement; a refusal is entered in the history. */
    method GenerateStatement(c: Server, wf: Object, subjects: seq<Subject>) returns (stmt: Option<Statement>)
      requires c.Valid() && Attesting(c.w, c.j.s, wf.labels, wf.annotations, subjects)
      requires name in c.j.s.pass.members && name in c.j.s.pods && Found(Mine(c)) && Mine(c).provenance.None?
      modifies wf, c`requests, c`j
      ensures c.Valid() && Continues(old(c.j), c.j) && old(c.requests) < c.requests
      ensures Attesting(c.w, c.j.s, wf.labels, wf.annotations, subjects) && wf.nodes == old(wf.nodes)
      ensures stmt.Some? ==> c.j.s == old(c.j.s) && c.requests == old(c.requests) + 2
                             && stmt.value == Statement(subjects, Provenance.Filtered(wf.labels),
                                                        Provenance.Filtered(wf.annotations))
      ensures stmt.None? <==> GenerationRefused(c.w, old(c.requests))
      ensures stmt.None? ==> c.j.s == old(c.j.s).(pass := old(c.j.s.pass).(refused := c.j.s.pass.refused))
                             && Refusal(c.w, c.j.s.pass)
      ensures c.w.StableNet() && Provenance.GenerationOk(c.w) ==> stmt.Some?
    {
      hide Good, Attesting, GenerationRefused, World.StableNet, World.Ok, Provenance.GenerationOk, Enabled, Effect,
           Refusal;
      stmt := Provenance.GenerateSlsaV1Provenance(c, wf, subjects);
      RefusedOrNot(c.w, old(c.requests), stmt.Some?);
      FilterKeeps(c.w, c.j.s, old(wf.labels), wf.labels, old(wf.annotations), wf.annotations, subjects);
      GenerateEffect(c, name, old(c.requests), stmt.Some?, wf.labels, wf.annotations, subjects);
      c.Commit(Generate(name, old(c.requests), stmt.Some?));
    }

    lemma RefusedOrNot(w: World, at: nat, ok: bool)
      requires ok <==> w.net(RunDetailsOp, "", at).ok && w.net(BuildOp, "", at + 1).ok
      ensures ok <==> !GenerationRefused(w, at)
    {
    }

    lemma SkipProvenanceGuard(c: Server, labels: Meta, annotations: Meta, subjects: seq<Subject>)
      requires c.Valid() && Attesting(c.w, c.j.s, labels, annotations, subjects)
      requires name in c.j.s.pass.members && name in c.j.s.pods && Final(Mine(c).status) && !Found(Mine(c))
      ensures Mine(c).provenance.Some? ==> Mine(c).provenance == Some(Skipped)
      ensures Mine(c).provenance == Some(Skipped) || Enabled(c.w, c.j.s, Write(name, ProvenanceKey, Skipped))
    {
      hide Good, Inv;
      PodInvOf(c, name);
    }
  }

  ghost function SubjectsPlus(w: World, s: State): seq<Subject> {
    Subjects(w, s.pods, s.pass.members)
  }

  /** The provenance step is under way with these subjects and this workflow metadata. */
  ghost predicate Attesting(w: World, s: State, labels: Meta, annotations: Meta, subjects: seq<Subject>) {
    && !TerminalLabel(s.wfStatus) && s.pass.validated && !s.pass.failed
    && subjects == SubjectsPlus(w, s)
    && (s.pass.stmt.Some? ==>
          s.pass.stmt.value == Statement(subjects, Provenance.Filtered(labels), Provenance.Filtered(annotations)))
  }

  /** The outcome of a part of the provenance step: an error is that of a statement refused just now, or of its
      last call. */
  ghost predicate StepFailed(w: World, pass: Pass, pass': Pass, lo: nat, hi: nat, err: Option<Failure>) {
    match err
    case None => pass'.refused == pass.refused
    case Some(GenerationFailed) => Refusal(w, pass')
    case Some(_) => pass'.refused == pass.refused && lo < hi && w.tape(hi - 1).reply != Ok
  }

  lemma GenerateEffect(c: Server, p: string, at: nat, ok: bool, labels: Meta, annotations: Meta, subjects: seq<Subject>)
    requires c.Valid() && Attesting(c.w, c.j.s, labels, annotations, subjects)
    requires p in c.j.s.pass.members && p in c.j.s.pods && Found(c.j.s.pods[p].own)
               && c.j.s.pods[p].own.provenance.None?
    requires c.j.s.pass.requests <= at && ok == !GenerationRefused(c.w, at)
    ensures Enabled(c.w, c.j.s, Generate(p, at, ok))
    ensures var s' := Effect(c.j.s, Generate(p, at, ok));
            && s' == c.j.s.(pass := c.j.s.pass.(refused := s'.pass.refused))
            && (ok ==> s' == c.j.s)
            && (!ok ==> s'.pass.refused == Some(at) && Refusal(c.w, s'.pass))
            && Attesting(c.w, s', labels, annotations, subjects)
  {
    PodInvOf(c, p);
  }

  lemma MembersExist(c: Server)
    requires c.Valid() && c.j.s.pass.validated
    ensures forall p :: p in c.j.s.pass.members ==> p in c.j.s.pods
  {
    InvOf(c);
  }

  lemma AttestingFrame(c: Server, s: State, p: string, labels: Meta, annotations: Meta, subjects: seq<Subject>)
    requires c.Valid() && Attesting(c.w, s, labels, annotations, subjects)
    requires PodOnly(s, c.j.s, p) && c.j.s.pass == s.pass
    requires p in s.pods && c.j.s.pods[p].own.artifacts == s.pods[p].own.artifacts
    ensures Attesting(c.w, c.j.s, labels, annotations, subjects)
  {
    hide Good;
    MembersExist(c);
    SubjectsFrame(c.w, s.pods, c.j.s.pods, s.pass.members);
  }

  /** Filtering the live maps again changes nothing a statement quotes. */
  lemma FilterKeeps(w: World, s: State, labels0: Meta, labels: Meta, annotations0: Meta, annotations: Meta,
                    subjects: seq<Subject>)
    requires labels == labels0 || labels == Provenance.Filtered(labels0)
    requires annotations == annotations0 || annotations == Provenance.Filtered(annotations0)
    requires Attesting(w, s, labels0, annotations0, subjects)
    ensures Provenance.Filtered(labels) == Provenance.Filtered(labels0)
    ensures Provenance.Filtered(annotations) == Provenance.Filtered(annotations0)
    ensures Attesting(w, s, labels, annotations, subjects)
  {
    Provenance.FilterIdempotent(labels0);
    Provenance.FilterIdempotent(annotations0);
  }

  /** Ask for an attestation of the pod's artifact. */
  method AttestWithConfigOpts(c: Server, cfg: Config, ref: string, stmt: Statement, ghost p: string,
                              ghost labels: Meta, ghost annotations: Meta) returns (ok: bool)
    requires c.Valid() && Attesting(c.w, c.j.s, labels, annotations, stmt.subjects)
    requires stmt == Statement(stmt.subjects, Provenance.Filtered(labels), Provenance.Filtered(annotations))
    requires p in c.j.s.pass.members && p in c.j.s.pods && Found(c.j.s.pods[p].own)
               && c.j.s.pods[p].own.provenance.None?
    requires Final(c.j.s.pods[p].own.status) && c.j.s.pass.cfg == cfg
    requires ref == ValueText(c.j.s.pods[p].own.artifacts.value)
    modifies c
    ensures c.Valid() && Within(old(c.j), c.j, 0, 0, 1) && c.clock == old(c.clock) && c.store == old(c.store)
    ensures PodOnly(old(c.j.s), c.j.s, p) && c.j.s.pass == old(c.j.s.pass).(stmt := c.j.s.pass.stmt)
    ensures c.j.s.pods[p].own == old(c.j.s.pods[p].own)
    ensures Attesting(c.w, c.j.s, labels, annotations, stmt.subjects)
    ensures Enabled(c.w, c.j.s, Write(p, ProvenanceKey, if ok then Attached else Error))
    ensures ok <==> cfg.signer in SIGNER_TYPES && c.w.net(AttestOp, ref, old(c.requests)).ok
    ensures exists published :: c.j.trace == old(c.j.trace) + [Attest(p, stmt, published, ok)]
    ensures c.w.StableNet() ==> ok == AttestVerdict(c.w, cfg, ref)
    ensures old(c.requests) <= c.requests
    ensures c.j.s.pass.stmt == Some(stmt) && (ok ==> c.j.s.pods[p].attested == Some(stmt))
  {
    hide Good, Enabled, Effect, SubjectsPlus, Final, TerminalLabel, World.Ok, PassInv, PodInv;
    PodInvOf(c, p);
    var reply := if cfg.signer.UnknownSigner? then NetReply(false, false) else c.w.net(AttestOp, ref, c.requests);
    assert c.w.StableNet() ==> reply.ok == AttestVerdict(c.w, cfg, ref);
    c.requests := c.requests + 1;
    ok := reply.ok;
    AttestEnabled(c.w, c.j.s, p, stmt, reply, labels, annotations);
    ghost var s0 := c.j.s;
    c.Commit(Attest(p, stmt, reply.published, ok));
    AttestEffect(c, s0, p, stmt, reply, labels, annotations);
  }

  lemma AttestEnabled(w: World, s: State, p: string, stmt: Statement, reply: NetReply, labels: Meta, annotations: Meta)
    requires Attesting(w, s, labels, annotations, stmt.subjects)
    requires stmt == Statement(stmt.subjects, Provenance.Filtered(labels), Provenance.Filtered(annotations))
    requires p in s.pass.members && p in s.pods && p in w.fates && Found(s.pods[p].own)
               && s.pods[p].own.provenance.None?
    requires Answered(w, s.pass.cfg, AttestOp, ValueText(s.pods[p].own.artifacts.value), reply)
    ensures Enabled(w, s, Attest(p, stmt, reply.published, reply.ok))
  {
  }

  lemma AttestEffect(c: Server, s: State, p: string, stmt: Statement, reply: NetReply, labels: Meta, annotations: Meta)
    requires c.Valid() && c.j.s == Effect(s, Attest(p, stmt, reply.published, reply.ok))
    requires Attesting(c.w, s, labels, annotations, stmt.subjects)
    requires stmt == Statement(stmt.subjects, Provenance.Filtered(labels), Provenance.Filtered(annotations))
    requires p in s.pass.members && p in s.pods && p in c.w.fates
    requires Found(s.pods[p].own) && s.pods[p].own.provenance.None? && Final(s.pods[p].own.status)
    ensures PodOnly(s, c.j.s, p) && c.j.s.pass == s.pass.(stmt := c.j.s.pass.stmt)
    ensures c.j.s.pods[p].own == s.pods[p].own
    ensures c.j.s.pass.stmt == Some(stmt) && (reply.ok ==> c.j.s.pods[p].attested == Some(stmt))
    ensures Attesting(c.w, c.j.s, labels, annotations, stmt.subjects)
    ensures Enabled(c.w, c.j.s, Write(p, ProvenanceKey, if reply.ok then Attached else Error))
  {
    hide Good;
    MembersExist(c);
    assert Active(c.w, c.j.s, p);
    SubjectsFrame(c.w, s.pods, c.j.s.pods, s.pass.members);
  }
}
