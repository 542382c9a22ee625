/** What every run of the protocol keeps: for all environments, all faults and all places to stop. */
module Theorems {
  import opened Metadata
  import opened Nodes
  import opened Environment
  import opened Protocol
  import opened Lists

  function One(b: bool): nat {
    if b then 1 else 0
  }

  /** The annotations of one pod fit together, and fit what was signed. */
  ghost predicate PodInv(w: World, r: PodRec, p: string, passNo: nat)
    requires p in w.fates
  {
    var o := r.own;
    var early := o.status == Some(Skipped) && o.artifacts.None?;
    && (o.status.None? ==> o == BLANK)
    && (o.status.Some? ==> o.status.value in {InProgress, Completed, Error, Skipped})
    && (early ==> w.fates[p].errored || r.unfinished)
    && (o.status.Some? && !early ==> r.succeeded && !w.fates[p].errored)
    && (o.artifacts.Some? ==> o.artifacts.value == w.Artifact(p))
    && (o.signed.Some? ==> o.artifacts.Some? && if Found(o) then o.signed.value in {Completed, Error}
        else o.signed.value == Skipped)
    && (o.sbom.Some? ==> o.signed.Some? && if Found(o) then o.sbom.value in {Attached, Error}
        else o.sbom.value == Skipped)
    && (o.status == Some(Completed) ==> Found(o) && o.signed == Some(Completed))
    && (o.status == Some(Error) ==> Found(o) && o.signed == Some(Error))
    && (o.status == Some(Skipped) && !early ==> o.artifacts == Some(NoArtifacts) && o.signed == Some(Skipped))
    && (o.provenance.Some? ==> Final(o.status) && if Found(o) then o.provenance.value in {Attached, Error}
        else o.provenance.value == Skipped)
    && (r.flight.Some? ==> r.flight.value.pass <= passNo && o.status == Some(InProgress) && Found(o) && o.signed.None?
                           && (r.flight.value.ok ==> r.published != {}))
    && r.published <= (if Found(o) then {ValueText(o.artifacts.value)} else {})
    && (o.signed == Some(Completed) ==> r.published == {ValueText(o.artifacts.value)})
    && (Found(o) && o.provenance.Some? ==> r.granted == Some(o.provenance == Some(Attached)))
    && (r.granted == Some(true) ==> r.attested.Some?)
    && (Found(o) && o.sbom == Some(Error) ==> r.unscanned)
    && (r.attested.Some? ==> Found(o) && SubjectOf(w.parse, ValueText(o.artifacts.value)) in r.attested.value.subjects)
  }

  /** The current pass agrees with the pods. */
  ghost predicate PassInv(w: World, s: State) {
    && (forall i, j :: 0 <= i < j < |s.pass.members| ==> s.pass.members[i] != s.pass.members[j])
    && (s.passNo == 0 ==> s.pass.members == [])
    && (forall p :: p in s.pass.members && p in s.pods ==> p in s.pass.entry)
    && (forall p :: p in s.pass.entry ==>
          p in s.pods && (Final(s.pass.entry[p]) ==> s.pods[p].own.status == s.pass.entry[p]))
    && (s.pass.validated ==> MayValidate(s))
    && (s.pass.failed ==> s.pass.validated && Caused(w, s.pass))
    && (s.pass.refused.Some? ==> s.pass.validated && Refusal(w, s.pass))
    && (s.pass.stmt.Some? ==>
          && s.pass.stmt.value.subjects == Subjects(w, s.pods, s.pass.members)
          && CleanMeta(s.pass.stmt.value.labels) && CleanMeta(s.pass.stmt.value.annotations))
    && (s.pass.stmt.Some? ==> s.pass.validated)
  }

  /** What a terminal label written by the controller stands for. */
  ghost predicate LabelInv(w: World, s: State) {
    TerminalLabel(s.wfStatus) && !TerminalLabel(w.initialLabel) ==> MayLabel(s, s.wfStatus.value)
  }

  ghost predicate SbomInv(w: World, s: State) {
    forall p :: p in s.pods && Found(s.pods[p].own) && s.pods[p].own.sbom == Some(Attached) ==>
                  forall t :: t in w.SbomTargets(ValueText(s.pods[p].own.artifacts.value)) ==> t in s.described
  }

  ghost predicate Inv(w: World, s: State) {
    && s.pods.Keys == w.fates.Keys
    && (forall p :: p in s.pods ==> PodInv(w, s.pods[p], p, s.passNo))
    && PassInv(w, s) && LabelInv(w, s) && SbomInv(w, s)
  }

  // ---------- one step ----------

  lemma WriteStep(w: World, s: State, p: string, k: Key, v: Value)
    requires w.Ok() && p in s.pods && p in w.fates
    requires PodInv(w, s.pods[p], p, s.passNo) && MayWrite(w, s, p, k, v)
    ensures PodInv(w, Written(s.pods[p], k, v), p, s.passNo)
  {
    DiscoverParses(w.parse, w.fates[p].params);
    match k
    case StatusKey =>
    case ArtifactsKey =>
    case SignedKey =>
    case SbomKey =>
    case ProvenanceKey =>
    case _ =>
  }

  lemma SignStep(w: World, s: State, p: string, ref: string, published: bool, ok: bool)
    requires w.Ok() && p in s.pods && p in w.fates && (ok ==> published)
    requires PodInv(w, s.pods[p], p, s.passNo) && MaySign(w, s, p, ref) && 0 < s.passNo
    ensures PodInv(w, SignedOnce(s.pods[p], s.passNo, ref, published, ok), p, s.passNo)
  {
  }

  lemma AttestStep(w: World, s: State, p: string, stmt: Statement, ok: bool)
    requires w.Ok() && p in s.pods && p in w.fates && p in s.pass.members
    requires PodInv(w, s.pods[p], p, s.passNo) && MayAttest(w, s, p, stmt)
    ensures PodInv(w, AttestedOnce(s.pods[p], stmt, ok), p, s.passNo)
  {
    DiscoverParses(w.parse, w.fates[p].params);
    OwnSubject(w, s, s.pass.members, p);
  }

  lemma PodStep(w: World, s: State, a: Action, p: string)
    requires w.Ok() && PassInv(w, s) && Enabled(w, s, a) && p in s.pods && p in w.fates
    requires PodInv(w, s.pods[p], p, s.passNo)
    ensures p in Effect(s, a).pods && PodInv(w, Effect(s, a).pods[p], p, Effect(s, a).passNo)
  {
    if a.Write? && a.pod == p {
      WriteStep(w, s, p, a.key, a.value);
    } else if a.Sign? && a.pod == p {
      SignStep(w, s, p, a.ref, a.published, a.ok);
    } else if a.Attest? && a.pod == p {
      AttestStep(w, s, p, a.stmt, a.ok);
    }
  }

  /** The artifact of a listed pod is among the subjects. */
  lemma OwnSubject(w: World, s: State, members: seq<string>, p: string)
    requires w.Ok() && p in s.pods && p in w.fates && p in members
    requires Found(s.pods[p].own) && s.pods[p].own.artifacts.value == w.Artifact(p)
    ensures IsDigestRef(w.parse, ValueText(s.pods[p].own.artifacts.value))
    ensures SubjectOf(w.parse, ValueText(s.pods[p].own.artifacts.value)) in Subjects(w, s.pods, members)
  {
    DiscoverParses(w.parse, w.fates[p].params);
    ConcatMember((q: string) => SubjectsAt(w, s.pods, q), members, p,
                 SubjectOf(w.parse, ValueText(s.pods[p].own.artifacts.value)));
  }

  /** Subjects depend on the artifacts alone. */
  lemma SubjectsFrame(w: World, a: map<string, PodRec>, b: map<string, PodRec>, members: seq<string>)
    requires forall p :: p in members ==> p in a && p in b && a[p].own.artifacts == b[p].own.artifacts
    ensures Subjects(w, a, members) == Subjects(w, b, members)
  {
    ConcatAgree((q: string) => SubjectsAt(w, a, q), (q: string) => SubjectsAt(w, b, q), members);
  }

  /** What one pod's action leaves alone. */
  lemma PassFrame(w: World, s: State, p: string, r: PodRec)
    requires PassInv(w, s) && p in s.pods && p in w.fates
    requires r.own.artifacts == s.pods[p].own.artifacts || s.pass.stmt.None?
    requires Final(s.pods[p].own.status) ==> r.own.status == s.pods[p].own.status
    ensures PassInv(w, SetPod(s, p, r))
  {
    var s' := SetPod(s, p, r);
    if s.pass.stmt.Some? {
      SubjectsFrame(w, s.pods, s'.pods, s.pass.members);
    }
  }

  lemma PassStep(w: World, s: State, a: Action)
    requires PassInv(w, s) && Enabled(w, s, a)
    requires forall p :: p in s.pods ==> p in w.fates
    ensures PassInv(w, Effect(s, a))
  {
    match a
    case Begin(_, _, _) =>
    case Succeed(p) => PassFrame(w, s, p, s.pods[p].(succeeded := true));
    case Observe(p) => PassFrame(w, s, p, s.pods[p].(unfinished := true));
    case Sign(p, ref, published, ok) => PassFrame(w, s, p, SignedOnce(s.pods[p], s.passNo, ref, published, ok));
    case AttestSbom(_, _, _, _) =>
    case SbomFail(p) => PassFrame(w, s, p, s.pods[p].(unscanned := true));
    case Write(p, k, v) => PassFrame(w, s, p, Written(s.pods[p], k, v));
    case Validate(_, _) =>
    case Generate(_, _, _) =>
    case Attest(p, stmt, published, ok) => AttestPass(w, s, p, stmt, published, ok);
    case ProvenanceFail(_) =>
    case Label(_) =>
  }

  lemma AttestPass(w: World, s: State, p: string, stmt: Statement, published: bool, ok: bool)
    requires PassInv(w, s) && p in s.pods && p in w.fates && MayAttest(w, s, p, stmt)
    ensures PassInv(w, Effect(s, Attest(p, stmt, published, ok)))
  {
    var s1 := s.(pass := s.pass.(stmt := Some(stmt)));
    assert PassInv(w, s1);
    PassFrame(w, s1, p, AttestedOnce(s1.pods[p], stmt, ok));
  }

  lemma LabelStep(w: World, s: State, a: Action)
    requires w.Ok() && Inv(w, s) && Enabled(w, s, a)
    ensures LabelInv(w, Effect(s, a))
  {
    hide MayWrite, MaySign, MayScan, MayAttest, MayValidate, Caused, GenerationRefused, PodInv, PassInv, SbomInv;
    if a.Succeed? && TerminalLabel(s.wfStatus) && !TerminalLabel(w.initialLabel) {
      var s' := Effect(s, a);
      if s.wfStatus.value == Error && !s.pass.validated {
        var p :| p in s.pass.members && p in s.pods && p in s.pass.entry
                 && s.pods[p].own.signed == Some(Error) && s.pods[p].own.status == Some(Error)
                 && !Final(s.pass.entry[p]);
        assert s'.pods[p].own == s.pods[p].own;
      }
    }
  }

  lemma SbomStep(w: World, s: State, a: Action)
    requires Inv(w, s) && Enabled(w, s, a)
    ensures SbomInv(w, Effect(s, a))
  {
    forall p | p in s.pods && Found(Effect(s, a).pods[p].own) && Effect(s, a).pods[p].own.sbom == Some(Attached)
      ensures forall t :: t in w.SbomTargets(ValueText(Effect(s, a).pods[p].own.artifacts.value)) ==>
                t in Effect(s, a).described
    {
      SbomOfPod(w, s, a, p);
    }
  }

  lemma SbomOfPod(w: World, s: State, a: Action, p: string)
    requires SbomInv(w, s) && Enabled(w, s, a) && p in s.pods && p in w.fates && PodInv(w, s.pods[p], p, s.passNo)
    requires Found(Effect(s, a).pods[p].own) && Effect(s, a).pods[p].own.sbom == Some(Attached)
    ensures forall t :: t in w.SbomTargets(ValueText(Effect(s, a).pods[p].own.artifacts.value)) ==>
              t in Effect(s, a).described
  {
    var o, o' := s.pods[p].own, Effect(s, a).pods[p].own;
    if o.sbom == Some(Attached) {
      if a.Write? && a.pod == p {
        assert a.key != ArtifactsKey;
      }
      assert o'.artifacts == o.artifacts;
    } else {
      assert a == Write(p, SbomKey, Attached);
    }
  }

  lemma InvStep(w: World, s: State, a: Action)
    requires w.Ok() && Inv(w, s) && Enabled(w, s, a)
    ensures Inv(w, Effect(s, a))
  {
    var s' := Effect(s, a);
    forall p | p in s'.pods
      ensures PodInv(w, s'.pods[p], p, s'.passNo)
    {
      PodStep(w, s, a, p);
    }
    PassStep(w, s, a);
    LabelStep(w, s, a);
    SbomStep(w, s, a);
  }

  /** Every state of every run is consistent: after every single write, whatever was interrupted before. */
  lemma {:induction false} Reachable(w: World, t: seq<Action>)
    requires w.Ok() && Legal(w, t)
    ensures Inv(w, Exec(w, t))
  {
    if t != [] {
      Reachable(w, t[..|t| - 1]);
      InvStep(w, Exec(w, t[..|t| - 1]), t[|t| - 1]);
    }
  }

  /** The same, of one pod and of the pass. */
  lemma ReachablePod(w: World, t: seq<Action>, p: string)
    requires w.Ok() && Legal(w, t) && (p in w.fates || p in Exec(w, t).pods)
    ensures p in Exec(w, t).pods && p in w.fates
    ensures PodInv(w, Exec(w, t).pods[p], p, Exec(w, t).passNo) && PassInv(w, Exec(w, t))
  {
    hide Legal, Exec, PodInv, PassInv, LabelInv, SbomInv, World.Ok;
    Reachable(w, t);
  }
}
