/** What one undisturbed visit makes of a pod, as a function of the pod alone. */
module PassSpec {
  import opened Metadata
  import opened Nodes
  import opened Environment
  import opened Protocol
  import opened Lists
  import opened Cluster
  import SbomOci

  ghost predicate SignVerdict(w: World, cfg: Config, ref: string) {
    !cfg.signer.UnknownSigner? && w.net(SignOp, ref, 0).ok
  }

  ghost function SbomValue(w: World, cfg: Config, ref: string): Value {
    if !cfg.signer.UnknownSigner? && SbomOci.SbomVerdict(w, ref) then Attached else Error
  }

  /** Whether a visit works on the pod at all. */
  predicate Works(f: Fate, succeeded: bool, o: Own) {
    !Final(o.status) && !f.errored && succeeded
  }

  function WithArtifact(w: World, f: Fate, o: Own): Own {
    if o.artifacts.Some? then o else o.(artifacts := Some(Discover(w.parse, f.params)))
  }

  ghost function WithSignature(w: World, cfg: Config, o: Own): Own
    requires o.artifacts.Some?
  {
    if !Found(o) then o.(signed := Some(Skipped))
    else if o.signed.Some? then o
    else o.(signed := Some(if SignVerdict(w, cfg, ValueText(o.artifacts.value)) then Completed else Error))
  }

  ghost function WithSbom(w: World, cfg: Config, o: Own): Own
    requires o.artifacts.Some?
  {
    if !cfg.sbomGeneration then o
    else if !Found(o) then o.(sbom := Some(Skipped))
    else if o.sbom.Some? then o
    else o.(sbom := Some(SbomValue(w, cfg, ValueText(o.artifacts.value))))
  }

  function FinalStatus(o: Own): Value {
    if !Found(o) then Skipped else if o.signed == Some(Completed) then Completed else Error
  }

  ghost predicate AttestVerdict(w: World, cfg: Config, ref: string) {
    !cfg.signer.UnknownSigner? && w.net(AttestOp, ref, 0).ok
  }

  /** What the provenance step adds. */
  ghost function WithProvenance(w: World, cfg: Config, o: Own): Own {
    if o.provenance.Some? then o
    else if !Found(o) then o.(provenance := Some(Skipped))
    else o.(provenance := Some(if AttestVerdict(w, cfg, ValueText(o.artifacts.value)) then Attached else Error))
  }

  /** The annotations a visit leaves behind when nothing fails. */
  ghost function Settle(w: World, cfg: Config, f: Fate, succeeded: bool, o: Own): Own {
    if Final(o.status) then o
    else if !Works(f, succeeded, o) then o.(status := Some(Skipped))
    else
      var done := WithSbom(w, cfg, WithSignature(w, cfg, WithArtifact(w, f, o.(status := Some(InProgress)))));
      done.(status := Some(FinalStatus(done)))
  }

  /** The references a visit asks the signer to sign. */
  function ToSign(w: World, f: Fate, succeeded: bool, o: Own): seq<string> {
    var o1 := WithArtifact(w, f, o);
    if Works(f, succeeded, o) && Found(o1) && o1.signed.None? then [ValueText(o1.artifacts.value)] else []
  }

  /** When the SBOM value is Attached, request by request: with a known signer type, when the manifest is had and
      every image to be scanned has its scan and its attestation; for a manifest list these are the listed images
      under the image's repository, and otherwise the image itself. */
  lemma SbomValueExactly(w: World, cfg: Config, ref: string)
    ensures SbomValue(w, cfg, ref) in {Attached, Error}
    ensures SbomValue(w, cfg, ref) == Attached ==>
              cfg.signer in {SecretSigner, KmsSigner, FulcioSigner} && w.net(ManifestOp, ref, 0).ok
    ensures cfg.signer in {SecretSigner, KmsSigner, FulcioSigner} && w.net(ManifestOp, ref, 0).ok ==>
              match w.manifest(ref)
              case MalformedManifest => SbomValue(w, cfg, ref) == Error
              case Manifest(mediaType, children) =>
                SbomValue(w, cfg, ref) == Attached
                <==> if mediaType == DockerManifestList
                     then children == []
                          || (w.parse(ref).Some? && forall i :: 0 <= i < |children| ==>
                                var image := w.parse(ref).value.repo + "@" + children[i];
                                w.net(SyftOp, image, 0).ok && w.net(AttestSbomOp, image, 0).ok)
                     else w.net(SyftOp, ref, 0).ok && w.net(AttestSbomOp, ref, 0).ok
  {
    if w.manifest(ref).Manifest? {
      w.TargetsAreChildren(ref);
      var children := w.manifest(ref).children;
      if IsMultiPlatform(w.manifest(ref)) && w.parse(ref).Some? && SbomOci.SbomVerdict(w, ref) {
        forall i | 0 <= i < |children|
          ensures SbomOci.TargetVerdict(w, w.parse(ref).value.repo + "@" + children[i])
        {
          assert w.SbomTargets(ref)[i] in w.SbomTargets(ref);
        }
      }
    }
  }

  /** What one undisturbed visit makes of a pod it finds untouched. */
  lemma SettleTable(w: World, cfg: Config, f: Fate, succeeded: bool)
    ensures f.errored || !succeeded ==>
              Settle(w, cfg, f, succeeded, BLANK) == Own(Some(Skipped), None, None, None, None)
              && ToSign(w, f, succeeded, BLANK) == []
    ensures !f.errored && succeeded && Discover(w.parse, f.params) == NoArtifacts ==>
              && Settle(w, cfg, f, succeeded, BLANK)
                 == Own(Some(Skipped), Some(NoArtifacts), Some(Skipped),
                        if cfg.sbomGeneration then Some(Skipped) else None, None)
              && ToSign(w, f, succeeded, BLANK) == []
    ensures !f.errored && succeeded && Discover(w.parse, f.params) != NoArtifacts ==>
              var ref := ValueText(Discover(w.parse, f.params));
              var ok := cfg.signer in {SecretSigner, KmsSigner, FulcioSigner} && w.net(SignOp, ref, 0).ok;
              && Settle(w, cfg, f, succeeded, BLANK)
                 == Own(Some(if ok then Completed else Error), Some(Discover(w.parse, f.params)),
                        Some(if ok then Completed else Error),
                        if cfg.sbomGeneration then Some(SbomValue(w, cfg, ref)) else None, None)
              && ToSign(w, f, succeeded, BLANK) == [ref]
  {
    hide SbomValue, Discover;
  }

  /** A visit picks up where an earlier one was cut: a signing result on record is kept and decides the status,
      and nothing is signed again. */
  lemma SettleRest(w: World, cfg: Config, f: Fate, o: Own)
    requires o.status == Some(InProgress) && !f.errored && Found(o) && o.signed in {Some(Completed), Some(Error)}
    ensures Settle(w, cfg, f, true, o)
         == o.(status := o.signed,
               sbom := if cfg.sbomGeneration && o.sbom.None?
                       then Some(SbomValue(w, cfg, ValueText(o.artifacts.value))) else o.sbom)
    ensures ToSign(w, f, true, o) == []
  {
    hide SbomValue;
  }

  /** What the provenance step makes of a pod that has no provenance value. */
  lemma ProvenanceTable(w: World, cfg: Config, o: Own)
    requires o.provenance.None?
    ensures o.artifacts in {None, Some(NoArtifacts)} ==> WithProvenance(w, cfg, o) == o.(provenance := Some(Skipped))
    ensures o.artifacts !in {None, Some(NoArtifacts)} ==>
              var ok := cfg.signer in {SecretSigner, KmsSigner, FulcioSigner}
                        && w.net(AttestOp, ValueText(o.artifacts.value), 0).ok;
              WithProvenance(w, cfg, o) == o.(provenance := Some(if ok then Attached else Error))
  {
  }

  lemma SettleWorks(w: World, cfg: Config, f: Fate, o: Own)
    requires Works(f, true, o)
    ensures WithArtifact(w, f, o.(status := Some(InProgress))).artifacts.Some?
    ensures var o1 := WithArtifact(w, f, o.(status := Some(InProgress)));
            var o2 := WithSignature(w, cfg, o1);
            && o2.artifacts.Some?
            && Settle(w, cfg, f, true, o) == WithSbom(w, cfg, o2).(status := Some(FinalStatus(WithSbom(w, cfg, o2))))
            && (!cfg.sbomGeneration ==> WithSbom(w, cfg, o2) == o2)
            && ToSign(w, f, true, o1) == ToSign(w, f, true, o)
  {
  }

  lemma SettledStays(w: World, cfg: Config, f: Fate, succeeded: bool, o: Own)
    requires Final(o.status)
    ensures Settle(w, cfg, f, succeeded, o) == o && ToSign(w, f, succeeded, o) == []
  {
  }

  // ---------- the whole snapshot ----------

  /** A pod node of the snapshot. */
  datatype Entry = Entry(name: string, display: string, phase: Phase)

  /** What validation looks at. */
  datatype Flag = Flag(reconciled: bool, found: bool, signed: bool, display: string)
  {
    function Problem(): Option<Failure> {
      if !reconciled then Some(NotReconciled)
      else if found && !signed then Some(SigningFailed(display))
      else None
    }
  }

  /** All pods have been visited, and validation has come to a verdict. */
  predicate Judged(err: Option<Failure>) {
    err.None? || err.value == NotReconciled || err.value.SigningFailed?
  }

  /** Validation reports the first problem, if there is one. */
  ghost predicate IsVerdict(fs: seq<Flag>, err: Option<Failure>) {
    match err
    case None => forall i :: 0 <= i < |fs| ==> fs[i].Problem().None?
    case Some(_) =>
      exists k :: 0 <= k < |fs| && fs[k].Problem() == err && forall i :: 0 <= i < k ==> fs[i].Problem().None?
  }

  /** The pods as their visits find them, and the environment, decide on everything. */
  datatype Setting = Setting(w: World, cfg: Config, pods: map<string, PodRec>)
  {
    predicate Visited(e: Entry) {
      IsTerminal(e.phase) && e.name in pods && e.name in w.fates
    }

    /** The annotations of the entry's pod after the pass. */
    ghost function After(e: Entry): Own
      requires Visited(e)
    {
      Settle(w, cfg, w.fates[e.name], pods[e.name].succeeded, pods[e.name].own)
    }

    function Signs(e: Entry): seq<string> {
      if Visited(e) then ToSign(w, w.fates[e.name], pods[e.name].succeeded, pods[e.name].own) else []
    }

    ghost function FlagOf(e: Entry): Flag {
      if IsSkippedOrOmitted(e.phase) then Flag(true, false, false, e.display)
      else if !Visited(e) then Flag(false, false, false, e.display)
      else Flag(true, Found(After(e)), Final(pods[e.name].own.status) || After(e).signed == Some(Completed), e.display)
    }

    ghost function Flags(es: seq<Entry>): seq<Flag> {
      seq(|es|, i requires 0 <= i < |es| => FlagOf(es[i]))
    }

    function AllSigns(es: seq<Entry>): seq<string> {
      Concat((e: Entry) => Signs(e), es)
    }
  }

  // ---------- undisturbed passes ----------

  /** Calls `lo` to `hi` succeeded, the registry is stable, every phase is known, and every pod of a finished
      node exists. */
  ghost predicate Undisturbed(w: World, lo: nat, hi: nat, pods: map<string, PodRec>, es: seq<Entry>) {
    && (forall i :: lo <= i < hi ==> w.tape(i).reply == Ok) && w.StableNet()
    && forall e :: e in es ==>
         && (IsSkippedOrOmitted(e.phase) || InKnownState(e.phase))
         && (IsTerminal(e.phase) ==> e.name in pods && e.name in w.fates)
  }

  /** How many of the entries have a finished node: only these are visited with calls. */
  function Finished(es: seq<Entry>): nat {
    if es == [] then 0 else Finished(es[..|es| - 1]) + if IsTerminal(es[|es| - 1].phase) then 1 else 0
  }

  ghost predicate FinishedPod(es: seq<Entry>, p: string) {
    exists e :: e in es && IsTerminal(e.phase) && e.name == p
  }

  lemma {:induction false} FinishedAtMost(es: seq<Entry>)
    ensures Finished(es) <= |es|
    ensures (exists e :: e in es && IsTerminal(e.phase)) ==> Finished(es) > 0
  {
    if es != [] {
      FinishedAtMost(es[..|es| - 1]);
      if e :| e in es && IsTerminal(e.phase) && e != es[|es| - 1] {
        assert e in es[..|es| - 1];
      }
    }
  }

  lemma FinishedAppend(es: seq<Entry>, i: nat)
    requires i < |es|
    ensures Finished(es[..i + 1]) == Finished(es[..i]) + if IsTerminal(es[i].phase) then 1 else 0
  {
    assert es[..i + 1][..i] == es[..i];
  }

  // ---------- what a pass finds and what it leaves alone ----------

  function SeenAs(pods: map<string, PodRec>, p: string, seen: bool): map<string, PodRec> {
    if p in pods then pods[p := pods[p].(succeeded := seen)] else pods
  }

  /** The pods as found, with one more entry visited: only a finished node's pod is looked at. */
  function AfterVisit(found: map<string, PodRec>, e: Entry, seen: bool): map<string, PodRec> {
    if IsTerminal(e.phase) then SeenAs(found, e.name, seen) else found
  }

  /** No pod has ceased to be Succeeded. */
  ghost predicate StillSucceeded(pods: map<string, PodRec>, pods': map<string, PodRec>) {
    pods'.Keys == pods.Keys && forall p :: p in pods && pods[p].succeeded ==> pods'[p].succeeded
  }

  lemma StillSucceededThrough(a: map<string, PodRec>, b: map<string, PodRec>, c: map<string, PodRec>)
    requires StillSucceeded(a, b) && StillSucceeded(b, c)
    ensures StillSucceeded(a, c)
  {
  }

  /** The call that finds entry `i`, when the visits begin with call `lo`: an earlier visit takes up to 31. */
  predicate VisitCall(lo: nat, es: seq<Entry>, i: nat, k: nat)
    requires i < |es|
  {
    lo + Finished(es[..i]) <= k <= lo + 31 * Finished(es[..i])
  }

  /** The pods as their visits find them: as before, but for those that have succeeded by then. */
  ghost predicate FoundBy(w: World, lo: nat, pods: map<string, PodRec>, found: map<string, PodRec>, es: seq<Entry>) {
    && found.Keys == pods.Keys
    && (forall p :: p in pods ==> found[p] == pods[p].(succeeded := found[p].succeeded)
                                  && (pods[p].succeeded ==> found[p].succeeded)
                                  && (!FinishedPod(es, p) ==> found[p] == pods[p]))
    && (forall i :: 0 <= i < |es| && IsTerminal(es[i].phase) && es[i].name in pods ==>
          exists k :: VisitCall(lo, es, i, k)
                      && found[es[i].name].succeeded == (pods[es[i].name].succeeded || w.tape(k).succeeded))
  }

  /** Only pods of finished nodes have changed. */
  ghost predicate OthersKept(pods: map<string, PodRec>, pods': map<string, PodRec>, es: seq<Entry>) {
    pods'.Keys == pods.Keys && forall p :: p in pods && !FinishedPod(es, p) ==> pods'[p] == pods[p]
  }

  lemma FinishedPodAppend(es: seq<Entry>, i: nat, p: string)
    requires i < |es|
    ensures FinishedPod(es[..i + 1], p) <==> FinishedPod(es[..i], p) || (IsTerminal(es[i].phase) && es[i].name == p)
  {
    assert es[..i + 1] == es[..i] + [es[i]];
    if e :| e in es[..i] && IsTerminal(e.phase) && e.name == p {
      assert e in es[..i + 1];
    }
    assert es[..i + 1][i] == es[i];
  }

  ghost predicate DistinctNames(es: seq<Entry>) {
    forall i, j :: 0 <= i < j < |es| ==> es[i].name != es[j].name
  }

  lemma NotYetFinished(es: seq<Entry>, i: nat)
    requires i < |es| && DistinctNames(es)
    ensures !FinishedPod(es[..i], es[i].name)
  {
  }

  lemma NothingFound(w: World, lo: nat, pods: map<string, PodRec>)
    ensures FoundBy(w, lo, pods, pods, []) && StillSucceeded(pods, pods) && OthersKept(pods, pods, [])
  {
  }

  lemma OneMoreFound(w: World, lo: nat, mid: nat, pods: map<string, PodRec>, found: map<string, PodRec>,
                     es: seq<Entry>, i: nat, seen: bool)
    requires i < |es| && DistinctNames(es) && FoundBy(w, lo, pods, found, es[..i])
    requires lo + Finished(es[..i]) <= mid <= lo + 31 * Finished(es[..i])
    requires IsTerminal(es[i].phase) && es[i].name in pods ==>
               seen == (pods[es[i].name].succeeded || w.tape(mid).succeeded)
    ensures FoundBy(w, lo, pods, AfterVisit(found, es[i], seen), es[..i + 1])
    ensures AfterVisit(found, es[i], seen).Keys == SeenAs(found, es[i].name, seen).Keys == found.Keys == pods.Keys
  {
    hide Finished, FinishedPod;
    var found' := AfterVisit(found, es[i], seen);
    forall p | p in pods
      ensures found'[p] == pods[p].(succeeded := found'[p].succeeded) && (pods[p].succeeded ==> found'[p].succeeded)
      ensures !FinishedPod(es[..i + 1], p) ==> found'[p] == pods[p]
    {
      FinishedPodAppend(es, i, p);
    }
    var es' := es[..i + 1];
    forall j | 0 <= j < |es'| && IsTerminal(es'[j].phase) && es'[j].name in pods
      ensures exists k :: VisitCall(lo, es', j, k)
                          && found'[es'[j].name].succeeded == (pods[es'[j].name].succeeded || w.tape(k).succeeded)
    {
      assert es'[..j] == es[..j];
      if j == i {
        assert VisitCall(lo, es', j, mid);
      } else {
        assert es[..i][..j] == es[..j];
        var k :| VisitCall(lo, es[..i], j, k)
                 && found[es[j].name].succeeded == (pods[es[j].name].succeeded || w.tape(k).succeeded);
        assert VisitCall(lo, es', j, k);
      }
    }
  }

  lemma OneMoreKept(pods: map<string, PodRec>, pods1: map<string, PodRec>, pods2: map<string, PodRec>, es: seq<Entry>,
                    i: nat)
    requires i < |es| && OthersKept(pods, pods1, es[..i]) && OthersKept(pods1, pods2, [es[i]])
    ensures OthersKept(pods, pods2, es[..i + 1]) && pods2.Keys == pods.Keys
  {
    hide FinishedPod;
    forall p | p in pods && !FinishedPod(es[..i + 1], p)
      ensures pods2[p] == pods[p]
    {
      FinishedPodAppend(es, i, p);
      OneFinished(es[i], p);
    }
  }

  lemma OneFinished(e: Entry, p: string)
    ensures FinishedPod([e], p) <==> IsTerminal(e.phase) && e.name == p
  {
    assert [e][0] == e;
  }

  lemma NotVisitedYet(w: World, lo: nat, pods: map<string, PodRec>, found: map<string, PodRec>,
                      pods1: map<string, PodRec>, es: seq<Entry>, i: nat)
    requires i < |es| && DistinctNames(es) && FoundBy(w, lo, pods, found, es[..i]) && OthersKept(pods, pods1, es[..i])
    ensures es[i].name in pods ==> found[es[i].name] == pods[es[i].name] == pods1[es[i].name]
  {
    hide FinishedPod;
    NotYetFinished(es, i);
  }

  lemma OneMoreSucceeded(found: map<string, PodRec>, pods1: map<string, PodRec>, pods2: map<string, PodRec>, e: Entry,
                         seen: bool)
    requires StillSucceeded(found, pods1) && OthersKept(pods1, pods2, [e])
    requires IsTerminal(e.phase) && e.name in pods1 && seen ==> pods2[e.name].succeeded
    ensures StillSucceeded(AfterVisit(found, e, seen), pods2)
  {
    hide FinishedPod;
    forall p
      ensures FinishedPod([e], p) <==> IsTerminal(e.phase) && e.name == p
    {
      OneFinished(e, p);
    }
  }

  /** The pods of the other entries stay as they are. */
  lemma OtherEntries(pods1: map<string, PodRec>, pods2: map<string, PodRec>, es: seq<Entry>, i: nat)
    requires i < |es| && DistinctNames(es) && OthersKept(pods1, pods2, [es[i]])
    ensures pods2.Keys == pods1.Keys
    ensures forall k :: 0 <= k < |es| && k != i && es[k].name in pods1 ==> pods2[es[k].name] == pods1[es[k].name]
  {
    hide FinishedPod;
    forall k | 0 <= k < |es| && k != i && es[k].name in pods1
      ensures pods2[es[k].name] == pods1[es[k].name]
    {
      OneFinished(es[i], es[k].name);
    }
  }

  lemma FinishedNone(es: seq<Entry>)
    ensures Finished(es[..0]) == 0 && es[..0] == []
  {
  }

  /** What a part of the entries accounts for, all of them do. */
  lemma {:induction false} PrefixBounds(pods: map<string, PodRec>, pods': map<string, PodRec>, es: seq<Entry>, n: nat)
    requires n <= |es| && OthersKept(pods, pods', es[..n])
    ensures OthersKept(pods, pods', es) && Finished(es[..n]) <= Finished(es)
    decreases |es| - n
  {
    hide FinishedPod;
    if n == |es| {
      assert es[..n] == es;
    } else {
      forall p
        ensures FinishedPod(es[..n], p) ==> FinishedPod(es[..n + 1], p)
      {
        FinishedPodAppend(es, n, p);
      }
      FinishedAppend(es, n);
      PrefixBounds(pods, pods', es, n + 1);
    }
  }

  lemma KeptThrough(pods: map<string, PodRec>, pods1: map<string, PodRec>, pods2: map<string, PodRec>, es: seq<Entry>)
    requires OthersKept(pods, pods1, es) && OthersKept(pods1, pods2, es)
    ensures OthersKept(pods, pods2, es)
  {
  }

  // ---------- visit by visit ----------

  /** The pods of finished nodes are as one undisturbed visit each leaves them. */
  ghost predicate AsSettled(setting: Setting, s: State, es: seq<Entry>) {
    forall e :: e in es && IsTerminal(e.phase) ==>
      setting.Visited(e) && e.name in s.pods && s.pods[e.name].own == setting.After(e)
  }

  /** The pass has the statuses of these pods on record as its starting point. */
  ghost predicate AsBegun(pass: Pass, pods: map<string, PodRec>, es: seq<Entry>) {
    forall e :: e in es && !IsSkippedOrOmitted(e.phase) && e.name in pods ==>
      e.name in pass.entry && pass.entry[e.name] == pods[e.name].own.status
  }

  lemma AsBegunFound(pass: Pass, w: World, lo: nat, pods: map<string, PodRec>, found: map<string, PodRec>,
                     es: seq<Entry>)
    requires AsBegun(pass, pods, es) && FoundBy(w, lo, pods, found, es)
    ensures AsBegun(pass, found, es)
  {
  }

  /** While nothing disturbs the pass, the pods visited are as settled and their signatures asked for. */
  ghost predicate Progress(setting: Setting, s: State, lo: nat, hi: nat, signed0: seq<string>, signed: seq<string>,
                           es: seq<Entry>) {
    Undisturbed(setting.w, lo, hi, setting.pods, es) ==>
      AsSettled(setting, s, es) && signed == signed0 + setting.AllSigns(es)
  }

  lemma NothingSettled(setting: Setting, s: State, lo: nat, signed: seq<string>)
    ensures Progress(setting, s, lo, lo, signed, signed, [])
  {
  }

  lemma SettledSoFar(setting: Setting, s: State, lo: nat, hi: nat, signed0: seq<string>, signed: seq<string>,
                     es: seq<Entry>)
    requires Progress(setting, s, lo, hi, signed0, signed, es)
    ensures Undisturbed(setting.w, lo, hi, setting.pods, es) ==>
              AsSettled(setting, s, es) && signed == signed0 + setting.AllSigns(es)
  {
  }

  lemma UndisturbedPart(w: World, lo: nat, hi: nat, lo': nat, hi': nat,
                        pods: map<string, PodRec>, pods': map<string, PodRec>, es: seq<Entry>, es': seq<Entry>)
    requires Undisturbed(w, lo, hi, pods, es) && lo <= lo' && hi' <= hi && pods'.Keys == pods.Keys
    requires forall e :: e in es' ==> e in es
    ensures Undisturbed(w, lo', hi', pods', es')
  {
  }

  lemma PartsOf(es: seq<Entry>, i: nat)
    requires i < |es|
    ensures forall e :: e in es[..i] ==> e in es[..i + 1]
    ensures forall e :: e in es[..i + 1] ==> e in es
    ensures forall e :: e in [es[i]] ==> e in es[..i + 1]
    ensures forall e :: e in es[..i + 1] ==> e == es[i] || e in es[..i]
  {
    assert es[..i + 1] == es[..i] + [es[i]];
    assert [es[i]] + es[i + 1..] == es[i..];
  }

  /** One more visit, and one more pod is as its own undisturbed visit leaves it. */
  lemma OneMoreSettled(setting: Setting, seen: bool, s1: State, s2: State, lo: nat, mid: nat, hi: nat,
                       signed0: seq<string>, signed1: seq<string>, signed2: seq<string>,
                       es: seq<Entry>, i: nat, err: Option<Failure>)
    requires i < |es| && DistinctNames(es) && lo <= mid <= hi
    requires s1.pods.Keys == setting.pods.Keys
    requires OthersKept(s1.pods, s2.pods, [es[i]])
    requires es[i].name in s1.pods ==> s1.pods[es[i].name].own == setting.pods[es[i].name].own
    requires Progress(setting, s1, lo, mid, signed0, signed1, es[..i])
    requires Undisturbed(setting.w, mid, hi, s1.pods, [es[i]]) ==>
               && err.None? && AsSettled(setting.(pods := SeenAs(s1.pods, es[i].name, seen)), s2, [es[i]])
               && signed2 == signed1 + setting.(pods := SeenAs(s1.pods, es[i].name, seen)).Signs(es[i])
    ensures var setting' := setting.(pods := AfterVisit(setting.pods, es[i], seen));
            && Progress(setting', s2, lo, hi, signed0, signed2, es[..i + 1])
            && (err.Some? ==> !Undisturbed(setting.w, lo, hi, setting'.pods, es))
  {
    hide Settle, ToSign, Undisturbed, AsSettled, Setting.Signs, Setting.AllSigns, OthersKept;
    var setting' := setting.(pods := AfterVisit(setting.pods, es[i], seen));
    PartsOf(es, i);
    if Undisturbed(setting.w, lo, hi, setting'.pods, es) {
      UndisturbedPart(setting.w, lo, hi, lo, hi, setting'.pods, setting'.pods, es, es[..i + 1]);
    }
    if Undisturbed(setting.w, lo, hi, setting'.pods, es[..i + 1]) {
      UndisturbedPart(setting.w, lo, hi, lo, mid, setting'.pods, setting.pods, es[..i + 1], es[..i]);
      UndisturbedPart(setting.w, lo, hi, mid, hi, setting'.pods, s1.pods, es[..i + 1], [es[i]]);
      SettledAppend(setting, setting', seen, s1, s2, es, i);
      SignsAppend(setting, setting', seen, s1, es, i);
    }
  }

  lemma SettledAppend(setting: Setting, setting': Setting, seen: bool, s1: State, s2: State, es: seq<Entry>, i: nat)
    requires i < |es| && DistinctNames(es)
    requires s1.pods.Keys == setting.pods.Keys && OthersKept(s1.pods, s2.pods, [es[i]])
    requires es[i].name in s1.pods ==> s1.pods[es[i].name].own == setting.pods[es[i].name].own
    requires setting' == setting.(pods := AfterVisit(setting.pods, es[i], seen))
    requires AsSettled(setting, s1, es[..i])
    requires AsSettled(setting.(pods := SeenAs(s1.pods, es[i].name, seen)), s2, [es[i]])
    ensures AsSettled(setting', s2, es[..i + 1])
  {
    hide Settle, FinishedPod;
    forall e | e in es[..i + 1] && IsTerminal(e.phase)
      ensures setting'.Visited(e) && e.name in s2.pods && s2.pods[e.name].own == setting'.After(e)
    {
      if e == es[i] {
        assert e in [es[i]];
      } else {
        var k :| 0 <= k < i + 1 && es[..i + 1][k] == e;
        assert es[..i][k] == e && e.name != es[i].name;
        OneFinished(es[i], e.name);
      }
    }
  }

  lemma SignsAppend(setting: Setting, setting': Setting, seen: bool, s1: State, es: seq<Entry>, i: nat)
    requires i < |es| && DistinctNames(es) && s1.pods.Keys == setting.pods.Keys
    requires es[i].name in s1.pods ==> s1.pods[es[i].name].own == setting.pods[es[i].name].own
    requires setting' == setting.(pods := AfterVisit(setting.pods, es[i], seen))
    ensures setting'.AllSigns(es[..i + 1])
         == setting.AllSigns(es[..i]) + setting.(pods := SeenAs(s1.pods, es[i].name, seen)).Signs(es[i])
  {
    hide ToSign;
    assert es[..i + 1] == es[..i] + [es[i]];
    ConcatAppend((e: Entry) => setting'.Signs(e), es[..i], es[i]);
    forall e | e in es[..i]
      ensures setting'.Signs(e) == setting.Signs(e)
    {
      var k :| 0 <= k < i && es[..i][k] == e;
      assert es[k].name != es[i].name;
    }
    ConcatAgree((e: Entry) => setting'.Signs(e), (e: Entry) => setting.Signs(e), es[..i]);
  }
}
