/** One reconciliation of a workflow, and any number of them one after the other. */
module Controller {
  import opened Metadata
  import opened Nodes
  import opened Environment
  import opened Protocol
  import opened Theorems
  import opened Cluster
  import opened StatusUpdater
  import opened PassSpec
  import opened PodStatus
  import opened WorkflowStatus
  import Provenance
  import Runs

  /** What the work queue is told; `Panic` is a nil dereference. */
  datatype Result = Done | Requeue | Fail(e: Failure) | Panic

  /** Where a reconciliation ended. */
  datatype Ending =
    | ConfigMissing
    | WorkflowGone
    | FetchFailed
    | AlreadyTerminal
    | NotEnabled
    | LabelFailed
    | NoPods
    | Waiting
    | SigningError
    | PodsFailed
    | Panicked
    | AttestError
    | Secured

  /** `dropped`: a label patch ended in conflict or not-found and the resulting requeue was discarded;
      `nodes`: the workflow's nodes as last read before the pods are visited, and `entries` the Pod nodes
      among them in the order of the visits; `verdict`: the error of the pods' reconciliation. */
  datatype Report = Report(
    result: Result,
    ending: Ending,
    dropped: bool,
    nodes: map<string, Node>,
    entries: seq<Entry>,
    verdict: Option<Failure>)

  const ENABLED := Text("true")

  /** Where a reconciliation ends that has Pod nodes to look at. */
  const LATE_ENDINGS: set<Ending> := {Waiting, SigningError, PodsFailed, Panicked, AttestError, Secured}

  /** The endings of a reconciliation that last patched the label. */
  const LABEL_ENDINGS: set<Ending> := {SigningError, AttestError, Secured}

  /** What a reconciliation has seen: how many calls had been made when it began to visit the pods, and when the
      last of the visits began, and the pods as their visits found them. */
  datatype View = View(start: nat, last: nat, found: map<string, PodRec>)

  /** The last of `n` calls ended in a conflict or not-found. */
  ghost predicate LastRefused(w: World, n: nat) {
    n > 0 && w.tape(n - 1).reply in {Conflict, NotFound}
  }

  /** What comes of a label patch that was the last of `n` calls: a conflict or not-found is not an error. */
  ghost function LabelResult(w: World, n: nat): Result {
    if n > 0 && w.tape(n - 1).reply in {Failed, LostReply} then Fail(ApiFailure) else Done
  }

  /** The pass has kept what it began with. */
  ghost predicate SameStart(s: State, s': State) {
    s'.pass.cfg == s.pass.cfg &&
    s'.pass.members == s.pass.members && s'.pass.entry == s.pass.entry && s'.passNo == s.passNo
  }

  /** A label that has become Error is owed to a pod that failed signing in this pass, on record, or to the
      provenance step. */
  ghost predicate ErrorReasons(s: State, s': State, rep: Report) {
    && (s'.wfStatus == Some(Error) && s.wfStatus != Some(Error) ==> rep.ending.SigningError? || rep.ending.AttestError?)
    && (rep.ending.SigningError? ==> rep.verdict.Some? && rep.verdict.value.SigningFailed? && FreshError(s'))
    && (rep.ending.AttestError? ==> rep.verdict.None? && s'.pass.failed)
  }

  /** The result by the ending of a reconciliation that had Pod nodes to look at: of `n` calls, the last decides
      about a terminal label; an error of the visits is handed on unless it is a conflict or not-found. */
  ghost predicate ResultOf(w: World, n: nat, rep: Report) {
    match rep.ending
    case Waiting => rep.result == Done
    case SigningError => rep.result == LabelResult(w, n)
    case AttestError => rep.result == LabelResult(w, n)
    case Secured => rep.result == LabelResult(w, n)
    case Panicked => rep.result == Panic
    case PodsFailed =>
      rep.verdict.Some?
      && rep.result == if rep.verdict.value == ConflictOrNotFound then Requeue else Fail(rep.verdict.value)
    case _ => false
  }

  predicate HasHollow(es: seq<Entry>) {
    exists i :: 0 <= i < |es| && IsSkippedOrOmitted(es[i].phase)
  }

  /** A conflict or not-found of the label patch is reported as a wish to requeue, without an error. */
  method UpdateWorkflowStatus(c: Server, wf: Object, v: Value) returns (requeue: bool, err: Option<Failure>)
    requires c.Valid() && wf.key == WorkflowObj
    requires c.j.s.wfStatus == Some(v) || Enabled(c.w, c.j.s, Label(v))
    modifies c, wf
    ensures c.Valid() && Continues(old(c.j), c.j) && c.requests == old(c.requests)
    ensures old(c.clock) < c.clock <= old(c.clock) + 6
    ensures c.Quiet(old(c.clock), c.clock) ==> c.clock <= old(c.clock) + 2
    ensures c.j.s == old(c.j.s) || c.j.s == old(c.j.s).(wfStatus := Some(v))
    ensures !requeue && err.None? ==> c.j.s.wfStatus == Some(v)
    ensures requeue <==> LastRefused(c.w, c.clock)
    ensures requeue ==> err.None? && c.j.s == old(c.j.s)
    ensures err == if c.w.tape(c.clock - 1).reply in {Failed, LostReply} then Some(ApiFailure) else None
    ensures requeue || err.Some? ==> !c.Quiet(old(c.clock), c.clock)
    ensures wf.nodes == old(wf.nodes) || c.Shown(wf.nodes, old(c.clock), c.clock)
  {
    hide Good, Enabled, PatchLaw, World.NodesOk, World.Ok;
    var e := PatchLabels(c, wf, StatusKey, v);
    if e == Some(ConflictOrNotFound) {
      return true, None;
    }
    requeue, err := false, e;
  }

  /** Enter a snapshot in the history. */
  ghost method StartPass(c: Server, cfg: Config, ps: seq<PodStatus>)
    requires c.Valid() && DistinctPods(ps) && !TerminalLabel(c.j.s.wfStatus)
    requires forall p :: p in ps ==> p.Untouched() && c.w.NodeOk(p.name, p.phase, p.params)
    modifies c`j
    ensures Begun(c, ps) && Within(old(c.j), c.j, 0, 0, 0)
    ensures c.j.s.pods == old(c.j.s.pods) && c.j.s.wfStatus == old(c.j.s.wfStatus) && c.j.s.sboms == old(c.j.s.sboms)
    ensures !c.j.s.pass.failed && c.j.s.pass.stmt.None? && c.j.s.pass.hollow == Hollow(ps)
    ensures c.j.s.pass.members == Members(ps) && c.j.s.pass.refused.None? && c.j.s.passNo == old(c.j.s.passNo) + 1
    ensures c.j.effects == old(c.j.effects) && c.j.s.pass.cfg == cfg
  {
    hide Good, World.NodeOk;
    MembersDistinct(ps);
    InvOf(c);
    c.Commit(Begin(cfg, Members(ps), Hollow(ps)));
    forall k | 0 <= k < |ps|
      ensures ps[k].Pristine(c) && c.w.NodeOk(ps[k].name, ps[k].phase, ps[k].params)
    {
      assert ps[k] in ps;
      MembersOf(ps, ps[k].name);
    }
  }

  /** The pods are as settled; a validated pass adds the provenance, to all pods unless it panics. */
  ghost predicate LeftSettled(setting: Setting, s: State, rep: Report) {
    forall e :: e in rep.entries && IsTerminal(e.phase) ==>
      && setting.Visited(e) && e.name in s.pods
      && s.pods[e.name].own == if rep.verdict.Some? then setting.After(e)
                               else if HasHollow(rep.entries)
                                   then setting.After(e).(provenance := s.pods[e.name].own.provenance)
                               else WithProvenance(setting.w, setting.cfg, setting.After(e))
  }

  /** What an undisturbed pass comes to: it is determined by the pods as their visits find them. A validated
      snapshot with a Pod node that has no pod always ends in a panic. */
  ghost predicate AsSpecified(setting: Setting, s: State, signed: seq<string>, rep: Report) {
    && signed == setting.AllSigns(rep.entries)
    && LeftSettled(setting, s, rep) && OthersKept(setting.pods, s.pods, rep.entries)
    && IsVerdict(setting.Flags(rep.entries), rep.verdict) && Concluded(s, rep)
  }

  /** The result and the label that follow from the verdict when nothing fails. */
  ghost predicate Concluded(s: State, rep: Report) {
    match rep.verdict
    case None =>
      if HasHollow(rep.entries) then rep.result == Panic && (rep.dropped || s.wfStatus == Some(InProgress))
      else rep.result == Done && rep.ending == Secured && s.wfStatus == Some(Completed)
    case Some(NotReconciled) =>
      rep.result == Done && rep.ending == Waiting && (rep.dropped || s.wfStatus == Some(InProgress))
    case Some(SigningFailed(_)) => rep.result == Done && rep.ending == SigningError && s.wfStatus == Some(Error)
    case Some(_) => false
  }

  /** Every entry's pod is as the provenance step leaves it. */
  ghost predicate AllAttestedAs(w: World, cfg: Config, s: State, s': State, es: seq<Entry>) {
    forall e :: e in es ==>
      e.name in s.pods && e.name in s'.pods && s'.pods[e.name].own == WithProvenance(w, cfg, s.pods[e.name].own)
  }

  lemma EntriesAttested(w: World, cfg: Config, s: State, s': State, ps: seq<PodStatus>)
    requires forall k :: 0 <= k < |ps| ==> AttestedAs(w, cfg, s, s', ps[k])
    ensures AllAttestedAs(w, cfg, s, s', Entries(ps))
  {
    hide WithProvenance;
    forall e | e in Entries(ps)
      ensures e.name in s.pods && e.name in s'.pods && s'.pods[e.name].own == WithProvenance(w, cfg, s.pods[e.name].own)
    {
      var k :| 0 <= k < |ps| && Entries(ps)[k] == e;
      assert AttestedAs(w, cfg, s, s', ps[k]);
    }
  }

  lemma SettledThenAttested(setting: Setting, s0: State, s1: State, s2: State, rep: Report, lo: nat, mid: nat, hi: nat)
    requires ProvenanceOnly(s1, s2) && lo <= mid <= hi
    requires rep.verdict.Some? ==> s2.pods == s1.pods
    requires rep.verdict.None? && !HasHollow(rep.entries) ==> AllAttestedAs(setting.w, setting.cfg, s1, s2, rep.entries)
    requires Undisturbed(setting.w, lo, mid, setting.pods, rep.entries) ==> AsSettled(setting, s1, rep.entries)
    requires Undisturbed(setting.w, lo, hi, setting.pods, rep.entries)
    requires FoundBy(setting.w, lo, s0.pods, setting.pods, rep.entries) && OthersKept(s0.pods, s2.pods, rep.entries)
    ensures Undisturbed(setting.w, lo, mid, setting.pods, rep.entries) && LeftSettled(setting, s2, rep)
    ensures OthersKept(setting.pods, s2.pods, rep.entries)
  {
    hide Settle, WithProvenance, FinishedPod;
  }

  lemma UndisturbedMeans(w: World, lo: nat, mid: nat, hi: nat, pods: map<string, PodRec>, es: seq<Entry>)
    requires Undisturbed(w, lo, hi, pods, es) && mid <= hi
    ensures w.StableNet() && forall i :: lo <= i < hi ==> w.tape(i).reply == Ok
    ensures Undisturbed(w, lo, mid, pods, es)
  {
  }

  lemma SameSucceeded(s: State, s': State)
    requires ProvenanceOnly(s, s')
    ensures StillSucceeded(s.pods, s'.pods)
  {
  }

  /** The second half of a reconciliation: the pods, the provenance, the final label. */
  method SecurePods(c: Server, cfg: Config, wf: Object, pods: WorkflowStatus, dropped: bool, nodes: map<string, Node>)
    returns (rep: Report, ghost found: map<string, PodRec>, ghost last: nat)
    requires c.j.s.pass.cfg == cfg
    requires Begun(c, pods.podsStatus) && wf.key == WorkflowObj && (dropped || c.j.s.wfStatus == Some(InProgress))
    requires !c.j.s.pass.failed && c.j.s.pass.stmt.None? && c.j.s.pass.hollow == Hollow(pods.podsStatus)
    requires c.j.s.pass.refused.None?
    modifies c, wf, pods.podsStatus
    ensures c.Valid() && Within(old(c.j), c.j, |rep.entries|, |rep.entries|, |rep.entries|)
    ensures c.clock <= old(c.clock) + 31 * Finished(rep.entries) + 6 * |rep.entries| + 6
    ensures old(c.clock) + (if Judged(rep.verdict) then Finished(rep.entries) else 0) <= c.clock
    ensures rep.nodes == nodes && rep.entries == old(Entries(pods.podsStatus))
    ensures SameStart(old(c.j.s), c.j.s)
    ensures rep.result == Requeue <==> rep.verdict == Some(ConflictOrNotFound)
    ensures rep.ending.PodsFailed? <==> !Judged(rep.verdict)
    ensures !Judged(rep.verdict) ==>
              BrokenOff(c.w, old(c.clock), c.clock, rep.entries, last, rep.verdict.value)
    ensures ResultOf(c.w, c.clock, rep)
    ensures rep.result == Panic <==> rep.ending.Panicked?
    ensures rep.ending in LATE_ENDINGS && (c.j.s.wfStatus == Some(Completed) ==> rep.ending.Secured?)
    ensures rep.result == Done && !TerminalLabel(c.j.s.wfStatus)
            <==> rep.ending.Waiting? || (rep.ending in LABEL_ENDINGS && LastRefused(c.w, c.clock))
    ensures rep.ending.Waiting? ==>
              exists e :: e in rep.entries && (e.phase.NodeRunning? || e.phase.NodePending?)
    ensures rep.ending.Waiting? <==> rep.verdict == Some(NotReconciled)
    ensures rep.dropped <==> dropped || (rep.ending in LABEL_ENDINGS && LastRefused(c.w, c.clock))
    ensures rep.result == Panic ==> HasHollow(rep.entries) && c.j.s.wfStatus == old(c.j.s.wfStatus)
    ensures c.j.s.wfStatus == Some(Completed) ==> !HasHollow(rep.entries)
    ensures ErrorReasons(old(c.j.s), c.j.s, rep)
    ensures rep.ending.AttestError? ==>
              Caused(c.w, c.j.s.pass) && old(c.clock) + Finished(rep.entries) <= c.j.s.pass.calls
                  && old(c.requests) <= c.j.s.pass.requests
    ensures old(c.requests) <= c.requests
    ensures found.Keys == old(c.j.s.pods).Keys && StillSucceeded(found, c.j.s.pods)
    ensures OthersKept(old(c.j.s.pods), c.j.s.pods, rep.entries)
    ensures Judged(rep.verdict) ==> FoundBy(c.w, old(c.clock), old(c.j.s.pods), found, rep.entries)
    ensures Undisturbed(c.w, old(c.clock), c.clock, found, rep.entries) && Provenance.GenerationOk(c.w) ==>
              AsSpecified(Setting(c.w, cfg, found), c.j.s, c.j.effects.signed[|old(c.j.effects.signed)|..], rep)
  {
    hide Server.Valid, Settle, DistinctNames, Entries, Timely, IsVerdict, World.NodeOk, World.Ok, Enabled,
         Undisturbed, AsSettled, LeftSettled, ProvenanceOnly, StillSucceeded, PodStatus.Validated, FreshError,
         Hollow, HasHollow, AllAttestedAs, World.StableNet, Provenance.GenerationOk, FoundBy, OthersKept, Finished,
         LastRefused, Within, Setting.AllSigns, Setting.Flags, Caused, AsSpecified, Concluded, BrokenOff, ResultOf,
         Judged, Members, DistinctPods;
    ghost var s0, j0, lo := c.j.s, c.j, c.clock;
    var es := Entries(pods.podsStatus);
    var verdict;
    verdict, found, last := pods.Reconcile(c, cfg);
    ghost var s1, j1, mid := c.j.s, c.j, c.clock;
    HollowEntries(pods.podsStatus);
    WaitingEntry(pods.podsStatus, verdict);
    rep := Conclude(c, cfg, wf, pods, Report(Done, PodsFailed, dropped, nodes, es, verdict));
    WithinThrough(j0, j1, c.j, (|es|, |es|, 0), (0, 0, |es|));
    SameSucceeded(s1, c.j.s);
    StillSucceededThrough(found, s1.pods, c.j.s.pods);
    KeptThrough(s0.pods, s1.pods, c.j.s.pods, es);
    if Undisturbed(c.w, lo, c.clock, found, es) && Provenance.GenerationOk(c.w) {
      UndisturbedMeans(c.w, lo, mid, c.clock, found, es);
      VerdictKinds(Setting(c.w, cfg, found), es, verdict);
      SettledThenAttested(Setting(c.w, cfg, found), s0, s1, c.j.s, rep, lo, mid, c.clock);
      Specified(Setting(c.w, cfg, found), c.j.s, c.j.effects.signed[|j0.effects.signed|..], rep);
    }
  }

  lemma Specified(setting: Setting, s: State, signed: seq<string>, rep: Report)
    requires signed == setting.AllSigns(rep.entries)
    requires LeftSettled(setting, s, rep) && OthersKept(setting.pods, s.pods, rep.entries)
    requires IsVerdict(setting.Flags(rep.entries), rep.verdict) && Concluded(s, rep)
    ensures AsSpecified(setting, s, signed, rep)
  {
    hide LeftSettled, OthersKept, IsVerdict, Concluded, Setting.AllSigns, Setting.Flags;
  }

  /** From the verdict to the end. */
  method Conclude(c: Server, cfg: Config, wf: Object, pods: WorkflowStatus, rep0: Report) returns (rep: Report)
    requires c.Valid() && DistinctPods(pods.podsStatus) && wf.key == WorkflowObj && !TerminalLabel(c.j.s.wfStatus)
    requires rep0.result == Done && rep0.ending.PodsFailed? && rep0.entries == Entries(pods.podsStatus)
    requires rep0.dropped || c.j.s.wfStatus == Some(InProgress)
    requires c.j.s.pass.members == Members(pods.podsStatus)
               && c.j.s.pass.hollow == HasHollow(rep0.entries) == Hollow(pods.podsStatus)
    requires !c.j.s.pass.failed && c.j.s.pass.cfg == cfg && c.j.s.pass.stmt.None? && c.j.s.pass.refused.None?
    requires c.j.s.pass.validated == rep0.verdict.None?
    requires rep0.verdict.None? ==> c.j.s.pass.calls == c.clock && c.j.s.pass.requests == c.requests
    requires rep0.verdict.None? ==> forall k :: 0 <= k < |pods.podsStatus| ==> pods.podsStatus[k].Validated(c)
    requires rep0.verdict.Some? && rep0.verdict.value.SigningFailed? ==> FreshError(c.j.s)
    modifies c, wf, set k | 0 <= k < |pods.podsStatus| && rep0.verdict.None? && pods.podsStatus[k].pod != null ::
                      pods.podsStatus[k].pod
    ensures c.Valid() && Within(old(c.j), c.j, 0, 0, |rep.entries|)
    ensures old(c.clock) <= c.clock <= old(c.clock) + 6 * |rep.entries| + 6 && old(c.requests) <= c.requests
    ensures ProvenanceOnly(old(c.j.s), c.j.s) && SameStart(old(c.j.s), c.j.s)
    ensures rep.verdict.Some? ==> c.j.s.pods == old(c.j.s.pods)
    ensures OthersKept(old(c.j.s.pods), c.j.s.pods, rep.entries)
    ensures rep == rep0.(result := rep.result, ending := rep.ending, dropped := rep.dropped)
    ensures rep.result == Requeue <==> rep.verdict == Some(ConflictOrNotFound)
    ensures rep.ending.PodsFailed? <==> !Judged(rep.verdict)
    ensures !Judged(rep.verdict) ==> c.clock == old(c.clock)
    ensures ResultOf(c.w, c.clock, rep)
    ensures rep.result == Panic <==> rep.ending.Panicked?
    ensures rep.ending in LATE_ENDINGS && (c.j.s.wfStatus == Some(Completed) ==> rep.ending.Secured?)
    ensures rep.ending.Waiting? <==> rep.verdict == Some(NotReconciled)
    ensures rep.result == Done && !TerminalLabel(c.j.s.wfStatus)
            <==> rep.ending.Waiting? || (rep.ending in LABEL_ENDINGS && LastRefused(c.w, c.clock))
    ensures rep.dropped <==> rep0.dropped || (rep.ending in LABEL_ENDINGS && LastRefused(c.w, c.clock))
    ensures rep.result == Panic ==> HasHollow(rep.entries) && c.j.s.wfStatus == old(c.j.s.wfStatus)
    ensures c.j.s.wfStatus == Some(Completed) ==> !HasHollow(rep.entries)
    ensures ErrorReasons(old(c.j.s), c.j.s, rep)
    ensures rep.ending.AttestError? ==>
              Caused(c.w, c.j.s.pass) && old(c.clock) <= c.j.s.pass.calls && old(c.requests) <= c.j.s.pass.requests
    ensures c.Quiet(old(c.clock), c.clock) && c.w.StableNet() && Provenance.GenerationOk(c.w) && Judged(rep.verdict) ==>
              && Concluded(c.j.s, rep)
              && (rep.verdict.None? && !HasHollow(rep.entries) ==>
                  AllAttestedAs(c.w, cfg, old(c.j.s), c.j.s, rep.entries))
  {
    hide Good, World.NodeOk, World.Ok, Enabled, ProvenanceOnly, PodStatus.Validated, FreshError, Hollow, HasHollow,
         AllAttestedAs, World.StableNet, Provenance.GenerationOk, OthersKept, LastRefused, Caused, Members,
         DistinctPods, AsBegun;
    if rep0.verdict.Some? {
      rep := Dispatch(c, wf, rep0, rep0.verdict.value);
      SamePods(old(c.j.s), old(c.j.s), c.j.s);
      SamePodsKept(c.j.s.pods, rep0.entries);
    } else {
      rep := AttestAndClose(c, cfg, wf, pods, rep0);
    }
  }

  lemma SamePodsKept(pods: map<string, PodRec>, es: seq<Entry>)
    ensures OthersKept(pods, pods, es)
  {
  }

  lemma HollowEntries(ps: seq<PodStatus>)
    ensures HasHollow(Entries(ps)) == Hollow(ps)
  {
  }

  lemma WaitingEntry(ps: seq<PodStatus>, verdict: Option<Failure>)
    requires verdict == Some(NotReconciled) ==> exists p :: p in ps && (p.phase.NodeRunning? || p.phase.NodePending?)
    ensures verdict == Some(NotReconciled) ==>
              exists e :: e in Entries(ps) && (e.phase.NodeRunning? || e.phase.NodePending?)
  {
    if verdict == Some(NotReconciled) {
      var p :| p in ps && (p.phase.NodeRunning? || p.phase.NodePending?);
      var i :| 0 <= i < |ps| && ps[i] == p;
      assert EntryOf(p) == Entries(ps)[i];
    }
  }

  /** The provenance step of a validated pass and the terminal label. */
  method AttestAndClose(c: Server, cfg: Config, wf: Object, pods: WorkflowStatus, rep0: Report) returns (rep: Report)
    requires c.Valid() && DistinctPods(pods.podsStatus) && wf.key == WorkflowObj && rep0.result == Done
               && !rep0.ending.Waiting?
    requires c.j.s.pass.members == Members(pods.podsStatus) && !TerminalLabel(c.j.s.wfStatus)
    requires c.j.s.pass.validated && !c.j.s.pass.failed && c.j.s.pass.stmt.None?
               && c.j.s.pass.hollow == Hollow(pods.podsStatus)
    requires c.j.s.pass.cfg == cfg && c.j.s.pass.calls == c.clock && c.j.s.pass.refused.None?
    requires forall k :: 0 <= k < |pods.podsStatus| ==> pods.podsStatus[k].Validated(c)
    modifies c, wf, set k | 0 <= k < |pods.podsStatus| && pods.podsStatus[k].pod != null :: pods.podsStatus[k].pod
    ensures c.Valid() && Within(old(c.j), c.j, 0, 0, |pods.podsStatus|)
    ensures old(c.clock) <= c.clock <= old(c.clock) + 6 * |pods.podsStatus| + 6 && old(c.requests) <= c.requests
    ensures ProvenanceOnly(old(c.j.s), c.j.s) && SameStart(old(c.j.s), c.j.s)
    ensures OthersKept(old(c.j.s.pods), c.j.s.pods, old(Entries(pods.podsStatus)))
    ensures rep == rep0.(result := rep.result, ending := rep.ending, dropped := rep.dropped)
    ensures rep.ending in LABEL_ENDINGS ==> rep.result == LabelResult(c.w, c.clock)
    ensures rep.result != Requeue && (rep.result == Panic <==> rep.ending.Panicked?)
    ensures rep.ending in {Panicked, AttestError, Secured}
              && (c.j.s.wfStatus == Some(Completed) ==> rep.ending.Secured?)
    ensures rep.result == Done && !TerminalLabel(c.j.s.wfStatus)
            <==> rep.ending in LABEL_ENDINGS && LastRefused(c.w, c.clock)
    ensures rep.dropped <==> rep0.dropped || (rep.ending in LABEL_ENDINGS && LastRefused(c.w, c.clock))
    ensures rep.result == Panic ==> Hollow(pods.podsStatus) && c.j.s.wfStatus == old(c.j.s.wfStatus)
    ensures c.j.s.wfStatus == Some(Completed) ==> !Hollow(pods.podsStatus)
    ensures rep.ending.AttestError? ==> c.j.s.pass.failed && Caused(c.w, c.j.s.pass)
    ensures c.j.s.wfStatus == Some(Error) ==> rep.ending.AttestError?
    ensures c.j.s.pass.calls == old(c.j.s.pass.calls) && c.j.s.pass.requests == old(c.j.s.pass.requests)
    ensures c.Quiet(old(c.clock), c.clock) && c.w.StableNet() && Provenance.GenerationOk(c.w) ==>
              if Hollow(pods.podsStatus) then rep.result == Panic
              else c.j.s.wfStatus == Some(Completed) && rep.ending.Secured? && rep.result == Done
                   && AllAttestedAs(c.w, cfg, old(c.j.s), c.j.s, old(Entries(pods.podsStatus)))
  {
    hide Good, World.NodeOk, World.Ok, Enabled, PodStatus.Validated, ProvenanceOnly, AllAttestedAs, WithProvenance,
         World.StableNet, Provenance.GenerationOk, Refusal, Caused, OthersKept, LastRefused;
    rep := rep0;
    var err, panicked := pods.AttestArtifacts(c, cfg, wf);
    if panicked {
      rep := rep.(result := Panic, ending := Panicked);
      return;
    }
    ghost var s1 := c.j.s;
    if err.Some? {
      FailureCaused(c.w, old(c.j.s.pass), s1.pass, old(c.clock), c.clock, err);
    }
    rep := Close(c, wf, rep, err);
    if forall k :: 0 <= k < |pods.podsStatus| ==> AttestedAs(c.w, cfg, old(c.j.s), s1, pods.podsStatus[k]) {
      EntriesAttested(c.w, cfg, old(c.j.s), c.j.s, pods.podsStatus);
    }
    SamePods(old(c.j.s), s1, c.j.s);
  }

  lemma FailureCaused(w: World, pass0: Pass, pass: Pass, lo: nat, hi: nat, err: Option<Failure>)
    requires StepFailed(w, pass0, pass, lo, hi, err) && err.Some? && pass.calls == lo
    ensures Caused(w, pass.(failedAt := hi)) && Caused(w, pass.(failed := true, failedAt := hi))
  {
  }

  lemma SamePods(s: State, s1: State, s2: State)
    requires (s1 == s || ProvenanceOnly(s, s1)) && s2.pods == s1.pods
    ensures ProvenanceOnly(s, s2)
  {
  }

  /** The terminal label, by the outcome of the provenance step. */
  method Close(c: Server, wf: Object, rep0: Report, err: Option<Failure>) returns (rep: Report)
    requires c.Valid() && wf.key == WorkflowObj && rep0.result == Done && !TerminalLabel(c.j.s.wfStatus)
    requires c.j.s.pass.validated && !c.j.s.pass.failed && (err.Some? ==> Caused(c.w, c.j.s.pass.(failedAt := c.clock)))
    requires err.None? ==> !c.j.s.pass.hollow
                           && forall p :: p in c.j.s.pass.members ==>
                               p in c.j.s.pods && c.j.s.pods[p].own.provenance.Some?
    modifies c, wf
    ensures c.Valid() && Within(old(c.j), c.j, 0, 0, 0) && c.j.s.pods == old(c.j.s.pods)
    ensures c.requests == old(c.requests) && SameStart(old(c.j.s), c.j.s)
    ensures c.j.s.pass == if err.Some? then old(c.j.s.pass).(failed := true, failedAt := old(c.clock))
              else old(c.j.s.pass)
    ensures old(c.clock) < c.clock <= old(c.clock) + 6
    ensures rep == rep0.(result := rep.result, ending := rep.ending, dropped := rep.dropped)
    ensures rep.ending == if err.Some? then AttestError else Secured
    ensures rep.result == Done && !TerminalLabel(c.j.s.wfStatus) <==> LastRefused(c.w, c.clock)
    ensures rep.dropped <==> rep0.dropped || LastRefused(c.w, c.clock)
    ensures rep.result == LabelResult(c.w, c.clock)
    ensures c.j.s.wfStatus == old(c.j.s.wfStatus) || c.j.s.wfStatus == Some(if err.Some? then Error else Completed)
    ensures c.Quiet(old(c.clock), c.clock) ==>
              c.j.s.wfStatus == Some(if err.Some? then Error else Completed) && rep.result == Done
  {
    hide Good, World.NodeOk, World.Ok, Enabled, Caused, LastRefused;
    rep := rep0;
    if err.Some? {
      FailGuard(c);
      c.Commit(ProvenanceFail(c.clock));
      ErrorGuard(c);
    } else {
      CompletedGuard(c);
    }
    var requeue, failure := UpdateWorkflowStatus(c, wf, if err.Some? then Error else Completed);
    rep := rep.(dropped := rep.dropped || requeue, ending := if err.Some? then AttestError else Secured);
    if failure.Some? {
      rep := rep.(result := Fail(failure.value));
    }
  }

  /** What becomes of an error of the pods' reconciliation. */
  method Dispatch(c: Server, wf: Object, rep0: Report, e: Failure) returns (rep: Report)
    requires c.Valid() && wf.key == WorkflowObj && rep0.result == Done && !TerminalLabel(c.j.s.wfStatus)
    requires e.SigningFailed? ==> FreshError(c.j.s) && !c.j.s.pass.validated
    modifies c, wf
    ensures c.Valid() && Continues(old(c.j), c.j) && c.requests == old(c.requests)
    ensures old(c.clock) <= c.clock <= old(c.clock) + 6 && (!e.SigningFailed? ==> c.clock == old(c.clock))
    ensures rep == rep0.(result := rep.result, ending := rep.ending, dropped := rep.dropped)
    ensures c.j.s == old(c.j.s).(wfStatus := c.j.s.wfStatus)
    ensures c.j.s.wfStatus == old(c.j.s.wfStatus) || (e.SigningFailed? && c.j.s.wfStatus == Some(Error))
    ensures rep.dropped <==> rep0.dropped || (e.SigningFailed? && LastRefused(c.w, c.clock))
    ensures rep.result == Done && !TerminalLabel(c.j.s.wfStatus)
            <==> e == NotReconciled || (e.SigningFailed? && LastRefused(c.w, c.clock))
    ensures rep.ending == if e == NotReconciled then Waiting else if e.SigningFailed? then SigningError else PodsFailed
    ensures match e
            case NotReconciled => rep.result == Done
            case SigningFailed(_) => rep.result == LabelResult(c.w, c.clock)
            case ConflictOrNotFound => rep.result == Requeue
            case _ => rep.result == Fail(e)
    ensures e.SigningFailed? ==> FreshError(c.j.s)
    ensures e.SigningFailed? && c.Quiet(old(c.clock), c.clock) ==>
              c.j.s.wfStatus == Some(Error) && rep.result == Done
  {
    hide Good, World.NodeOk, World.Ok, Enabled, FreshError, LastRefused;
    rep := rep0;
    match e {
      case NotReconciled =>
        rep := rep.(ending := Waiting);
      case SigningFailed(_) =>
        ErrorGuard(c);
        var requeue, failure := UpdateWorkflowStatus(c, wf, Error);
        rep := rep.(ending := SigningError, dropped := rep.dropped || requeue);
        StillFresh(old(c.j.s), c.j.s);
        if failure.Some? {
          rep := rep.(result := Fail(failure.value));
        }
      case ConflictOrNotFound =>
        rep := rep.(result := Requeue, ending := PodsFailed);
      case _ =>
        rep := rep.(result := Fail(e), ending := PodsFailed);
    }
  }

  lemma StillFresh(s: State, s': State)
    requires FreshError(s) && s'.pods == s.pods && s'.pass == s.pass
    ensures FreshError(s')
  {
  }

  lemma ErrorGuard(c: Server)
    requires c.Valid() && !TerminalLabel(c.j.s.wfStatus)
    requires (c.j.s.pass.validated && c.j.s.pass.failed) || (!c.j.s.pass.validated && FreshError(c.j.s))
    ensures Enabled(c.w, c.j.s, Label(Error))
  {
  }

  lemma FailGuard(c: Server)
    requires c.Valid() && !TerminalLabel(c.j.s.wfStatus) && c.j.s.pass.validated
    requires Caused(c.w, c.j.s.pass.(failedAt := c.clock))
    ensures Enabled(c.w, c.j.s, ProvenanceFail(c.clock))
  {
  }

  lemma CompletedGuard(c: Server)
    requires c.Valid() && !TerminalLabel(c.j.s.wfStatus)
    requires c.j.s.pass.validated && !c.j.s.pass.failed && !c.j.s.pass.hollow
    requires forall p :: p in c.j.s.pass.members ==> p in c.j.s.pods && c.j.s.pods[p].own.provenance.Some?
    ensures Enabled(c.w, c.j.s, Label(Completed))
  {
  }

  lemma VerdictKinds(setting: Setting, es: seq<Entry>, verdict: Option<Failure>)
    requires IsVerdict(setting.Flags(es), verdict)
    ensures Judged(verdict)
  {
    hide Settle;
  }

  // ---------- one reconciliation ----------

  /** The entries are the snapshot's Pod nodes, under the names of their pods, once each. */
  ghost predicate Snapshot(w: World, nodes: map<string, Node>, es: seq<Entry>) {
    && DistinctNames(es)
    && (forall id :: id in nodes && nodes[id].isPod ==> NodeEntry(w, id, nodes[id]) in es)
    && (forall e :: e in es ==> exists id :: id in nodes && nodes[id].isPod && e == NodeEntry(w, id, nodes[id]))
  }

  function NodeEntry(w: World, id: string, node: Node): Entry {
    Entry(FormatPodName(w.workflow, node.template, id), node.display, node.phase)
  }

  lemma SnapshotTaken(w: World, nodes: map<string, Node>, ps: seq<PodStatus>)
    requires DistinctPods(ps)
    requires forall id :: id in nodes && nodes[id].isPod ==>
               exists p :: p in ps && WorkflowStatus.Describes(p, w, id, nodes[id])
    requires forall p :: p in ps ==> exists id :: id in nodes && WorkflowStatus.Describes(p, w, id, nodes[id])
    ensures Snapshot(w, nodes, Entries(ps))
  {
    hide FormatPodName, World.NodeOk, WellFormedId;
    var es := Entries(ps);
    forall id | id in nodes && nodes[id].isPod
      ensures NodeEntry(w, id, nodes[id]) in es
    {
      var p :| p in ps && WorkflowStatus.Describes(p, w, id, nodes[id]);
      var i :| 0 <= i < |ps| && ps[i] == p;
      assert es[i] == NodeEntry(w, id, nodes[id]);
    }
    forall e | e in es
      ensures exists id :: id in nodes && nodes[id].isPod && e == NodeEntry(w, id, nodes[id])
    {
      var i :| 0 <= i < |es| && es[i] == e;
      assert ps[i] in ps;
      var id :| id in nodes && WorkflowStatus.Describes(ps[i], w, id, nodes[id]);
      assert e == NodeEntry(w, id, nodes[id]);
    }
  }

  /** The pass has every entry with a pod on its list. */
  ghost predicate Listed(members: seq<string>, es: seq<Entry>) {
    forall e :: e in es && !IsSkippedOrOmitted(e.phase) ==> e.name in members
  }

  lemma MembersListed(ps: seq<PodStatus>)
    ensures Listed(Members(ps), Entries(ps))
  {
    forall e | e in Entries(ps) && !IsSkippedOrOmitted(e.phase)
      ensures e.name in Members(ps)
    {
      var i :| 0 <= i < |ps| && Entries(ps)[i] == e;
      MembersOf(ps, ps[i].name);
    }
  }

  /** Snapshot the pods and secure them. */
  method Secure(c: Server, cfg: Config, wf: Object, dropped: bool)
    returns (rep: Report, ghost found: map<string, PodRec>, ghost last: nat)
    requires c.Valid() && wf.key == WorkflowObj && !TerminalLabel(c.j.s.wfStatus) && c.w.NodesOk(wf.nodes)
    requires dropped || c.j.s.wfStatus == Some(InProgress)
    modifies c, wf
    ensures c.Valid() && Within(old(c.j), c.j, |rep.entries|, |rep.entries|, |rep.entries|)
    ensures c.clock <= old(c.clock) + 31 * Finished(rep.entries) + 6 * |rep.entries| + 6
    ensures old(c.clock) + (if Judged(rep.verdict) then Finished(rep.entries) else 0) <= c.clock
    ensures rep.nodes == old(wf.nodes)
    ensures rep.ending.NoPods? <==> forall id :: id in rep.nodes ==> !rep.nodes[id].isPod
    ensures rep.ending.NoPods? <==> rep.entries == []
    ensures rep.ending.NoPods? ==> rep.result == Requeue && c.j == old(c.j) && rep.verdict.None?
    ensures rep.entries != [] ==> Snapshot(c.w, rep.nodes, rep.entries) && Listed(c.j.s.pass.members, rep.entries)
    ensures rep.entries != [] ==> AsBegun(c.j.s.pass, old(c.j.s.pods), rep.entries)
    ensures c.j.s.passNo == old(c.j.s.passNo) + if rep.entries == [] then 0 else 1
    ensures rep.entries != [] ==> (rep.ending.Waiting? <==> rep.verdict == Some(NotReconciled))
    ensures rep.entries != [] ==> c.j.s.pass.cfg == cfg && ResultOf(c.w, c.clock, rep)
    ensures rep.ending.PodsFailed? <==> rep.entries != [] && !Judged(rep.verdict)
    ensures rep.ending.PodsFailed? ==>
              BrokenOff(c.w, old(c.clock), c.clock, rep.entries, last, rep.verdict.value)
    ensures rep.result == Requeue <==> rep.ending.NoPods? || rep.verdict == Some(ConflictOrNotFound)
    ensures rep.result == Panic <==> rep.ending.Panicked?
    ensures rep.ending.NoPods? || rep.ending in LATE_ENDINGS
    ensures c.j.s.wfStatus == Some(Completed) ==> rep.ending.Secured?
    ensures rep.result == Done && !TerminalLabel(c.j.s.wfStatus)
            <==> rep.ending.Waiting? || (rep.ending in LABEL_ENDINGS && LastRefused(c.w, c.clock))
    ensures rep.ending.Waiting? ==>
              exists e :: e in rep.entries && (e.phase.NodeRunning? || e.phase.NodePending?)
    ensures rep.dropped <==> dropped || (rep.ending in LABEL_ENDINGS && LastRefused(c.w, c.clock))
    ensures rep.result == Panic ==> HasHollow(rep.entries) && c.j.s.wfStatus == old(c.j.s.wfStatus)
    ensures c.j.s.wfStatus == Some(Completed) ==> !HasHollow(rep.entries)
    ensures ErrorReasons(old(c.j.s), c.j.s, rep)
    ensures rep.ending.AttestError? ==>
              Caused(c.w, c.j.s.pass) && old(c.clock) + Finished(rep.entries) <= c.j.s.pass.calls
                  && old(c.requests) <= c.j.s.pass.requests
    ensures old(c.requests) <= c.requests
    ensures found.Keys == old(c.j.s.pods).Keys && StillSucceeded(found, c.j.s.pods)
    ensures OthersKept(old(c.j.s.pods), c.j.s.pods, rep.entries)
    ensures Judged(rep.verdict) ==> FoundBy(c.w, old(c.clock), old(c.j.s.pods), found, rep.entries)
    ensures rep.entries != [] && Undisturbed(c.w, old(c.clock), c.clock, found, rep.entries)
              && Provenance.GenerationOk(c.w) ==>
              AsSpecified(Setting(c.w, cfg, found), c.j.s, c.j.effects.signed[|old(c.j.effects.signed)|..], rep)
  {
    hide Good, World.NodeOk, World.NodesOk, World.Ok, Undisturbed, AsSpecified, HasHollow, Snapshot, Listed,
         FormatPodName, Within, IsSkippedOrOmitted, Begun, Hollow, FoundBy, OthersKept, StillSucceeded, Finished,
         LastRefused, Caused, AsBegun, BrokenOff, ResultOf;
    last := c.clock;
    var pods, none := Collect(c, cfg, wf);
    if none {
      rep, found := Report(Requeue, NoPods, dropped, wf.nodes, [], None), c.j.s.pods;
      WithinReflexive(c.j);
      NothingFound(c.w, c.clock, c.j.s.pods);
      FinishedAtMost([]);
    } else {
      ghost var j1 := c.j;
      rep, found, last := SecurePods(c, cfg, wf, pods, dropped, wf.nodes);
      WithinThrough(old(c.j), j1, c.j, (0, 0, 0), (|rep.entries|, |rep.entries|, |rep.entries|));
      StillAsBegun(j1.s.pass, c.j.s.pass, old(c.j.s.pods), rep.entries);
    }
  }

  lemma StillAsBegun(pass: Pass, pass': Pass, pods: map<string, PodRec>, es: seq<Entry>)
    requires AsBegun(pass, pods, es) && pass'.entry == pass.entry
    ensures AsBegun(pass', pods, es)
  {
  }

  /** Collect the Pod nodes of the workflow as fetched; the pass begins with them. */
  method Collect(c: Server, cfg: Config, wf: Object) returns (pods: WorkflowStatus, none: bool)
    requires c.Valid() && wf.key == WorkflowObj && !TerminalLabel(c.j.s.wfStatus) && c.w.NodesOk(wf.nodes)
    modifies c`j
    ensures none <==> forall id :: id in wf.nodes ==> !wf.nodes[id].isPod
    ensures none ==> c.j == old(c.j)
    ensures fresh(pods) && forall i :: 0 <= i < |pods.podsStatus| ==> fresh(pods.podsStatus[i])
    ensures !none ==>
              && Begun(c, pods.podsStatus) && Within(old(c.j), c.j, 0, 0, 0) && |pods.podsStatus| > 0
              && c.j.s.pods == old(c.j.s.pods) && c.j.s.wfStatus == old(c.j.s.wfStatus)
              && !c.j.s.pass.failed && c.j.s.pass.stmt.None? && c.j.s.pass.hollow == Hollow(pods.podsStatus)
              && c.j.s.pass.refused.None? && c.j.s.passNo == old(c.j.s.passNo) + 1 && c.j.s.pass.cfg == cfg
              && AsBegun(c.j.s.pass, old(c.j.s.pods), Entries(pods.podsStatus))
              && Snapshot(c.w, wf.nodes, Entries(pods.podsStatus))
                  && Listed(c.j.s.pass.members, Entries(pods.podsStatus))
  {
    hide Good, World.NodeOk, World.NodesOk, World.Ok, Snapshot, Listed, WorkflowStatus.Describes, Begun, Hollow,
         TerminalLabel, Members, DistinctPods, Within, Entries, WorkflowStatus.Describes, PodStatus.Pristine,
         DistinctNames, AsBegun, IsSkippedOrOmitted, Timely;
    pods := new WorkflowStatus();
    none := pods.GetPodInfo(wf, c.w);
    if !none {
      SnapshotTaken(c.w, wf.nodes, pods.podsStatus);
      MembersListed(pods.podsStatus);
      StartPass(c, cfg, pods.podsStatus);
      EntriesAsBegun(c, pods.podsStatus);
    }
  }

  /** One reconciliation; `data` is the content of the config map, if it has any. */
  method Reconcile(c: Server, data: Option<Config>) returns (rep: Report, ghost view: View)
    requires c.Valid()
    modifies c
    ensures c.Valid() && Within(old(c.j), c.j, |rep.entries|, |rep.entries|, |rep.entries|)
    // the number of calls
    ensures old(c.clock) < c.clock <= old(c.clock) + 31 * Finished(rep.entries) + 6 * |rep.entries| + 14
    ensures c.clock <= old(c.clock) + 37 * |rep.entries| + 14
    ensures rep.entries != [] ==> old(c.clock) + 3 <= view.start <= old(c.clock) + 8 && view.start <= c.clock
    ensures rep.entries != [] && Judged(rep.verdict) ==> view.start + Finished(rep.entries) <= c.clock
    ensures (rep.ending.NoPods? || rep.entries != []) && c.Quiet(old(c.clock), c.clock) ==>
              view.start <= old(c.clock) + 4
    // exactly when nothing more will happen although the workflow is not finished
    ensures !TerminalLabel(old(c.j.s.wfStatus)) ==>
              (rep.result == Done && !TerminalLabel(c.j.s.wfStatus)
               <==> || rep.ending in {WorkflowGone, NotEnabled, Waiting}
                    || (rep.ending in LABEL_ENDINGS && LastRefused(c.w, c.clock)))
    ensures rep.ending.WorkflowGone? ==> c.w.tape(c.clock - 1).reply == NotFound
    ensures rep.entries != [] ==> (rep.ending.Waiting? <==> rep.verdict == Some(NotReconciled))
    ensures rep.ending.NotEnabled? ==>
              && WorkflowObj in c.store && At(c.store[WorkflowObj].labels, EnableKey) != Some(ENABLED)
              && At(c.w.tape(c.clock - 1).labels, EnableKey) != Some(ENABLED)
    ensures rep.ending.Waiting? ==>
              exists e :: e in rep.entries && (e.phase.NodeRunning? || e.phase.NodePending?)
    // a dropped requeue is a label patch's: that of In-Progress before the visits, or the last one
    ensures rep.dropped <==> || ((rep.ending.NoPods? || rep.entries != []) && LastRefused(c.w, view.start))
                             || (rep.ending in LABEL_ENDINGS && LastRefused(c.w, c.clock))
    // early ends
    ensures rep.ending.AlreadyTerminal? ==> TerminalLabel(old(c.j.s.wfStatus)) && c.j.s == old(c.j.s)
    ensures TerminalLabel(old(c.j.s.wfStatus)) ==> c.j.s == old(c.j.s) && rep.entries == []
    ensures rep.ending.ConfigMissing? ==> data.None? || !c.Quiet(old(c.clock), c.clock)
    ensures rep.ending in {WorkflowGone, FetchFailed, LabelFailed} ==> !c.Quiet(old(c.clock), c.clock)
    ensures rep.entries == [] <==> rep.ending !in LATE_ENDINGS
    // when the work queue is asked to try again
    ensures rep.result == Requeue
            <==> || rep.ending.NoPods?
                 || (rep.ending.PodsFailed? && view.last + 1 < c.clock
                     && c.w.tape(c.clock - 1).reply in {Conflict, NotFound})
    // when an error of the visits is reported: it ended the visit that began after `last` calls
    ensures rep.ending.PodsFailed? ==>
              && (exists i: nat :: i < |rep.entries| && VisitCall(view.start, rep.entries, i, view.last))
              && view.last <= c.clock && rep.verdict.Some? && !Judged(rep.verdict)
              && (rep.result != Requeue ==> rep.result == Fail(rep.verdict.value))
    // the result of the other endings
    ensures rep.ending in {WorkflowGone, NotEnabled, AlreadyTerminal, Waiting} ==> rep.result == Done
    ensures rep.ending in {ConfigMissing, FetchFailed, LabelFailed} ==> rep.result == Fail(ApiFailure)
    ensures rep.ending in LABEL_ENDINGS ==>
              rep.result == if c.w.tape(c.clock - 1).reply in {Failed, LostReply} then Fail(ApiFailure) else Done
    // a panic
    ensures rep.result == Panic <==> rep.ending.Panicked?
    ensures rep.result == Panic ==> HasHollow(rep.entries)
    ensures c.j.s.wfStatus == Some(Completed) ==>
              old(c.j.s.wfStatus) == Some(Completed) || (rep.ending.Secured? && !HasHollow(rep.entries))
    // why the label is Error
    ensures ErrorReasons(old(c.j.s), c.j.s, rep)
    ensures rep.ending.AttestError? ==>
              && Caused(c.w, c.j.s.pass) && old(c.requests) <= c.j.s.pass.requests
              && view.start + Finished(rep.entries) <= c.j.s.pass.calls
    // the snapshot
    ensures rep.ending.NoPods? || rep.entries != [] ==> c.Shown(rep.nodes, old(c.clock), view.start)
    ensures rep.ending.NoPods? ==> forall id :: id in rep.nodes ==> !rep.nodes[id].isPod
    ensures c.Quiet(old(c.clock), c.clock) ==> !rep.dropped
    ensures rep.entries != [] ==>
              && Snapshot(c.w, rep.nodes, rep.entries) && Listed(c.j.s.pass.members, rep.entries)
              && AsBegun(c.j.s.pass, old(c.j.s.pods), rep.entries) && data == Some(c.j.s.pass.cfg)
    ensures c.j.s.passNo == old(c.j.s.passNo) + if rep.entries == [] then 0 else 1
    // the pods as found, and those left alone
    ensures view.found.Keys == old(c.j.s.pods).Keys && StillSucceeded(view.found, c.j.s.pods)
    ensures rep.entries != [] && Judged(rep.verdict) ==>
              FoundBy(c.w, view.start, old(c.j.s.pods), view.found, rep.entries)
    ensures OthersKept(old(c.j.s.pods), c.j.s.pods, rep.entries)
    // an undisturbed pass
    ensures rep.entries != [] && Undisturbed(c.w, old(c.clock), c.clock, view.found, rep.entries)
              && Provenance.GenerationOk(c.w) ==>
              data.Some? && AsSpecified(Setting(c.w, data.value, view.found), c.j.s,
                                        c.j.effects.signed[|old(c.j.effects.signed)|..], rep)
  {
    hide *;
    var wf := new Object.Named(WorkflowObj);
    var early, requeue := Prepare(c, data, wf);
    view := View(c.clock, c.clock, c.j.s.pods);
    if early.Some? {
      NothingFound(c.w, c.clock, c.j.s.pods);
      FinishedAtMost([]);
      rep := Report(early.value.0, early.value.1, false, map[], [], None);
      EarlyEnd(old(c.j.s), c.j.s, rep);
      return;
    }
    ghost var j1, requests := c.j, c.requests;
    ghost var found, last;
    rep, found, last := Secure(c, data.value, wf, requeue);
    view := View(view.start, last, found);
    FinishedAtMost(rep.entries);
    LateEnd(old(c.j.s), j1.s, c.j.s, rep);
    ResultMeans(c.w, view.start, last, c.clock, rep);
    QuietPart(c, old(c.clock), view.start, c.clock);
    QuietNotRefused(c, old(c.clock), view.start);
    QuietNotRefused(c, old(c.clock), c.clock);
    WithinThrough(old(c.j), j1, c.j, (0, 0, 0), (|rep.entries|, |rep.entries|, |rep.entries|));
    if Undisturbed(c.w, old(c.clock), c.clock, found, rep.entries) {
      UndisturbedPart(c.w, old(c.clock), c.clock, view.start, c.clock, found, found, rep.entries, rep.entries);
    }
  }

  /** The result of a reconciliation, in terms of the replies. */
  lemma ResultMeans(w: World, start: nat, last: nat, n: nat, rep: Report)
    requires rep.ending.NoPods? || ResultOf(w, n, rep)
    requires rep.ending.NoPods? ==> rep.result == Requeue
    requires rep.ending.PodsFailed? ==> BrokenOff(w, start, n, rep.entries, last, rep.verdict.value)
    requires rep.ending in LABEL_ENDINGS ==> 0 < n
    ensures rep.result == Requeue
            <==> || rep.ending.NoPods?
                 || (rep.ending.PodsFailed? && last + 1 < n && w.tape(n - 1).reply in {Conflict, NotFound})
    ensures rep.ending.PodsFailed? ==>
              && (exists i: nat :: i < |rep.entries| && VisitCall(start, rep.entries, i, last))
              && last <= n && rep.verdict.Some?
              && (rep.result != Requeue ==> rep.result == Fail(rep.verdict.value))
    ensures rep.ending.Waiting? ==> rep.result == Done
    ensures rep.ending in LABEL_ENDINGS ==>
              rep.result == if w.tape(n - 1).reply in {Failed, LostReply} then Fail(ApiFailure) else Done
  {
    hide Finished, VisitCall;
  }

  lemma EarlyEnd(s: State, s': State, rep: Report)
    requires rep.ending in {ConfigMissing, WorkflowGone, FetchFailed, NotEnabled, AlreadyTerminal, LabelFailed}
    requires s'.wfStatus in {s.wfStatus, Some(InProgress)}
    ensures rep.ending !in LATE_ENDINGS && rep.ending !in LABEL_ENDINGS && ErrorReasons(s, s', rep)
  {
  }

  lemma LateEnd(s: State, s1: State, s': State, rep: Report)
    requires rep.ending.NoPods? || rep.ending in LATE_ENDINGS
    requires rep.ending.NoPods? <==> rep.entries == []
    requires ErrorReasons(s1, s', rep) && !TerminalLabel(s1.wfStatus)
    ensures rep.ending !in {ConfigMissing, WorkflowGone, FetchFailed, NotEnabled, AlreadyTerminal, LabelFailed}
    ensures rep.entries == [] <==> rep.ending !in LATE_ENDINGS
    ensures ErrorReasons(s, s', rep)
  {
  }

  lemma QuietPart(c: Server, lo: nat, mid: nat, hi: nat)
    ensures mid <= hi && c.Quiet(lo, hi) ==> c.Quiet(lo, mid)
  {
  }

  lemma QuietNotRefused(c: Server, lo: nat, n: nat)
    ensures lo < n && c.Quiet(lo, n) ==> !LastRefused(c.w, n)
  {
  }

  /** Up to the In-Progress label. */
  method Prepare(c: Server, data: Option<Config>, wf: Object) returns (early: Option<(Result, Ending)>, requeue: bool)
    requires c.Valid() && wf.key == WorkflowObj
    modifies c, wf
    ensures c.Valid() && Within(old(c.j), c.j, 0, 0, 0) && c.requests == old(c.requests)
    ensures old(c.clock) < c.clock <= old(c.clock) + 8
    ensures c.j.s.pods == old(c.j.s.pods) && c.j.s.passNo == old(c.j.s.passNo)
    ensures c.j.s.wfStatus in {old(c.j.s.wfStatus), Some(InProgress)}
    ensures TerminalLabel(old(c.j.s.wfStatus)) ==> early.Some? && c.j.s == old(c.j.s)
    ensures TerminalLabel(c.j.s.wfStatus) ==> c.j.s == old(c.j.s)
    ensures early.None? ==>
              && data.Some? && !TerminalLabel(c.j.s.wfStatus) && old(c.clock) + 3 <= c.clock
              && (c.Quiet(old(c.clock), c.clock) ==> c.clock <= old(c.clock) + 4)
              && c.Shown(wf.nodes, old(c.clock), c.clock) && c.w.NodesOk(wf.nodes)
              && (requeue <==> LastRefused(c.w, c.clock)) && (requeue || c.j.s.wfStatus == Some(InProgress))
    ensures early.Some? ==>
              match early.value.1
              case ConfigMissing => early.value.0 == Fail(ApiFailure) && (data.None? || !c.Quiet(old(c.clock), c.clock))
              case WorkflowGone => early.value.0 == Done && c.w.tape(c.clock - 1).reply == NotFound
                  && !c.Quiet(old(c.clock), c.clock)
              case FetchFailed => early.value.0 == Fail(ApiFailure) && !c.Quiet(old(c.clock), c.clock)
              case NotEnabled =>
                && early.value.0 == Done && WorkflowObj in c.store
                && At(c.store[WorkflowObj].labels, EnableKey) != Some(ENABLED)
                && At(c.w.tape(c.clock - 1).labels, EnableKey) != Some(ENABLED)
              case AlreadyTerminal => early.value.0 == Done && TerminalLabel(c.j.s.wfStatus)
              case LabelFailed => early.value.0 == Fail(ApiFailure) && !c.Quiet(old(c.clock), c.clock)
              case _ => false
  {
    hide Good, World.NodesOk, World.Ok, Within;
    WithinReflexive(c.j);
    requeue := false;
    var reply := c.GetReadOnly();
    if reply != Ok || data.None? {
      return Some((Fail(ApiFailure), ConfigMissing)), false;
    }
    early := Fetch(c, wf);
    if early.Some? {
      return;
    }
    ghost var j1 := c.j;
    var failure;
    requeue, failure := MarkInProgress(c, wf, old(c.clock));
    WithinThrough(old(c.j), j1, c.j, (0, 0, 0), (0, 0, 0));
    if failure.Some? {
      return Some((Fail(failure.value), LabelFailed)), false;
    }
  }

  /** Fetch the workflow and see whether there is anything to do. */
  method Fetch(c: Server, wf: Object) returns (early: Option<(Result, Ending)>)
    requires c.Valid() && wf.key == WorkflowObj
    modifies c, wf
    ensures c.Valid() && Within(old(c.j), c.j, 0, 0, 0) && c.j.s == old(c.j.s) && c.clock == old(c.clock) + 1
    ensures c.requests == old(c.requests)
    ensures early.None? ==>
              && wf.nodes == c.w.tape(old(c.clock)).nodes && !TerminalLabel(c.j.s.wfStatus)
              && At(c.store[WorkflowObj].labels, EnableKey) == Some(ENABLED)
              && At(c.w.tape(old(c.clock)).labels, EnableKey) == Some(ENABLED)
    ensures early.Some? ==>
              match early.value.1
              case WorkflowGone => early.value.0 == Done && c.w.tape(old(c.clock)).reply == NotFound
              case FetchFailed => early.value.0 == Fail(ApiFailure) && c.w.tape(old(c.clock)).reply != Ok
              case NotEnabled =>
                && early.value.0 == Done && WorkflowObj in c.store
                && At(c.store[WorkflowObj].labels, EnableKey) != Some(ENABLED)
                && At(c.w.tape(old(c.clock)).labels, EnableKey) != Some(ENABLED)
              case AlreadyTerminal => early.value.0 == Done && TerminalLabel(c.j.s.wfStatus)
              case _ => false
  {
    hide Good, World.NodesOk, World.Ok;
    GoodObject(c.w, c.store, c.j, WorkflowObj);
    var reply := c.Get(wf);
    GoodObject(c.w, c.store, c.j, WorkflowObj);
    if reply == NotFound {
      return Some((Done, WorkflowGone));
    }
    if reply != Ok {
      return Some((Fail(ApiFailure), FetchFailed));
    }
    assert At(wf.labels, EnableKey) == At(c.w.tape(old(c.clock)).labels, EnableKey);
    if At(wf.labels, EnableKey) != Some(ENABLED) {
      return Some((Done, NotEnabled));
    }
    var status := At(wf.labels, StatusKey);
    if status == Some(Completed) || status == Some(Error) {
      return Some((Done, AlreadyTerminal));
    }
    early := None;
  }

  method MarkInProgress(c: Server, wf: Object, ghost lo: nat) returns (requeue: bool, err: Option<Failure>)
    requires c.Valid() && wf.key == WorkflowObj && !TerminalLabel(c.j.s.wfStatus)
    requires lo <= c.clock && c.Shown(wf.nodes, lo, c.clock)
    modifies c, wf
    ensures c.Valid() && Within(old(c.j), c.j, 0, 0, 0) && c.requests == old(c.requests)
    ensures old(c.clock) < c.clock <= old(c.clock) + 6
    ensures c.Quiet(old(c.clock), c.clock) ==> c.clock <= old(c.clock) + 2
    ensures c.j.s.pods == old(c.j.s.pods) && c.j.s.passNo == old(c.j.s.passNo)
              && c.j.s.wfStatus in {old(c.j.s.wfStatus), Some(InProgress)}
    ensures requeue <==> LastRefused(c.w, c.clock)
    ensures requeue ==> err.None?
    ensures err.Some? ==> err == Some(ApiFailure)
    ensures requeue || err.Some? || c.j.s.wfStatus == Some(InProgress)
    ensures requeue || err.Some? ==> !c.Quiet(old(c.clock), c.clock)
    ensures c.Shown(wf.nodes, lo, c.clock) && c.w.NodesOk(wf.nodes)
  {
    hide Good, World.NodesOk, World.Ok;
    requeue, err := UpdateWorkflowStatus(c, wf, InProgress);
    c.ShownOk(wf.nodes, lo, c.clock);
  }
}
