/** The controller at work: any number of reconciliations against one API server, from an untouched workflow. */
module Operation {
  import opened Metadata
  import opened Nodes
  import opened Environment
  import opened Protocol
  import opened Cluster
  import opened PassSpec
  import opened Controller
  import Theorems
  import Runs

  /** Pod nodes seen, pass by pass. */
  function Visits(reps: seq<Report>): nat {
    if reps == [] then 0 else Visits(reps[..|reps| - 1]) + |reps[|reps| - 1].entries|
  }

  /** The reconciliations that had Pod nodes to look at. */
  function Rounds(reps: seq<Report>): nat {
    if reps == [] then 0 else Rounds(reps[..|reps| - 1]) + if reps[|reps| - 1].entries == [] then 0 else 1
  }

  /** Whatever happens and wherever the history is cut, the pods' annotations are consistent. */
  ghost predicate ConsistentThroughout(w: World, t: seq<Action>) {
    forall n, p :: 0 <= n <= |t| && p in w.fates ==>
      p in Exec(w, t[..n]).pods && Runs.Consistent(Exec(w, t[..n]).pods[p].own)
  }

  /** What the server stores of an object is the history's state in the controller's own keys, and everywhere
      else what other clients alone would have made of it. */
  ghost predicate StoredAs(w: World, store: map<ObjKey, Stored>, s: State, shadow: map<ObjKey, Stored>) {
    && WorkflowObj in store && At(store[WorkflowObj].labels, StatusKey) == s.wfStatus
    && (forall p :: p in w.fates ==>
          p in s.pods && PodObj(p) in store && OwnOf(store[PodObj(p)].annotations) == s.pods[p].own)
    && (forall o :: o in store ==> o in shadow && OthersOf(o, store[o], shadow[o]))
  }

  /** What an Error label is owed to, within the calls and requests made so far: a pod of the pass that set it
      failed signing in that pass, on record, or after all pods of the pass had been validated a statement was
      refused, or the last call of the provenance step failed. */
  ghost predicate ErrorOwed(w: World, s: State, clock: nat, requests: nat) {
    || FreshError(s)
    || (exists i :: s.pass.requests <= i < requests && s.pass.refused == Some(i) && GenerationRefused(w, i))
    || (exists i :: s.pass.calls <= i < clock && s.pass.failedAt == i + 1 && w.tape(i).reply != Ok)
  }

  lemma ErrorOnRecord(c: Server)
    requires c.Valid()
    ensures !TerminalLabel(c.w.initialLabel) && c.j.s.wfStatus == Some(Error) ==>
              ErrorOwed(c.w, c.j.s, c.clock, c.requests)
  {
    LegalHistory(c);
    if !TerminalLabel(c.w.initialLabel) && c.j.s.wfStatus == Some(Error) {
      hide Legal, Exec, FreshError, GenerationRefused;
      Runs.ErrorMeans(c.w, c.j.trace);
      var pass := c.j.s.pass;
      if pass.failed && Caused(c.w, pass) && !Refusal(c.w, pass) {
        assert pass.failedAt == (pass.failedAt - 1) + 1;
      }
    }
  }

  lemma WhatHolds(c: Server)
    requires c.Valid()
    ensures c.j.s == Exec(c.w, c.j.trace) && StoredAs(c.w, c.store, c.j.s, c.j.shadow)
    ensures ConsistentThroughout(c.w, c.j.trace)
    ensures Runs.Writes(c.j.trace) <= 6 * |c.w.fates| + 2
    ensures forall p :: p in c.w.fates ==> |Runs.Signings(c.j.trace, p)| <= c.j.s.passNo
    ensures !TerminalLabel(c.w.initialLabel) && c.j.s.wfStatus == Some(Error) ==>
              ErrorOwed(c.w, c.j.s, c.clock, c.requests)
  {
    ErrorOnRecord(c);
    forall p | p in c.w.fates
      ensures |Runs.Signings(c.j.trace, p)| <= c.j.s.passNo
    {
      Runs.SigningAccount(c.w, c.j.trace, p);
      Runs.PassesCounted(c.w, c.j.trace);
    }
    Runs.WriteBound(c.w, c.j.trace);
    forall n, p | 0 <= n <= |c.j.trace| && p in c.w.fates
      ensures p in Exec(c.w, c.j.trace[..n]).pods && Runs.Consistent(Exec(c.w, c.j.trace[..n]).pods[p].own)
    {
      Runs.AlwaysConsistent(c.w, c.j.trace, n, p);
    }
  }

  // ---------- what the stored annotations say ----------

  /** The stored value of `signed` for the artifact: how the signer answered a request for a signature of it, or
      Error for want of a signer. */
  ghost predicate SignedAs(w: World, ref: string, v: Option<Value>, unsigned: bool) {
    match v
    case None => true
    case Some(Completed) => exists i :: w.net(SignOp, ref, i).ok
    case Some(Error) => unsigned || exists i :: !w.net(SignOp, ref, i).ok
    case Some(_) => false
  }

  /** The same of `sbom`, for all images that are scanned for the artifact. */
  ghost predicate SbomAs(w: World, ref: string, v: Option<Value>, unsigned: bool) {
    match v
    case None => true
    case Some(Attached) =>
      forall image :: image in w.SbomTargets(ref) ==>
        (exists i :: w.net(SyftOp, image, i).ok) && (exists i :: w.net(AttestSbomOp, image, i).ok)
    case Some(Error) => unsigned || SbomRefused(w, ref)
    case Some(_) => false
  }

  /** The same of `provenance`. */
  ghost predicate ProvenanceAs(w: World, ref: string, v: Option<Value>, unsigned: bool) {
    match v
    case None => true
    case Some(Attached) => exists i :: w.net(AttestOp, ref, i).ok
    case Some(Error) => unsigned || exists i :: !w.net(AttestOp, ref, i).ok
    case Some(_) => false
  }

  /** The annotations of a pod are backed: the artifact by the last parameter looked at, and everything else by
      the replies of signer and registry to requests for that artifact. `unsigned`: a pass had no signer. */
  ghost predicate Truthful(w: World, p: string, m: Meta, unsigned: bool)
    requires p in w.fates
  {
    var params := w.fates[p].params;
    match At(m, ArtifactsKey)
    case None => At(m, SignedKey).None? && At(m, SbomKey).None?
    case Some(NoArtifacts) =>
      && (forall i: nat :: LastLookedAt(params, i) ==> !IsDigestRef(w.parse, params[i].value))
      && At(m, SignedKey) in {None, Some(Skipped)} && At(m, SbomKey) in {None, Some(Skipped)}
    case Some(Text(ref)) =>
      && IsDigestRef(w.parse, ref) && (exists i: nat :: LastLookedAt(params, i) && params[i].value == ref)
      && SignedAs(w, ref, At(m, SignedKey), unsigned)
      && SbomAs(w, ref, At(m, SbomKey), unsigned)
      && ProvenanceAs(w, ref, At(m, ProvenanceKey), unsigned)
    case Some(_) => false
  }

  lemma StoredTruth(c: Server, p: string)
    requires c.Valid() && p in c.w.fates
    ensures PodObj(p) in c.store
    ensures Truthful(c.w, p, c.store[PodObj(p)].annotations, Runs.PassWithoutSigner(c.j.trace))
  {
    hide Server.Valid, Legal, Exec, World.Ok, LastLookedAt, SbomRefused, Runs.PassWithoutSigner, Good;
    LegalHistory(c);
    PodStored(c, p);
    DiscoverExactly(c.w.parse, c.w.fates[p].params);
    var o := c.j.s.pods[p].own;
    Theorems.ReachablePod(c.w, c.j.trace, p);
    DiscoverParses(c.w.parse, c.w.fates[p].params);
    if Found(o) {
      Runs.SignedMeans(c.w, c.j.trace, p);
      if o.provenance.Some? {
        Runs.ProvenanceMeans(c.w, c.j.trace, p);
      }
      SbomTruth(c, p);
    }
  }

  lemma PodStored(c: Server, p: string)
    requires c.Valid() && p in c.w.fates
    ensures p in c.j.s.pods && PodObj(p) in c.store && OwnOf(c.store[PodObj(p)].annotations) == c.j.s.pods[p].own
    ensures !IsDigestRef(c.w.parse, ValueText(NoArtifacts))
  {
  }

  lemma SbomTruth(c: Server, p: string)
    requires c.Valid() && p in c.j.s.pods && p in c.w.fates && Found(c.j.s.pods[p].own)
    ensures var o := c.j.s.pods[p].own;
            o.sbom in {Some(Attached), Some(Error)} ==>
              SbomAs(c.w, ValueText(o.artifacts.value), o.sbom, Runs.PassWithoutSigner(c.j.trace))
  {
    hide Server.Valid, Legal, Exec, World.Ok, SbomRefused, Runs.PassWithoutSigner, World.SbomTargets;
    LegalHistory(c);
    var o := c.j.s.pods[p].own;
    if o.sbom == Some(Attached) {
      forall image | image in c.w.SbomTargets(ValueText(o.artifacts.value))
        ensures exists i :: c.w.net(SyftOp, image, i).ok
        ensures exists i :: c.w.net(AttestSbomOp, image, i).ok
      {
        Runs.AttachedMeans(c.w, c.j.trace, p, image);
      }
    } else if o.sbom == Some(Error) {
      Runs.UndescribedMeans(c.w, c.j.trace, p);
    }
  }

  /** Every pass of the history had one of these configurations. */
  ghost predicate ConfiguredBy(t: seq<Action>, data: seq<Option<Config>>) {
    forall k :: 0 <= k < |t| && t[k].Begin? ==> Some(t[k].cfg) in data
  }

  /** Some configuration has no known signer type. */
  ghost predicate SignerMissing(data: seq<Option<Config>>) {
    exists cfg: Config :: Some(cfg) in data && cfg.signer.UnknownSigner?
  }

  lemma ConfiguredMore(c: Server, t0: seq<Action>, data: seq<Option<Config>>, datum: Option<Config>, none: bool)
    requires c.Valid() && t0 <= c.j.trace && ConfiguredBy(t0, data)
    requires c.j.s.passNo == Exec(c.w, t0).passNo + if none then 0 else 1
    requires !none ==> datum == Some(c.j.s.pass.cfg)
    ensures ConfiguredBy(c.j.trace, data + [datum])
  {
    hide Server.Valid, Legal, Exec, World.Ok;
    LegalHistory(c);
    var t := c.j.trace;
    assert t[..|t0|] == t0;
    assert (data + [datum])[|data|] == datum;
    forall k | 0 <= k < |t| && t[k].Begin?
      ensures Some(t[k].cfg) in data + [datum]
    {
      if k < |t0| {
        assert t0[k] == t[k];
      } else {
        Runs.BegunSince(c.w, t, |t0|, k);
      }
    }
  }

  /** Annotations in the store say what signer and registry have answered. */
  ghost predicate AllTruthful(w: World, store: map<ObjKey, Stored>, unsigned: bool) {
    forall p :: p in w.fates ==> PodObj(p) in store && Truthful(w, p, store[PodObj(p)].annotations, unsigned)
  }

  lemma AllTrue(c: Server, data: seq<Option<Config>>)
    requires c.Valid() && ConfiguredBy(c.j.trace, data)
    ensures AllTruthful(c.w, c.store, SignerMissing(data))
  {
    hide Server.Valid, SbomRefused, LastLookedAt;
    assert Runs.PassWithoutSigner(c.j.trace) ==> SignerMissing(data);
    forall p | p in c.w.fates
      ensures PodObj(p) in c.store && Truthful(c.w, p, c.store[PodObj(p)].annotations, SignerMissing(data))
    {
      StoredTruth(c, p);
    }
  }

  /** Without a configuration that asks for SBOMs there are none. */
  lemma NoSboms(c: Server, data: seq<Option<Config>>)
    requires c.Valid() && ConfiguredBy(c.j.trace, data)
    requires forall cfg: Config :: Some(cfg) in data ==> !cfg.sbomGeneration
    ensures forall p :: p in c.w.fates ==>
              PodObj(p) in c.store && At(c.store[PodObj(p)].annotations, SbomKey).None?
  {
    hide Server.Valid, Legal, Exec, World.Ok;
    LegalHistory(c);
    forall p | p in c.w.fates
      ensures PodObj(p) in c.store && At(c.store[PodObj(p)].annotations, SbomKey).None?
    {
      PodStored(c, p);
      Runs.SbomsWanted(c.w, c.j.trace, p);
    }
  }

  /** Reconcile once for each content of the config map. */
  method Operate(w: World, data: seq<Option<Config>>) returns (c: Server, reps: seq<Report>)
    requires w.Ok()
    ensures fresh(c) && c.w == w && c.Valid() && |reps| == |data|
    ensures StoredAs(w, c.store, Exec(w, c.j.trace), c.j.shadow)
    ensures ConsistentThroughout(w, c.j.trace)
    ensures Runs.Writes(c.j.trace) <= 6 * |w.fates| + 2
    ensures c.clock <= 37 * Visits(reps) + 14 * |reps|
    ensures c.j.s.passNo == Rounds(reps)
    ensures forall p :: p in w.fates ==> |Runs.Signings(c.j.trace, p)| <= Rounds(reps)
    ensures |c.j.effects.signed| <= Visits(reps)
    ensures c.j.effects.sboms <= Visits(reps) && c.j.effects.attests <= Visits(reps)
    ensures AllTruthful(w, c.store, SignerMissing(data))
    ensures (forall cfg: Config :: Some(cfg) in data ==> !cfg.sbomGeneration) ==>
              forall p :: p in w.fates ==> At(c.store[PodObj(p)].annotations, SbomKey).None?
  {
    hide Server.Valid, ConsistentThroughout, StoredAs, ConfiguredBy, SignerMissing, Truthful;
    c := new Server(w);
    NothingConfigured();
    assert data[..0] == [];
    NoPassYet(c);
    reps := [];
    for i := 0 to |data|
      invariant fresh(c) && c.w == w && c.Valid() && |reps| == i
      invariant c.clock <= 37 * Visits(reps) + 14 * |reps|
      invariant c.j.s.passNo == Rounds(reps)
      invariant |c.j.effects.signed| <= Visits(reps)
      invariant c.j.effects.sboms <= Visits(reps) && c.j.effects.attests <= Visits(reps)
      invariant ConfiguredBy(c.j.trace, data[..i])
    {
      ghost var t0 := c.j.trace;
      LegalHistory(c);
      var rep;
      ghost var view;
      rep, view := Reconcile(c, data[i]);
      assert (reps + [rep])[..|reps|] == reps;
      reps := reps + [rep];
      ConfiguredMore(c, t0, data[..i], data[i], rep.entries == []);
      assert data[..i] + [data[i]] == data[..i + 1];
    }
    assert data[..|data|] == data;
    WhatHolds(c);
    AllTrue(c, data);
    if forall cfg: Config :: Some(cfg) in data ==> !cfg.sbomGeneration {
      NoSboms(c, data);
    }
  }

  lemma NothingConfigured()
    ensures ConfiguredBy([], [])
  {
  }

  lemma NoPassYet(c: Server)
    requires c.Valid() && c.j.trace == []
    ensures c.j.s.passNo == 0
  {
  }

  /** The pod of a node. */
  function PodOf(w: World, id: string, node: Node): string {
    FormatPodName(w.workflow, node.template, id)
  }

  /** A pod of a workflow that has just become Completed: done, with a provenance value, the artifact being the
      node's; and with its artifact, if it has one, recorded as signed unless the failure was stored before. */
  ghost predicate Secured(w: World, p: string, before: Own, after: Own) {
    && p in w.fates && Final(after.status) && after.provenance.Some?
    && (after.artifacts.Some? ==> after.artifacts.value == w.Artifact(p))
    && (before.status == Some(Error) ==> Found(after))
    && (Found(after) ==> after.signed == Some(if before.status == Some(Error) then Error else Completed))
  }

  /** When a pass has set the label to Completed, the pod of every Pod node it was shown is secured. */
  lemma CompletedSnapshot(c: Server, pods: map<string, PodRec>, nodes: map<string, Node>, es: seq<Entry>, id: string)
    requires c.Valid() && !TerminalLabel(c.w.initialLabel) && c.j.s.wfStatus == Some(Completed)
    requires Snapshot(c.w, nodes, es) && Listed(c.j.s.pass.members, es) && !HasHollow(es)
    requires pods.Keys == c.w.fates.Keys && AsBegun(c.j.s.pass, pods, es)
    requires id in nodes && nodes[id].isPod
    ensures var p := PodOf(c.w, id, nodes[id]);
            p in pods && PodObj(p) in c.store && Secured(c.w, p, pods[p].own, OwnOf(c.store[PodObj(p)].annotations))
  {
    hide FormatPodName, Good, Legal, Exec, TerminalLabel, StoredAs, ConsistentThroughout, Found;
    var p := PodOf(c.w, id, nodes[id]);
    assert p in c.j.s.pass.members
           && (p in pods ==> p in c.j.s.pass.entry && c.j.s.pass.entry[p] == pods[p].own.status) by {
      var e := NodeEntry(c.w, id, nodes[id]);
      assert e in es;
      var i :| 0 <= i < |es| && es[i] == e;
    }
    WhatHolds(c);
    GoodObject(c.w, c.store, c.j, PodObj(p));
    LegalHistory(c);
    Runs.CompletedPod(c.w, c.j.trace, p);
  }

  lemma LegalHistory(c: Server)
    requires c.Valid()
    ensures c.w.Ok() && Legal(c.w, c.j.trace) && c.j.s == Exec(c.w, c.j.trace)
  {
  }

  ghost function StoredOwn(store: map<ObjKey, Stored>, p: string): Own {
    if PodObj(p) in store then OwnOf(store[PodObj(p)].annotations) else BLANK
  }

  /** All artifacts of the snapshot's pods are recorded as signed. */
  ghost predicate AllSigned(w: World, nodes: map<string, Node>, store: map<ObjKey, Stored>) {
    forall id :: id in nodes && nodes[id].isPod ==>
      var o := StoredOwn(store, PodOf(w, id, nodes[id])); Found(o) ==> o.signed == Some(Completed)
  }

  /** No pod of the snapshot has a failed signature stored. */
  ghost predicate NoneFailed(w: World, nodes: map<string, Node>, store: map<ObjKey, Stored>) {
    forall id :: id in nodes && nodes[id].isPod ==> StoredOwn(store, PodOf(w, id, nodes[id])).status != Some(Error)
  }

  /** One reconciliation, in terms of what is stored before and after: if it completes the workflow, every pod of
      its snapshot is secured, and all artifacts are recorded as signed if and only if no pod of the snapshot had
      the status Error stored before. */
  method SecureOnce(c: Server, data: Option<Config>) returns (rep: Report)
    requires c.Valid() && !TerminalLabel(c.w.initialLabel)
    modifies c
    ensures c.Valid()
    ensures c.j.s.wfStatus == Some(Completed) && old(c.j.s.wfStatus) != Some(Completed) ==>
              && (forall id :: id in rep.nodes && rep.nodes[id].isPod ==>
                    var p := PodOf(c.w, id, rep.nodes[id]);
                    Secured(c.w, p, StoredOwn(old(c.store), p), StoredOwn(c.store, p)))
              && (AllSigned(c.w, rep.nodes, c.store) <==> NoneFailed(c.w, rep.nodes, old(c.store)))
  {
    hide Server.Valid, Secured, Snapshot, Listed, AsBegun, HasHollow, OthersKept, FoundBy, StillSucceeded, Undisturbed,
         AsSpecified, LastRefused, Caused, Finished, FormatPodName, AllSigned, NoneFailed, StoredOwn, ErrorReasons;
    ghost var pods, store := c.j.s.pods, c.store;
    StoredPods(c);
    ghost var view;
    rep, view := Reconcile(c, data);
    if c.j.s.wfStatus == Some(Completed) && old(c.j.s.wfStatus) != Some(Completed) {
      forall id | id in rep.nodes && rep.nodes[id].isPod
        ensures Secured(c.w, PodOf(c.w, id, rep.nodes[id]), StoredOwn(store, PodOf(c.w, id, rep.nodes[id])),
                        StoredOwn(c.store, PodOf(c.w, id, rep.nodes[id])))
      {
        CompletedSnapshot(c, pods, rep.nodes, rep.entries, id);
        StoredPod(c, PodOf(c.w, id, rep.nodes[id]));
      }
      SignedUnlessFailed(c.w, rep.nodes, store, c.store);
    }
  }

  lemma StoredPods(c: Server)
    requires c.Valid()
    ensures c.j.s.pods.Keys == c.w.fates.Keys
    ensures forall p :: p in c.j.s.pods ==> StoredOwn(c.store, p) == c.j.s.pods[p].own
  {
  }

  lemma StoredPod(c: Server, p: string)
    requires PodObj(p) in c.store
    ensures StoredOwn(c.store, p) == OwnOf(c.store[PodObj(p)].annotations)
  {
  }

  lemma SignedUnlessFailed(w: World, nodes: map<string, Node>, before: map<ObjKey, Stored>, after: map<ObjKey, Stored>)
    requires forall id :: id in nodes && nodes[id].isPod ==>
               Secured(w, PodOf(w, id, nodes[id]), StoredOwn(before, PodOf(w, id, nodes[id])),
                   StoredOwn(after, PodOf(w, id, nodes[id])))
    ensures AllSigned(w, nodes, after) <==> NoneFailed(w, nodes, before)
  {
    hide StoredOwn, FormatPodName, Found;
    if !NoneFailed(w, nodes, before) {
      var id :| id in nodes && nodes[id].isPod && StoredOwn(before, PodOf(w, id, nodes[id])).status == Some(Error);
      assert Secured(w, PodOf(w, id, nodes[id]), StoredOwn(before, PodOf(w, id, nodes[id])),
          StoredOwn(after, PodOf(w, id, nodes[id])));
    }
  }
}
