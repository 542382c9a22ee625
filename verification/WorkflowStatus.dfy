/** All pods of one workflow snapshot: collecting, visiting, validating and attesting them. */
module WorkflowStatus {
  import opened Metadata
  import opened Nodes
  import opened Environment
  import opened Protocol
  import opened Theorems
  import opened Lists
  import opened Cluster
  import opened PassSpec
  import opened PodStatus
  import Provenance
  import Runs

  function EntryOf(p: PodStatus): Entry {
    Entry(p.name, p.display, p.phase)
  }

  function Entries(ps: seq<PodStatus>): (es: seq<Entry>)
    ensures |es| == |ps| && forall i :: 0 <= i < |es| ==> es[i] == EntryOf(ps[i])
  {
    seq(|ps|, i requires 0 <= i < |ps| => EntryOf(ps[i]))
  }

  /** The pods the pass has to finish, in the order of the snapshot. */
  function Member(p: PodStatus): seq<string> {
    if IsSkippedOrOmitted(p.phase) then [] else [p.name]
  }

  function Members(ps: seq<PodStatus>): seq<string> {
    Concat((p: PodStatus) => Member(p), ps)
  }

  predicate Hollow(ps: seq<PodStatus>) {
    exists i :: 0 <= i < |ps| && IsSkippedOrOmitted(ps[i].phase)
  }

  ghost predicate DistinctPods(ps: seq<PodStatus>) {
    forall i, j :: 0 <= i < j < |ps| ==> ps[i] != ps[j] && ps[i].name != ps[j].name
  }

  lemma {:induction false} MembersOf(ps: seq<PodStatus>, p: string)
    ensures p in Members(ps) <==> exists i :: 0 <= i < |ps| && !IsSkippedOrOmitted(ps[i].phase) && ps[i].name == p
  {
    if ps != [] {
      var n := |ps| - 1;
      MembersOf(ps[..n], p);
      assert Members(ps) == Members(ps[..n]) + Member(ps[n]);
      if p in Members(ps[..n]) {
        var i :| 0 <= i < n && !IsSkippedOrOmitted(ps[..n][i].phase) && ps[..n][i].name == p;
        assert ps[i].name == p;
      } else if p in Member(ps[n]) {
        assert ps[n].name == p;
      }
      if i :| 0 <= i < |ps| && !IsSkippedOrOmitted(ps[i].phase) && ps[i].name == p {
        if i < n {
          assert ps[..n][i] == ps[i];
        }
      }
    }
  }

  lemma {:induction false} MembersDistinct(ps: seq<PodStatus>)
    requires DistinctPods(ps)
    ensures forall i, j :: 0 <= i < j < |Members(ps)| ==> Members(ps)[i] != Members(ps)[j]
  {
    if ps != [] {
      var n := |ps| - 1;
      MembersDistinct(ps[..n]);
      MembersOf(ps[..n], ps[n].name);
      assert Members(ps) == Members(ps[..n]) + Member(ps[n]);
    }
  }

  class WorkflowStatus {
    var podsStatus: seq<PodStatus>

    constructor ()
      ensures podsStatus == []
    {
      podsStatus := [];
    }

    /** One entry, untouched, for every Pod node, in some order. */
    method GetPodInfo(wf: Object, w: World) returns (err: bool)
      requires w.NodesOk(wf.nodes)
      modifies this
      ensures err <==> forall id :: id in wf.nodes ==> !wf.nodes[id].isPod
      ensures err ==> podsStatus == old(podsStatus)
      ensures !err ==> |podsStatus| > 0 && DistinctPods(podsStatus)
      ensures !err ==> forall p :: p in podsStatus ==> fresh(p) && p.Untouched() && w.NodeOk(p.name, p.phase, p.params)
      ensures !err ==> forall id :: id in wf.nodes && wf.nodes[id].isPod ==>
                exists p :: p in podsStatus && Describes(p, w, id, wf.nodes[id])
      ensures !err ==> forall p :: p in podsStatus ==>
                exists id :: id in wf.nodes && Describes(p, w, id, wf.nodes[id])
    {
      hide World.NodeOk, WellFormedId, FormatPodName, Describes;
      var keys := wf.nodes.Keys;
      var ps: seq<PodStatus> := [];
      ghost var ids: seq<string> := [];
      while keys != {}
        invariant podsStatus == old(podsStatus)
        invariant keys <= wf.nodes.Keys && |ids| == |ps|
        invariant forall i :: 0 <= i < |ids| ==> ids[i] in wf.nodes && ids[i] !in keys
        invariant forall i, j :: 0 <= i < j < |ids| ==> ids[i] != ids[j]
        invariant forall i :: 0 <= i < |ids| ==>
                    && fresh(ps[i]) && ps[i].Untouched() && Describes(ps[i], w, ids[i], wf.nodes[ids[i]])
                    && w.NodeOk(ps[i].name, ps[i].phase, ps[i].params)
        invariant forall i, j :: 0 <= i < j < |ps| ==> ps[i] != ps[j]
        invariant forall id :: id in wf.nodes && id !in keys && wf.nodes[id].isPod ==> id in ids
        decreases keys
      {
        var id :| id in keys;
        keys := keys - {id};
        var node := wf.nodes[id];
        if node.isPod {
          var p := new PodStatus(FormatPodName(w.workflow, node.template, id), node.display, node.phase, node.params);
          Described(p, w, wf.nodes, id);
          ps := ps + [p];
          ids := ids + [id];
        }
      }
      if |ps| == 0 {
        return true;
      }
      CollectedAll(ps, ids, w, wf.nodes);
      forall p | p in ps
        ensures fresh(p) && p.Untouched() && w.NodeOk(p.name, p.phase, p.params)
      {
        var i :| 0 <= i < |ps| && ps[i] == p;
        assert ids[i] in wf.nodes;
      }
      podsStatus := ps;
      err := false;
    }

    static ghost predicate Describes(p: PodStatus, w: World, id: string, node: Node) {
      && node.isPod && WellFormedId(w.workflow, id)
      && p.name == FormatPodName(w.workflow, node.template, id)
      && p.phase == node.phase && p.params == node.params && p.display == node.display
      && w.NodeOk(p.name, p.phase, p.params)
    }

    static lemma Described(p: PodStatus, w: World, nodes: map<string, Node>, id: string)
      requires w.NodesOk(nodes) && id in nodes && nodes[id].isPod
      requires p.name == FormatPodName(w.workflow, nodes[id].template, id)
      requires p.phase == nodes[id].phase && p.params == nodes[id].params && p.display == nodes[id].display
      ensures Describes(p, w, id, nodes[id]) && w.NodeOk(p.name, p.phase, p.params)
    {
    }

    static lemma CollectedAll(ps: seq<PodStatus>, ids: seq<string>, w: World, nodes: map<string, Node>)
      requires |ids| == |ps|
      requires forall i :: 0 <= i < |ids| ==> ids[i] in nodes && Describes(ps[i], w, ids[i], nodes[ids[i]])
      requires forall i, j :: 0 <= i < j < |ids| ==> ids[i] != ids[j]
      requires forall i, j :: 0 <= i < j < |ps| ==> ps[i] != ps[j]
      requires forall id :: id in nodes && nodes[id].isPod ==> id in ids
      ensures DistinctPods(ps)
      ensures forall id :: id in nodes && nodes[id].isPod ==> exists p :: p in ps && Describes(p, w, id, nodes[id])
      ensures forall p :: p in ps ==> exists id :: id in nodes && Describes(p, w, id, nodes[id])
      ensures |ps| > 0 ==> exists id :: id in nodes && nodes[id].isPod
    {
      forall i, j | 0 <= i < j < |ps|
        ensures ps[i].name != ps[j].name
      {
        if ps[i].name == ps[j].name {
          PodNamesDistinct(w.workflow, nodes[ids[i]].template, ids[i], nodes[ids[j]].template, ids[j]);
        }
      }
      forall id | id in nodes && nodes[id].isPod
        ensures exists p :: p in ps && Describes(p, w, id, nodes[id])
      {
        var i :| 0 <= i < |ids| && ids[i] == id;
        assert ps[i] in ps;
      }
      if |ps| > 0 {
        assert Describes(ps[0], w, ids[0], nodes[ids[0]]);
      }
    }

    /** The first unfinished or unsigned entry decides. */
    method ValidateAllPodsReconciled() returns (err: Option<Failure>)
      ensures err.None? <==> forall p :: p in podsStatus ==> Flagged(p).Problem().None?
      ensures err.Some? ==> exists k :: 0 <= k < |podsStatus| && Flagged(podsStatus[k]).Problem() == err
                                        && forall i :: 0 <= i < k ==> Flagged(podsStatus[i]).Problem().None?
    {
      for k := 0 to |podsStatus|
        invariant forall i :: 0 <= i < k ==> Flagged(podsStatus[i]).Problem().None?
      {
        var p := podsStatus[k];
        if !p.reconciliation {
          assert Flagged(podsStatus[k]).Problem() == Some(NotReconciled);
          return Some(NotReconciled);
        }
        if p.artifactsFound && !p.signed {
          assert Flagged(podsStatus[k]).Problem() == Some(SigningFailed(p.display));
          return Some(SigningFailed(p.display));
        }
      }
      err := None;
    }

    /** One turn of the loop below: the pods visited so far stay as reported, the others stay untouched. */
    static method VisitOne(c: Server, cfg: Config, ps: seq<PodStatus>, i: nat)
      returns (err: Option<Failure>, ghost seen: bool)
      requires i < |ps| && DistinctPods(ps)
      requires c.Valid() && c.j.s.pass.members == Members(ps) && !c.j.s.pass.validated && !TerminalLabel(c.j.s.wfStatus)
      requires c.j.s.pass.cfg == cfg
      requires forall k :: 0 <= k < |ps| ==> c.w.NodeOk(ps[k].name, ps[k].phase, ps[k].params)
      requires forall k :: 0 <= k < i ==> ps[k].Reported(c)
      requires forall k :: i <= k < |ps| ==> ps[k].Pristine(c)
      modifies c, ps[i]
      ensures c.Valid() && Within(old(c.j), c.j, 1, 1, 0)
      ensures if IsTerminal(ps[i].phase) then old(c.clock) < c.clock <= old(c.clock) + 31 else c.clock == old(c.clock)
      ensures old(c.requests) <= c.requests && StillPass(old(c.j.s), c.j.s)
      ensures OthersKept(old(c.j.s.pods), c.j.s.pods, [EntryOf(ps[i])])
      ensures IsTerminal(ps[i].phase) && ps[i].name in old(c.j.s.pods) ==>
                && seen == (old(c.j.s.pods[ps[i].name].succeeded) || c.w.tape(old(c.clock)).succeeded)
                && (seen ==> c.j.s.pods[ps[i].name].succeeded)
      ensures ps[i].pod != null ==> fresh(ps[i].pod)
      ensures forall k :: 0 <= k < i ==> ps[k].Reported(c)
      ensures forall k :: i < k < |ps| ==> ps[k].Pristine(c)
      ensures err.None? ==> ps[i].Reported(c)
      ensures err.Some? ==> err.value !in {NotReconciled} && !err.value.SigningFailed?
      ensures err == Some(ConflictOrNotFound)
              <==> old(c.clock) + 1 < c.clock && c.w.tape(c.clock - 1).reply in {Conflict, NotFound}
      ensures err.None? ==> IsSkippedOrOmitted(ps[i].phase) || InKnownState(ps[i].phase)
      ensures Undisturbed(c.w, old(c.clock), c.clock, old(c.j.s.pods), [EntryOf(ps[i])]) ==>
                && err.None?
                && AsSettled(Setting(c.w, cfg, SeenAs(old(c.j.s.pods), ps[i].name, seen)), c.j.s, [EntryOf(ps[i])])
                && c.j.effects.signed
                   == old(c.j.effects.signed)
                      + Setting(c.w, cfg, SeenAs(old(c.j.s.pods), ps[i].name, seen)).Signs(EntryOf(ps[i]))
    {
      hide Server.Valid, SignVerdict, SbomValue, Settle, ToSign, World.NodeOk, Inv, FinishedPod,
           PodStatus.VisitAnswered, Effect, Enabled, World.Ok, OwnOf, Discover, PassInv, PodInv, Within, Members,
           Drifted, Continues;
      var p := ps[i];
      MembersOf(ps, p.name);
      err, seen := p.ReconcilePod(c, cfg);
      forall k | 0 <= k < i
        ensures ps[k].Reported(c)
      {
        assert old(ps[k].Reported(c));
      }
      forall k | i < k < |ps|
        ensures ps[k].Pristine(c)
      {
        assert old(ps[k].Pristine(c));
      }
      forall q
        ensures FinishedPod([EntryOf(p)], q) <==> IsTerminal(p.phase) && p.name == q
      {
        OneFinished(EntryOf(p), q);
      }
      assert EntryOf(ps[i]) in [EntryOf(ps[i])];
    }

    /** `found`: the pods as their visits find them; `last`: the calls before the last of the visits. */
    method VisitAll(c: Server, cfg: Config)
      returns (err: Option<Failure>, ghost found: map<string, PodRec>, ghost last: nat)
      requires Begun(c, podsStatus) && c.j.s.pass.cfg == cfg
      modifies c, podsStatus
      ensures c.Valid() && Within(old(c.j), c.j, |podsStatus|, |podsStatus|, 0)
      ensures c.clock <= old(c.clock) + 31 * Finished(Entries(podsStatus))
      ensures old(c.clock) + (if err.None? then Finished(Entries(podsStatus)) else 0) <= c.clock
      ensures old(c.requests) <= c.requests && StillPass(old(c.j.s), c.j.s)
      ensures found.Keys == old(c.j.s.pods).Keys && StillSucceeded(found, c.j.s.pods)
      ensures OthersKept(old(c.j.s.pods), c.j.s.pods, Entries(podsStatus))
      ensures err.None? ==> FoundBy(c.w, old(c.clock), old(c.j.s.pods), found, Entries(podsStatus))
      ensures err.None? ==> forall k :: 0 <= k < |podsStatus| ==>
                podsStatus[k].Reported(c) && (podsStatus[k].pod != null ==> fresh(podsStatus[k].pod))
                && (IsSkippedOrOmitted(podsStatus[k].phase) || InKnownState(podsStatus[k].phase))
      ensures err.Some? ==> err.value !in {NotReconciled} && !err.value.SigningFailed?
      ensures err.Some? ==> BrokenOff(c.w, old(c.clock), c.clock, Entries(podsStatus), last, err.value)
      ensures Undisturbed(c.w, old(c.clock), c.clock, found, Entries(podsStatus)) ==>
                && err.None?
                && AsSettled(Setting(c.w, cfg, found), c.j.s, Entries(podsStatus))
                && c.j.effects.signed
                   == old(c.j.effects.signed) + Setting(c.w, cfg, found).AllSigns(Entries(podsStatus))
    {
      hide Server.Valid, Settle, Effect, Enabled, World.Ok, OwnOf, Discover, PassInv, PodInv, ToSign, World.NodeOk,
           Inv, Undisturbed, AsSettled, PodStatus.Reported, PodStatus.Pristine, Within, IsSkippedOrOmitted,
           InKnownState, IsTerminal, Members, TerminalLabel, Progress, FoundBy, Finished, OthersKept, StillSucceeded,
           Setting.AllSigns, Setting.Signs, Setting.After, BrokenOff, VisitCall, FinishedPod, AfterVisit, SeenAs;
      ghost var lo, pods0, signed0 := c.clock, c.j.s.pods, c.j.effects.signed;
      ghost var es := Entries(podsStatus);
      err, found, last := None, pods0, lo;
      WithinReflexive(c.j);
      NothingFound(c.w, lo, pods0);
      NothingSettled(Setting(c.w, cfg, found), c.j.s, lo, signed0);
      FinishedNone(es);
      for i := 0 to |podsStatus|
        invariant err.None?
        invariant c.Valid() && Within(old(c.j), c.j, i, i, 0)
        invariant lo + Finished(es[..i]) <= c.clock <= lo + 31 * Finished(es[..i])
        invariant old(c.requests) <= c.requests && StillPass(old(c.j.s), c.j.s)
        invariant FoundBy(c.w, lo, pods0, found, es[..i]) && StillSucceeded(found, c.j.s.pods)
        invariant c.j.s.pods.Keys == found.Keys == pods0.Keys && OthersKept(pods0, c.j.s.pods, es[..i])
        invariant forall k :: 0 <= k < i ==>
                    podsStatus[k].Reported(c) && (podsStatus[k].pod != null ==> fresh(podsStatus[k].pod))
                    && (IsSkippedOrOmitted(podsStatus[k].phase) || InKnownState(podsStatus[k].phase))
        invariant forall k :: i <= k < |podsStatus| ==> podsStatus[k].Pristine(c)
        invariant Progress(Setting(c.w, cfg, found), c.j.s, lo, c.clock, signed0, c.j.effects.signed, es[..i])
      {
        ghost var j1, lo1, found1 := c.j, c.clock, found;
        last := lo1;
        ghost var seen;
        err, seen := VisitOne(c, cfg, podsStatus, i);
        found := AfterVisit(found1, es[i], seen);
        WithinThrough(old(c.j), j1, c.j, (i, i, 0), (1, 1, 0));
        NotVisitedYet(c.w, lo, pods0, found1, j1.s.pods, es, i);
        OneMoreFound(c.w, lo, lo1, pods0, found1, es, i, seen);
        OneMoreSucceeded(found1, j1.s.pods, c.j.s.pods, es[i], seen);
        OneMoreKept(pods0, j1.s.pods, c.j.s.pods, es, i);
        FinishedAppend(es, i);
        OneMoreSettled(Setting(c.w, cfg, found1), seen, j1.s, c.j.s, lo, lo1, c.clock, signed0, j1.effects.signed,
                       c.j.effects.signed, es, i, err);
        if err.Some? {
          WithinWidened(old(c.j), c.j, (i + 1, i + 1, 0), (|podsStatus|, |podsStatus|, 0));
          PrefixBounds(pods0, c.j.s.pods, es, i + 1);
          Broken(c.w, lo, c.clock, es, i, last, err.value);
          return;
        }
      }
      assert es[..|podsStatus|] == es;
      SettledSoFar(Setting(c.w, cfg, found), c.j.s, lo, c.clock, signed0, c.j.effects.signed, es);
    }

    static ghost method RecordValidation(c: Server, ps: seq<PodStatus>)
      requires c.Valid() && !TerminalLabel(c.j.s.wfStatus) && !c.j.s.pass.validated && c.j.s.pass.members == Members(ps)
      requires forall k :: 0 <= k < |ps| ==>
                 ps[k].Reported(c) && (IsSkippedOrOmitted(ps[k].phase) || InKnownState(ps[k].phase))
      requires forall p :: p in ps ==> Flagged(p).Problem().None?
      modifies c`j
      ensures c.Valid() && c.j == Record(old(c.j), Validate(c.clock, c.requests))
      ensures c.j.s == old(c.j.s).(pass := Endorsed(old(c.j.s.pass), c.clock, c.requests))
                && Within(old(c.j), c.j, 0, 0, 0)
      ensures forall k :: 0 <= k < |ps| ==> ps[k].Validated(c)
    {
      hide Good, Inv, World.NodeOk, MayValidate, Enabled;
      AllDone(c, ps);
      AllValidated(c, ps);
      c.Commit(Validate(c.clock, c.requests));
      forall k | 0 <= k < |ps|
        ensures ps[k].Validated(c)
      {
        assert old(ps[k].Validated(c));
      }
    }

    /** Visit every pod, then validate. */
    method Reconcile(c: Server, cfg: Config)
      returns (err: Option<Failure>, ghost found: map<string, PodRec>, ghost last: nat)
      requires Begun(c, podsStatus) && c.j.s.pass.cfg == cfg
      modifies c, podsStatus
      ensures c.Valid() && Within(old(c.j), c.j, |podsStatus|, |podsStatus|, 0)
      ensures c.clock <= old(c.clock) + 31 * Finished(Entries(podsStatus))
      ensures old(c.clock) + (if Judged(err) then Finished(Entries(podsStatus)) else 0) <= c.clock
      ensures old(c.requests) <= c.requests && SameRound(old(c.j.s), c.j.s)
      ensures found.Keys == old(c.j.s.pods).Keys && StillSucceeded(found, c.j.s.pods)
      ensures OthersKept(old(c.j.s.pods), c.j.s.pods, Entries(podsStatus))
      ensures Judged(err) ==> FoundBy(c.w, old(c.clock), old(c.j.s.pods), found, Entries(podsStatus))
      ensures c.j.s.pass == if err.None? then Endorsed(old(c.j.s.pass), c.clock, c.requests) else old(c.j.s.pass)
      ensures err.None? ==> forall k :: 0 <= k < |podsStatus| ==>
                podsStatus[k].Validated(c) && (podsStatus[k].pod != null ==> fresh(podsStatus[k].pod))
      ensures err == Some(NotReconciled) ==>
                exists p :: p in podsStatus && (p.phase.NodeRunning? || p.phase.NodePending?)
      ensures err.Some? && err.value.SigningFailed? ==> FreshError(c.j.s)
      ensures !Judged(err) ==> BrokenOff(c.w, old(c.clock), c.clock, Entries(podsStatus), last, err.value)
      ensures Undisturbed(c.w, old(c.clock), c.clock, found, Entries(podsStatus)) ==>
                && AsSettled(Setting(c.w, cfg, found), c.j.s, Entries(podsStatus))
                && c.j.effects.signed
                   == old(c.j.effects.signed) + Setting(c.w, cfg, found).AllSigns(Entries(podsStatus))
                && IsVerdict(Setting(c.w, cfg, found).Flags(Entries(podsStatus)), err)
    {
      hide Good, World.NodeOk, PodStatus.Reported, PodStatus.Pristine, PodStatus.Validated, Undisturbed,
           MayValidate, FreshError, IsVerdict, Settle, Enabled, FoundBy, BrokenOff, OthersKept,
           StillSucceeded, Finished;
      ghost var lo, pods0 := c.clock, c.j.s.pods;
      EntriesAsBegun(c, podsStatus);
      err, found, last := VisitAll(c, cfg);
      if err.Some? {
        return;
      }
      err := ValidateAllPodsReconciled();
      AsBegunFound(c.j.s.pass, c.w, lo, pods0, found, Entries(podsStatus));
      if Undisturbed(c.w, old(c.clock), c.clock, found, Entries(podsStatus)) {
        VerdictAsSpecified(c, Setting(c.w, cfg, found), podsStatus, err);
      }
      if err.None? {
        RecordValidation(c, podsStatus);
      } else {
        FirstProblem(c, podsStatus, err);
      }
    }

    /** The subjects of the statement: every validated artifact, in the order of the snapshot. */
    method CollectSubjects(c: Server) returns (subjects: seq<Subject>)
      requires c.Valid() && c.j.s.pass.members == Members(podsStatus)
      requires forall k :: 0 <= k < |podsStatus| ==> podsStatus[k].Validated(c)
      ensures subjects == SubjectsPlus(c.w, c.j.s)
      ensures Runs.Covers(c.w, c.j.s.pods, c.j.s.pass.members, subjects)
    {
      hide Good, IsDigestRef, Runs.Covers;
      subjects := [];
      for k := 0 to |podsStatus|
        invariant subjects == Subjects(c.w, c.j.s.pods, Members(podsStatus[..k]))
      {
        var p := podsStatus[k];
        assert p.Validated(c);
        MembersAppend(podsStatus, k);
        SubjectsAppend(c.w, c.j.s.pods, Members(podsStatus[..k]), p.name);
        if p.artifactsFound && p.signed {
          var ref := ValueText(p.artifactInfo);
          if IsDigestRef(c.w.parse, ref) {
            subjects := subjects + [SubjectOf(c.w.parse, ref)];
          }
        }
      }
      assert podsStatus[..|podsStatus|] == podsStatus;
      InvOf(c);
      Runs.SubjectsCover(c.w, c.j.s);
    }

    /** One turn of the attestation loop. */
    static method AttestNth(c: Server, cfg: Config, wf: Object, ps: seq<PodStatus>, i: nat, subjects: seq<Subject>)
      returns (err: Option<Failure>, panicked: bool)
      requires i < |ps| && DistinctPods(ps) && wf.key == WorkflowObj && c.j.s.pass.cfg == cfg
      requires c.Valid() && Attesting(c.w, c.j.s, wf.labels, wf.annotations, subjects)
      requires forall k :: i <= k < |ps| ==> ps[k].Validated(c)
      requires forall k :: 0 <= k < i ==> Attested(c.j.s, ps[k])
      modifies c, ps[i].pod, wf
      ensures c.Valid() && Attesting(c.w, c.j.s, wf.labels, wf.annotations, subjects)
      ensures Within(old(c.j), c.j, 0, 0, 1) && old(c.clock) <= c.clock <= old(c.clock) + 6
      ensures c.j.s.pass == old(c.j.s.pass).(stmt := c.j.s.pass.stmt, refused := c.j.s.pass.refused)
                && wf.nodes == old(wf.nodes)
      ensures ProvenanceOnly(old(c.j.s), c.j.s) && SameRound(old(c.j.s), c.j.s)
      ensures forall k :: i < k < |ps| ==> ps[k].Validated(c)
      ensures panicked <==> IsSkippedOrOmitted(ps[i].phase)
      ensures panicked ==> err.None?
      ensures !panicked && err.None? ==> forall k :: 0 <= k <= i ==> Attested(c.j.s, ps[k])
      ensures OthersKept(old(c.j.s.pods), c.j.s.pods, [EntryOf(ps[i])]) && old(c.requests) <= c.requests
      ensures StepFailed(c.w, old(c.j.s.pass), c.j.s.pass, old(c.clock), c.clock, err)
      ensures !panicked && err.None? && c.w.StableNet() ==> AttestedAs(c.w, cfg, old(c.j.s), c.j.s, ps[i])
      ensures c.w.StableNet() && Provenance.GenerationOk(c.w) ==> err != Some(GenerationFailed)
    {
      hide Good, Attesting, World.NodeOk, World.Ok, Refusal, FinishedPod;
      forall q
        ensures FinishedPod([EntryOf(ps[i])], q) <==> IsTerminal(ps[i].phase) && ps[i].name == q
      {
        OneFinished(EntryOf(ps[i]), q);
      }
      err, panicked := ps[i].HandleProvenanceAttachment(c, cfg, wf, subjects);
      forall k | i < k < |ps|
        ensures ps[k].Validated(c)
      {
        assert old(ps[k].Validated(c));
      }
    }

    /** One statement for all pods, attested pod by pod. */
    method AttestArtifacts(c: Server, cfg: Config, wf: Object) returns (err: Option<Failure>, panicked: bool)
      requires c.Valid() && DistinctPods(podsStatus) && wf.key == WorkflowObj && c.j.s.pass.cfg == cfg
      requires c.j.s.pass.members == Members(podsStatus) && !TerminalLabel(c.j.s.wfStatus)
      requires c.j.s.pass.validated && !c.j.s.pass.failed && c.j.s.pass.stmt.None?
      requires forall k :: 0 <= k < |podsStatus| ==> podsStatus[k].Validated(c)
      modifies c, wf, set k | 0 <= k < |podsStatus| && podsStatus[k].pod != null :: podsStatus[k].pod
      ensures c.Valid() && Within(old(c.j), c.j, 0, 0, |podsStatus|)
      ensures old(c.clock) <= c.clock <= old(c.clock) + 6 * |podsStatus|
      ensures c.j.s.pass == old(c.j.s.pass).(stmt := c.j.s.pass.stmt, refused := c.j.s.pass.refused)
                && wf.nodes == old(wf.nodes)
      ensures ProvenanceOnly(old(c.j.s), c.j.s) && SameRound(old(c.j.s), c.j.s)
      ensures err.None? ==> (panicked <==> Hollow(podsStatus))
      ensures err.None? && !panicked ==>
                forall p :: p in c.j.s.pass.members ==> p in c.j.s.pods && c.j.s.pods[p].own.provenance.Some?
      ensures err.Some? ==> !panicked
      ensures StepFailed(c.w, old(c.j.s.pass), c.j.s.pass, old(c.clock), c.clock, err)
      ensures old(c.requests) <= c.requests
      ensures OthersKept(old(c.j.s.pods), c.j.s.pods, old(Entries(podsStatus)))
      ensures c.w.StableNet() && Provenance.GenerationOk(c.w) ==> err != Some(GenerationFailed)
      ensures c.j.s.pass.stmt.Some? ==>
                Runs.Covers(c.w, old(c.j.s.pods), c.j.s.pass.members, c.j.s.pass.stmt.value.subjects)
      ensures err.None? && !panicked && c.w.StableNet() ==>
                forall k :: 0 <= k < |podsStatus| ==> AttestedAs(c.w, cfg, old(c.j.s), c.j.s, podsStatus[k])
    {
      hide Good, Attesting, World.NodeOk, World.Ok, SubjectsPlus, PodStatus.Validated, WithProvenance, TerminalLabel,
           IsSkippedOrOmitted, World.StableNet, Provenance.GenerationOk, Within, ProvenanceOnly, Attested, Members,
           OthersKept, Refusal, Finished, Runs.Covers;
      ghost var es := Entries(podsStatus);
      NothingFound(c.w, 0, c.j.s.pods);
      WithinReflexive(c.j);
      ProvenanceReflexive(c.j.s);
      var subjects := CollectSubjects(c);
      StartAttesting(c.w, c.j.s, wf.labels, wf.annotations, subjects);
      err, panicked := None, false;
      for i := 0 to |podsStatus|
        invariant c.Valid() && Attesting(c.w, c.j.s, wf.labels, wf.annotations, subjects)
        invariant Within(old(c.j), c.j, 0, 0, i) && old(c.clock) <= c.clock <= old(c.clock) + 6 * i
        invariant c.j.s.pass == old(c.j.s.pass).(stmt := c.j.s.pass.stmt, refused := c.j.s.pass.refused)
                    && wf.nodes == old(wf.nodes)
        invariant ProvenanceOnly(old(c.j.s), c.j.s) && SameRound(old(c.j.s), c.j.s)
        invariant c.j.s.pods.Keys == old(c.j.s.pods).Keys
        invariant forall k :: i <= k < |podsStatus| ==> podsStatus[k].Validated(c)
        invariant forall k :: 0 <= k < i ==> Attested(c.j.s, podsStatus[k])
        invariant forall k :: i <= k < |podsStatus| && es[k].name in c.j.s.pods ==>
                    c.j.s.pods[es[k].name] == old(c.j.s.pods[es[k].name])
        invariant old(c.requests) <= c.requests && OthersKept(old(c.j.s.pods), c.j.s.pods, es[..i])
        invariant c.w.StableNet() ==> forall k :: 0 <= k < i ==> AttestedAs(c.w, cfg, old(c.j.s), c.j.s, podsStatus[k])
        invariant err.None? && !panicked && c.j.s.pass.refused == old(c.j.s.pass.refused)
      {
        ghost var j1 := c.j;
        err, panicked := AttestNth(c, cfg, wf, podsStatus, i, subjects);
        WithinThrough(old(c.j), j1, c.j, (0, 0, i), (0, 0, 1));
        ProvenanceThrough(old(c.j.s), j1.s, c.j.s);
        OtherEntries(j1.s.pods, c.j.s.pods, es, i);
        OneMoreKept(old(c.j.s.pods), j1.s.pods, c.j.s.pods, es, i);
        StatementSubjects(c.w, c.j.s, wf.labels, wf.annotations, subjects);
        if panicked || err.Some? {
          PrefixBounds(old(c.j.s.pods), c.j.s.pods, es, i + 1);
          WithinWidened(old(c.j), c.j, (0, 0, i + 1), (0, 0, |podsStatus|));
          return;
        }
      }
      assert es[..|podsStatus|] == es;
      StatementSubjects(c.w, c.j.s, wf.labels, wf.annotations, subjects);
      AllAttested(c.j.s, podsStatus);
    }
  }

  /** The visits were broken off by the error of one of them, which began after `last` calls. It is a conflict or
      not-found if and only if that is how the last call ended, and that call was not the visit's first, which
      fetches the pod. */
  ghost predicate BrokenOff(w: World, lo: nat, hi: nat, es: seq<Entry>, last: nat, e: Failure) {
    && (exists i: nat :: i < |es| && VisitCall(lo, es, i, last))
    && last <= hi
    && (e == ConflictOrNotFound <==> last + 1 < hi && w.tape(hi - 1).reply in {Conflict, NotFound})
  }

  lemma Broken(w: World, lo: nat, hi: nat, es: seq<Entry>, i: nat, last: nat, e: Failure)
    requires i < |es| && lo + Finished(es[..i]) <= last <= lo + 31 * Finished(es[..i]) && last <= hi
    requires e == ConflictOrNotFound <==> last + 1 < hi && w.tape(hi - 1).reply in {Conflict, NotFound}
    ensures BrokenOff(w, lo, hi, es, last, e)
  {
    assert VisitCall(lo, es, i, last);
  }

  /** Still the same pass, under the same label. */
  ghost predicate StillPass(s: State, s': State) {
    s'.pass == s.pass && SameRound(s, s')
  }

  ghost predicate SameRound(s: State, s': State) {
    s'.passNo == s.passNo && s'.wfStatus == s.wfStatus
  }

  /** The pass, validated after so many calls and requests. */
  function Endorsed(pass: Pass, calls: nat, requests: nat): Pass {
    pass.(validated := true, calls := calls, requests := requests)
  }

  /** The pods' annotations are as before but for the provenance. */
  ghost predicate ProvenanceOnly(s: State, s': State) {
    s'.pods.Keys == s.pods.Keys
    && forall p :: p in s.pods ==>
         && s'.pods[p].own == s.pods[p].own.(provenance := s'.pods[p].own.provenance)
         && (s.pods[p].succeeded ==> s'.pods[p].succeeded)
  }

  lemma ProvenanceReflexive(s: State)
    ensures ProvenanceOnly(s, s)
  {
  }

  lemma ProvenanceThrough(s: State, s1: State, s2: State)
    requires ProvenanceOnly(s, s1) && ProvenanceOnly(s1, s2)
    ensures ProvenanceOnly(s, s2) && s2.pods.Keys == s1.pods.Keys == s.pods.Keys
  {
  }

  ghost predicate Attested(s: State, p: PodStatus) {
    !IsSkippedOrOmitted(p.phase) && p.name in s.pods && s.pods[p.name].own.provenance.Some?
  }

  /** The pod is as the provenance step leaves it when nothing fails. */
  ghost predicate AttestedAs(w: World, cfg: Config, s: State, s': State, p: PodStatus) {
    p.name in s.pods && p.name in s'.pods && s'.pods[p.name].own == WithProvenance(w, cfg, s.pods[p.name].own)
  }

  lemma AllAttested(s: State, ps: seq<PodStatus>)
    requires forall k :: 0 <= k < |ps| ==> Attested(s, ps[k])
    ensures !Hollow(ps)
    ensures forall p :: p in Members(ps) ==> p in s.pods && s.pods[p].own.provenance.Some?
  {
    forall p | p in Members(ps)
      ensures p in s.pods && s.pods[p].own.provenance.Some?
    {
      MembersOf(ps, p);
      var k :| 0 <= k < |ps| && ps[k].name == p;
      assert Attested(s, ps[k]);
    }
  }

  lemma StartAttesting(w: World, s: State, labels: Meta, annotations: Meta, subjects: seq<Subject>)
    requires !TerminalLabel(s.wfStatus) && s.pass.validated && !s.pass.failed && s.pass.stmt.None?
    requires subjects == SubjectsPlus(w, s)
    ensures Attesting(w, s, labels, annotations, subjects)
  {
  }

  lemma StatementSubjects(w: World, s: State, labels: Meta, annotations: Meta, subjects: seq<Subject>)
    requires Attesting(w, s, labels, annotations, subjects)
    ensures s.pass.stmt.Some? ==> s.pass.stmt.value.subjects == subjects
  {
  }

  lemma MembersAppend(ps: seq<PodStatus>, k: nat)
    requires k < |ps|
    ensures Members(ps[..k + 1]) == Members(ps[..k]) + Member(ps[k])
  {
    assert ps[..k + 1] == ps[..k] + [ps[k]];
    ConcatAppend((p: PodStatus) => Member(p), ps[..k], ps[k]);
  }

  lemma SubjectsAppend(w: World, pods: map<string, PodRec>, members: seq<string>, p: string)
    ensures Subjects(w, pods, members + [p]) == Subjects(w, pods, members) + SubjectsAt(w, pods, p)
    ensures Subjects(w, pods, members + []) == Subjects(w, pods, members)
  {
    assert members + [] == members;
    ConcatAppend((q: string) => SubjectsAt(w, pods, q), members, p);
  }

  lemma EntriesAsBegun(c: Server, ps: seq<PodStatus>)
    requires Begun(c, ps)
    ensures AsBegun(c.j.s.pass, c.j.s.pods, Entries(ps))
  {
  }

  /** What the flags of a visited pod mean. */
  lemma ReportedProblem(c: Server, p: PodStatus)
    requires c.Valid() && p.Reported(c) && (IsSkippedOrOmitted(p.phase) || InKnownState(p.phase))
    ensures Flagged(p).Problem() == Some(NotReconciled) <==> p.phase.NodeRunning? || p.phase.NodePending?
    ensures Flagged(p).Problem().Some? && Flagged(p).Problem().value.SigningFailed? ==>
              && IsTerminal(p.phase) && p.name in c.j.s.pods && p.name in c.j.s.pass.entry
              && c.j.s.pods[p.name].own.signed == Some(Error) && c.j.s.pods[p.name].own.status == Some(Error)
              && !Final(c.j.s.pass.entry[p.name])
    ensures Flagged(p).Problem().None? && !IsSkippedOrOmitted(p.phase) ==>
              && p.name in c.j.s.pods && p.name in c.j.s.pass.entry && Final(c.j.s.pods[p.name].own.status)
              && (c.j.s.pods[p.name].own.status == Some(Error) ==> c.j.s.pass.entry[p.name] == Some(Error))
  {
    hide Good, Inv;
    if IsTerminal(p.phase) {
      PodInvOf(c, p.name);
    }
  }

  lemma AllDone(c: Server, ps: seq<PodStatus>)
    requires c.Valid() && !TerminalLabel(c.j.s.wfStatus) && !c.j.s.pass.validated && c.j.s.pass.members == Members(ps)
    requires forall k :: 0 <= k < |ps| ==>
               ps[k].Reported(c) && (IsSkippedOrOmitted(ps[k].phase) || InKnownState(ps[k].phase))
    requires forall p :: p in ps ==> Flagged(p).Problem().None?
    ensures forall calls, requests :: Enabled(c.w, c.j.s, Validate(calls, requests))
  {
    hide Good;
    forall q | q in c.j.s.pass.members
      ensures && q in c.j.s.pods && q in c.j.s.pass.entry && Final(c.j.s.pods[q].own.status)
              && (c.j.s.pods[q].own.status == Some(Error) ==> c.j.s.pass.entry[q] == Some(Error))
    {
      MembersOf(ps, q);
      var k :| 0 <= k < |ps| && !IsSkippedOrOmitted(ps[k].phase) && ps[k].name == q;
      ReportedProblem(c, ps[k]);
    }
  }

  lemma AllValidated(c: Server, ps: seq<PodStatus>)
    requires c.Valid() && c.j.s.pass.members == Members(ps)
    requires forall k :: 0 <= k < |ps| ==>
               ps[k].Reported(c) && (IsSkippedOrOmitted(ps[k].phase) || InKnownState(ps[k].phase))
    requires forall p :: p in ps ==> Flagged(p).Problem().None?
    ensures forall k :: 0 <= k < |ps| ==> ps[k].Validated(c)
  {
    hide Good;
    forall k | 0 <= k < |ps|
      ensures ps[k].Validated(c)
    {
      MembersOf(ps, ps[k].name);
      assert ps[k] in ps;
    }
  }

  lemma FirstProblem(c: Server, ps: seq<PodStatus>, err: Option<Failure>)
    requires c.Valid() && c.j.s.pass.members == Members(ps)
    requires forall k :: 0 <= k < |ps| ==>
               ps[k].Reported(c) && (IsSkippedOrOmitted(ps[k].phase) || InKnownState(ps[k].phase))
    requires err.Some? && exists k :: 0 <= k < |ps| && Flagged(ps[k]).Problem() == err
    ensures err == Some(NotReconciled) ==> exists p :: p in ps && (p.phase.NodeRunning? || p.phase.NodePending?)
    ensures err.value.SigningFailed? ==> FreshError(c.j.s)
    ensures err.value in {NotReconciled} || err.value.SigningFailed?
  {
    hide Good;
    var k :| 0 <= k < |ps| && Flagged(ps[k]).Problem() == err;
    ReportedProblem(c, ps[k]);
    MembersOf(ps, ps[k].name);
    assert ps[k] in ps;
  }

  lemma VerdictAsSpecified(c: Server, setting: Setting, ps: seq<PodStatus>, err: Option<Failure>)
    requires c.Valid() && setting.w == c.w && AsSettled(setting, c.j.s, Entries(ps))
               && AsBegun(c.j.s.pass, setting.pods, Entries(ps))
    requires forall k :: 0 <= k < |ps| ==>
               ps[k].Reported(c) && (IsSkippedOrOmitted(ps[k].phase) || InKnownState(ps[k].phase))
    requires err.None? <==> forall p :: p in ps ==> Flagged(p).Problem().None?
    requires err.Some? ==> exists k :: 0 <= k < |ps| && Flagged(ps[k]).Problem() == err
                                       && forall i :: 0 <= i < k ==> Flagged(ps[i]).Problem().None?
    ensures IsVerdict(setting.Flags(Entries(ps)), err)
  {
    hide Good, Settle;
    forall k | 0 <= k < |ps|
      ensures setting.Flags(Entries(ps))[k].Problem() == Flagged(ps[k]).Problem()
    {
      assert EntryOf(ps[k]) in Entries(ps);
      SameProblem(c, setting, ps[k]);
    }
    if err.None? {
      forall k | 0 <= k < |ps|
        ensures Flagged(ps[k]).Problem().None?
      {
        assert ps[k] in ps;
      }
    }
  }

  lemma SameProblem(c: Server, setting: Setting, p: PodStatus)
    requires c.Valid() && setting.w == c.w && p.Reported(c) && (IsSkippedOrOmitted(p.phase) || InKnownState(p.phase))
    requires IsTerminal(p.phase) ==>
               && setting.Visited(EntryOf(p)) && p.name in c.j.s.pods
               && c.j.s.pods[p.name].own == setting.After(EntryOf(p))
               && p.name in c.j.s.pass.entry && c.j.s.pass.entry[p.name] == setting.pods[p.name].own.status
    ensures setting.FlagOf(EntryOf(p)).Problem() == Flagged(p).Problem()
  {
    hide Good, Settle;
  }

  /** The snapshot is the current pass's, and no pod has been visited. */
  ghost predicate Begun(c: Server, ps: seq<PodStatus>)
    reads c, ps
  {
    && c.Valid() && DistinctPods(ps) && c.j.s.pass.members == Members(ps)
    && !c.j.s.pass.validated && !TerminalLabel(c.j.s.wfStatus)
    && forall k :: 0 <= k < |ps| ==> ps[k].Pristine(c) && c.w.NodeOk(ps[k].name, ps[k].phase, ps[k].params)
  }

  function Flagged(p: PodStatus): Flag
    reads p
  {
    Flag(p.reconciliation, p.artifactsFound, p.signed, p.display)
  }
}
