/** Concrete worlds in which the controller, undisturbed, does what one would not expect of it. The workflow "w"
    has two Pod nodes: one that has succeeded with an image, and one that runs for a while and then fails. */
module Witness {
  import opened Metadata
  import opened Nodes
  import opened Environment
  import opened Protocol
  import opened Cluster
  import opened PassSpec
  import opened PodStatus
  import opened Controller
  import opened FaultFree
  import Provenance
  import Runs
  import SbomOci

  const IMAGE := "registry/app@sha256:0"
  const POD_A := "w-a-1"
  const POD_B := "w-b-2"

  /** From which call on node "b" is shown as failed, from which call on the pods are Succeeded, whether signing
      succeeds, whether SBOMs are wanted, and what the image's manifest is. */
  datatype Scene = Scene(bDone: nat, succeededFrom: nat, signs: bool, sboms: bool, manifest: Manifest)

  function NodesAt(sc: Scene, i: nat): map<string, Node> {
    map["w-1" := Node(true, "a", NodeSucceeded, [Param("OCI", IMAGE)], "a"),
        "w-2" := Node(true, "b", if i < sc.bDone then NodeRunning else NodeError, [], "b")]
  }

  /** No call fails; what can fail is signing. The workflow is enabled. */
  function Setup(sc: Scene): World {
    World("w", None,
          map[POD_A := Fate(false, [Param("OCI", IMAGE)]), POD_B := Fate(true, [])],
          {},
          (s: string) => if s == IMAGE then Some(Ref("registry/app", Some("sha256:0"))) else None,
          (ref: string) => sc.manifest,
          (i: nat) => Outcome(Ok, map[EnableKey := Text("true")], map[], i >= sc.succeededFrom, NodesAt(sc, i)),
          (op: NetOp, ref: string, i: nat) => NetReply(op != SignOp || sc.signs, op != SignOp || sc.signs))
  }

  function ConfigOf(sc: Scene): Config {
    Config(SecretSigner, sc.sboms)
  }

  const ENTRY_A := Entry(POD_A, "a", NodeSucceeded)

  function EntryB(done: bool): Entry {
    Entry(POD_B, "b", if done then NodeError else NodeRunning)
  }

  lemma PodNames()
    ensures WellFormedId("w", "w-1") && FormatPodName("w", "a", "w-1") == POD_A
    ensures WellFormedId("w", "w-2") && FormatPodName("w", "b", "w-2") == POD_B
    ensures POD_A != POD_B
  {
    assert TrimPrefix("w-1", "w-") == "1" && TrimPrefix("w-2", "w-") == "2";
    assert POD_A[2] != POD_B[2];
  }

  lemma Discovered(sc: Scene)
    ensures Setup(sc).Artifact(POD_A) == Text(IMAGE) && IMAGE != ValueText(NoArtifacts)
  {
    assert HasPrefix("OCI", "OCI");
    assert LastOci([Param("OCI", IMAGE)]) == Some(IMAGE);
    assert IMAGE[0] != ValueText(NoArtifacts)[0];
  }

  /** The subject of the image, spelled out. */
  lemma SubjectOfImage(sc: Scene, s: Subject)
    ensures Identifies(Setup(sc).parse, IMAGE, s) <==> s == Subject("registry/app", "0")
  {
    assert HasPrefix("sha256:0", "sha256:");
    if "sha256:" + s.sha256 == "sha256:0" {
      assert s.sha256 == ("sha256:" + s.sha256)[7..] == "sha256:0"[7..] == "0";
    }
  }

  lemma SceneOk(sc: Scene)
    ensures Setup(sc).Ok() && Setup(sc).StableNet() && Provenance.GenerationOk(Setup(sc))
  {
    hide FormatPodName, WellFormedId;
    PodNames();
    Discovered(sc);
  }

  lemma TwoEntries(sc: Scene, i: nat, es: seq<Entry>)
    requires Snapshot(Setup(sc), NodesAt(sc, i), es)
    ensures es == [ENTRY_A, EntryB(i >= sc.bDone)] || es == [EntryB(i >= sc.bDone), ENTRY_A]
  {
    hide FormatPodName;
    PodNames();
    var b := EntryB(i >= sc.bDone);
    var nodes := NodesAt(sc, i);
    assert NodeEntry(Setup(sc), "w-1", nodes["w-1"]) == ENTRY_A;
    assert NodeEntry(Setup(sc), "w-2", nodes["w-2"]) == b;
    assert ENTRY_A in es && b in es;
    forall k | 0 <= k < |es|
      ensures es[k] == ENTRY_A || es[k] == b
    {
      assert es[k] in es;
    }
    AtMostTwo(es, ENTRY_A, b);
  }

  lemma AtMostTwo(es: seq<Entry>, a: Entry, b: Entry)
    requires DistinctNames(es) && forall k :: 0 <= k < |es| ==> es[k] == a || es[k] == b
    ensures |es| <= 2
  {
    hide DistinctNames;
    if |es| > 2 {
      ThreeNames(es);
    }
  }

  lemma ThreeNames(es: seq<Entry>)
    requires DistinctNames(es) && |es| > 2
    ensures es[0].name != es[1].name && es[1].name != es[2].name && es[0].name != es[2].name
  {
  }

  /** What is known of a pass over this snapshot. */
  ghost predicate Passed(sc: Scene, s0: State, s: State, lo: nat, hi: nat, signed: seq<string>, done: bool, rep: Report,
                         view: View) {
    && (rep.entries == [ENTRY_A, EntryB(done)] || rep.entries == [EntryB(done), ENTRY_A])
    && AsSpecified(Setting(Setup(sc), ConfigOf(sc), view.found), s, signed, rep) && !rep.dropped
    && FoundBy(Setup(sc), view.start, s0.pods, view.found, rep.entries) && StillSucceeded(view.found, s.pods)
    && lo + 3 <= view.start <= lo + 4 && view.start + 1 <= hi <= lo + 88
  }

  /** One reconciliation; all calls that can show the snapshot agree on node "b". */
  method Pass(c: Server, ghost sc: Scene, cfg: Config)
    returns (rep: Report, ghost view: View, ghost signed: seq<string>)
    requires c.Valid() && c.w == Setup(sc) && cfg == ConfigOf(sc) && !TerminalLabel(c.j.s.wfStatus)
    requires c.clock + 4 <= sc.bDone || sc.bDone <= c.clock
    modifies c
    ensures c.Valid()
    ensures Passed(sc, old(c.j.s), c.j.s, old(c.clock), c.clock, signed, sc.bDone <= old(c.clock), rep, view)
  {
    hide Server.Valid, AsSpecified, FoundBy, StillSucceeded, OthersKept, Caused, Listed, Snapshot, FormatPodName,
         Server.Shown, Undisturbed, Setup, HasHollow, Finished, LastRefused, Passed, World.StableNet, World.Ok,
         Provenance.GenerationOk;
    SceneOk(sc);
    NoFailure(c, sc);
    AllPods(c);
    rep, view := Reconcile(c, Some(cfg));
    signed := c.j.effects.signed[|old(c.j.effects.signed)|..];
    SeenNodes(c, sc, old(c.clock), rep, view.start);
    UndisturbedScene(sc, old(c.clock), c.clock, view.found, rep.entries, sc.bDone <= old(c.clock));
    JudgedAs(Setting(c.w, cfg, view.found), c.j.s, signed, rep);
    FinishedA(rep.entries, sc.bDone <= old(c.clock));
    Collected(sc, old(c.j.s), c.j.s, old(c.clock), c.clock, signed, sc.bDone <= old(c.clock), rep, view);
  }

  lemma Collected(sc: Scene, s0: State, s: State, lo: nat, hi: nat, signed: seq<string>, done: bool, rep: Report,
                  view: View)
    requires rep.entries == [ENTRY_A, EntryB(done)] || rep.entries == [EntryB(done), ENTRY_A]
    requires AsSpecified(Setting(Setup(sc), ConfigOf(sc), view.found), s, signed, rep) && !rep.dropped
    requires FoundBy(Setup(sc), view.start, s0.pods, view.found, rep.entries) && StillSucceeded(view.found, s.pods)
    requires lo + 3 <= view.start <= lo + 4 && view.start + 1 <= hi <= lo + 88
    ensures Passed(sc, s0, s, lo, hi, signed, done, rep, view)
  {
    hide AsSpecified, FoundBy, StillSucceeded;
  }

  lemma NoFailure(c: Server, sc: Scene)
    requires c.w == Setup(sc)
    ensures forall lo: nat, hi: nat :: c.Quiet(lo, hi)
    ensures forall i: nat :: At(c.w.tape(i).labels, EnableKey) == Some(ENABLED)
  {
  }

  /** The snapshot of a pass whose first four calls agree on node "b". */
  lemma SeenNodes(c: Server, sc: Scene, lo: nat, rep: Report, start: nat)
    requires c.w == Setup(sc) && (lo + 4 <= sc.bDone || sc.bDone <= lo)
    requires start <= lo + 4 && c.Shown(rep.nodes, lo, start)
    requires rep.entries != [] ==> Snapshot(c.w, rep.nodes, rep.entries)
    requires rep.entries == [] ==> forall id :: id in rep.nodes ==> !rep.nodes[id].isPod
    ensures rep.entries == [ENTRY_A, EntryB(sc.bDone <= lo)] || rep.entries == [EntryB(sc.bDone <= lo), ENTRY_A]
  {
    hide Snapshot;
    var i :| lo <= i < start && c.w.tape(i).nodes == rep.nodes;
    assert "w-1" in rep.nodes && rep.nodes["w-1"].isPod;
    TwoEntries(sc, i, rep.entries);
  }

  lemma AllPods(c: Server)
    requires c.Valid()
    ensures c.j.s.pods.Keys == c.w.fates.Keys
  {
  }

  lemma JudgedAs(setting: Setting, s: State, signed: seq<string>, rep: Report)
    requires AsSpecified(setting, s, signed, rep)
    ensures Judged(rep.verdict)
  {
    hide Settle, LeftSettled, IsVerdict;
  }

  lemma FinishedA(es: seq<Entry>, done: bool)
    requires es == [ENTRY_A, EntryB(done)] || es == [EntryB(done), ENTRY_A]
    ensures Finished(es) >= 1 && (!done ==> Finished(es) == 1)
    ensures forall i :: 0 <= i < 2 && es[i] == ENTRY_A && !done ==> Finished(es[..i]) == 0
  {
    assert Finished(es[..0]) == 0;
    FinishedAppend(es, 0);
    FinishedAppend(es, 1);
    assert es[..2] == es;
  }

  lemma UndisturbedScene(sc: Scene, lo: nat, hi: nat, pods: map<string, PodRec>, es: seq<Entry>, done: bool)
    requires pods.Keys == Setup(sc).fates.Keys
    requires es == [ENTRY_A, EntryB(done)] || es == [EntryB(done), ENTRY_A]
    ensures Undisturbed(Setup(sc), lo, hi, pods, es)
  {
  }

  /** How the snapshot is judged: the first problem of its two entries. */
  lemma JudgedByFirst(setting: Setting, a: Entry, b: Entry, verdict: Option<Failure>)
    requires IsVerdict(setting.Flags([a, b]), verdict)
    ensures verdict == if setting.FlagOf(a).Problem().Some? then setting.FlagOf(a).Problem()
              else setting.FlagOf(b).Problem()
  {
    hide Setting.FlagOf;
    var fs := setting.Flags([a, b]);
    assert fs == [setting.FlagOf(a), setting.FlagOf(b)];
    assert fs[0] == setting.FlagOf(a) && fs[1] == setting.FlagOf(b);
  }

  // ---------- the failure that is forgotten ----------

  /** The signer refuses the image, and node "b" is done from the fifth call on. */
  const FORGOTTEN := Scene(4, 0, false, false, Manifest(OtherMedia(""), []))

  const SIGNED_FAILED := Own(Some(Error), Some(Text(IMAGE)), Some(Error), None, None)

  lemma SettledA(sc: Scene, seen: bool)
    requires !sc.sboms
    ensures var w := Setup(sc);
            Settle(w, ConfigOf(sc), w.fates[POD_A], seen, BLANK)
            == if !seen then BLANK.(status := Some(Skipped))
               else if sc.signs then Own(Some(Completed), Some(Text(IMAGE)), Some(Completed), None, None)
               else SIGNED_FAILED
  {
    Discovered(sc);
  }

  /** When the pods' visits begin with call `start`, pod "a" is the first with calls of its own. */
  lemma SeenFirst(sc: Scene, s0: State, found: map<string, PodRec>, start: nat, done: bool, es: seq<Entry>)
    requires es == [ENTRY_A, EntryB(done)] || es == [EntryB(done), ENTRY_A]
    requires FoundBy(Setup(sc), start, s0.pods, found, es) && POD_A in s0.pods
    ensures POD_A in found && found[POD_A].own == s0.pods[POD_A].own
    ensures !done ==> found[POD_A].succeeded == (s0.pods[POD_A].succeeded || start >= sc.succeededFrom)
    ensures start >= sc.succeededFrom ==> found[POD_A].succeeded
  {
    hide FinishedPod, Finished;
    FinishedA(es, done);
    var i := if es[0] == ENTRY_A then 0 else 1;
    assert es[i] == ENTRY_A;
    var k :| VisitCall(start, es, i, k)
             && found[es[i].name].succeeded == (s0.pods[es[i].name].succeeded || Setup(sc).tape(k).succeeded);
  }

  /** What a pass of these makes of pod "a", and how "a" and a running "b" are judged. */
  lemma FlagsOf(sc: Scene, setting: Setting)
    requires setting.w == Setup(sc) && setting.cfg == ConfigOf(sc) && !sc.sboms
    requires POD_A in setting.pods && setting.pods[POD_A].own == BLANK
    ensures setting.Visited(ENTRY_A)
    ensures var seen := setting.pods[POD_A].succeeded;
            && setting.After(ENTRY_A) == Settle(setting.w, setting.cfg, setting.w.fates[POD_A], seen, BLANK)
            && setting.FlagOf(ENTRY_A) == Flag(true, seen, seen && sc.signs, "a")
    ensures setting.FlagOf(EntryB(false)) == Flag(false, false, false, "b")
  {
    SettledA(sc, setting.pods[POD_A].succeeded);
    hide Settle;
  }

  lemma FirstForgets(s0: State, s: State, hi: nat, signed: seq<string>, rep: Report, view: View)
    requires s0 == Init(Setup(FORGOTTEN)) && Passed(FORGOTTEN, s0, s, 0, hi, signed, false, rep, view)
    ensures POD_A in s.pods && s.pods[POD_A].own == SIGNED_FAILED && POD_B in s.pods && s.pods[POD_B].own == BLANK
    ensures rep.entries[0] == ENTRY_A ==> s.wfStatus == Some(Error)
    ensures rep.entries[0] != ENTRY_A ==> rep.verdict == Some(NotReconciled) && s.wfStatus == Some(InProgress)
    ensures hi >= 4
  {
    hide IsVerdict, Settle, FinishedPod, Setup, Setting.FlagOf, WithProvenance;
    var setting := Setting(Setup(FORGOTTEN), ConfigOf(FORGOTTEN), view.found);
    Untried(FORGOTTEN);
    SeenFirst(FORGOTTEN, s0, view.found, view.start, false, rep.entries);
    SettledA(FORGOTTEN, true);
    FlagsOf(FORGOTTEN, setting);
    JudgedByFirst(setting, rep.entries[0], rep.entries[1], rep.verdict);
    assert rep.entries[0] in rep.entries && rep.entries[1] in rep.entries;
    NotB(rep.entries);
  }

  lemma Untried(sc: Scene)
    ensures var s := Init(Setup(sc));
            && s.pods.Keys == {POD_A, POD_B} && s.pods[POD_A] == BlankRec(false) && s.pods[POD_B] == BlankRec(false)
  {
  }

  lemma NotB(es: seq<Entry>)
    requires es == [ENTRY_A, EntryB(false)] || es == [EntryB(false), ENTRY_A]
    ensures !FinishedPod(es, POD_B)
  {
    PodNames();
  }

  /** The second pass: node "b" has failed, pod "a" passes for signed. */
  lemma SecondCompletes(s0: State, s: State, lo: nat, hi: nat, signed: seq<string>, rep: Report, view: View)
    requires Passed(FORGOTTEN, s0, s, lo, hi, signed, true, rep, view)
    requires POD_A in s0.pods && s0.pods[POD_A].own == SIGNED_FAILED && POD_B in s0.pods && s0.pods[POD_B].own == BLANK
    ensures s.wfStatus == Some(Completed) && rep.verdict.None?
    ensures POD_A in s.pods && s.pods[POD_A].own == SIGNED_FAILED.(provenance := s.pods[POD_A].own.provenance)
  {
    hide IsVerdict, FinishedPod, FoundBy, StillSucceeded, Setting.Flags, Setting.FlagOf, Settle, Setup, OthersKept,
         WithProvenance;
    var setting := Setting(Setup(FORGOTTEN), ConfigOf(FORGOTTEN), view.found);
    var es := rep.entries;
    SameOwn(FORGOTTEN, s0, view, es);
    NoProblems(setting);
    JudgedByFirst(setting, es[0], es[1], rep.verdict);
    assert es[0] in es && es[1] in es;
    assert ENTRY_A in es;
    assert !HasHollow(es);
    ProvenanceKeeps(setting.w, setting.cfg, setting.After(ENTRY_A));
  }

  lemma NoProblems(setting: Setting)
    requires setting.w == Setup(FORGOTTEN)
    requires POD_A in setting.pods && setting.pods[POD_A].own == SIGNED_FAILED
    requires POD_B in setting.pods && setting.pods[POD_B].own == BLANK
    ensures setting.FlagOf(ENTRY_A).Problem().None? && setting.FlagOf(EntryB(true)).Problem().None?
    ensures setting.Visited(ENTRY_A) && setting.After(ENTRY_A) == SIGNED_FAILED
  {
    PodNames();
  }

  lemma SameOwn(sc: Scene, s0: State, view: View, es: seq<Entry>)
    requires FoundBy(Setup(sc), view.start, s0.pods, view.found, es)
    ensures view.found.Keys == s0.pods.Keys && forall p :: p in s0.pods ==> view.found[p].own == s0.pods[p].own
  {
    hide FinishedPod, Finished;
  }

  /** What the server stores for the witness. */
  lemma StoredA(c: Server, sc: Scene)
    requires c.Valid() && c.w == Setup(sc)
    ensures PodObj(POD_A) in c.store && WorkflowObj in c.store && POD_A in c.j.s.pods
    ensures OwnOf(c.store[PodObj(POD_A)].annotations) == c.j.s.pods[POD_A].own
    ensures At(c.store[WorkflowObj].labels, StatusKey) == c.j.s.wfStatus
  {
    GoodObject(c.w, c.store, c.j, PodObj(POD_A));
    GoodObject(c.w, c.store, c.j, WorkflowObj);
    AllPods(c);
  }

  lemma Started(c: Server, sc: Scene)
    requires c.Valid() && c.w == Setup(sc) && c.j.trace == []
    ensures c.j.s == Init(Setup(sc)) && !TerminalLabel(c.j.s.wfStatus)
  {
  }

  /** Two reconciliations in which no call fails. If the first lists node "b" before node "a", the workflow ends
      Completed and the stored annotation of "a" says that its signing failed; the other way round it ends in
      Error. */
  method ForgetFailure() returns (c: Server, first: Report, second: Report)
    ensures fresh(c) && c.w == Setup(FORGOTTEN) && c.Valid() && c.w.Ok()
    ensures first.entries == [ENTRY_A, EntryB(false)] || first.entries == [EntryB(false), ENTRY_A]
    ensures PodObj(POD_A) in c.store && WorkflowObj in c.store
    ensures At(c.store[PodObj(POD_A)].annotations, ArtifactsKey) == Some(Text(IMAGE))
    ensures At(c.store[PodObj(POD_A)].annotations, SignedKey) == Some(Error)
    ensures At(c.store[WorkflowObj].labels, StatusKey) == Some(if first.entries[0] == ENTRY_A then Error else Completed)
  {
    hide Server.Valid, Setup, Passed;
    SceneOk(FORGOTTEN);
    c := new Server(Setup(FORGOTTEN));
    Started(c, FORGOTTEN);
    ghost var view, signed;
    ghost var s0 := c.j.s;
    first, view, signed := Pass(c, FORGOTTEN, ConfigOf(FORGOTTEN));
    FirstForgets(s0, c.j.s, c.clock, signed, first, view);
    TwoListed(FORGOTTEN, s0, c.j.s, 0, c.clock, signed, false, first, view);
    if first.entries[0] == ENTRY_A {
      second, view := Reconcile(c, Some(ConfigOf(FORGOTTEN)));
    } else {
      ghost var s1, lo := c.j.s, c.clock;
      second, view, signed := Pass(c, FORGOTTEN, ConfigOf(FORGOTTEN));
      SecondCompletes(s1, c.j.s, lo, c.clock, signed, second, view);
    }
    StoredA(c, FORGOTTEN);
  }

  lemma TwoListed(sc: Scene, s0: State, s: State, lo: nat, hi: nat, signed: seq<string>, done: bool, rep: Report,
                  view: View)
    requires Passed(sc, s0, s, lo, hi, signed, done, rep, view)
    ensures rep.entries == [ENTRY_A, EntryB(done)] || rep.entries == [EntryB(done), ENTRY_A]
  {
  }

  // ---------- the pod that is skipped too early ----------

  /** The pods are Succeeded from the sixth call on; node "b" runs on. */
  const EARLY := Scene(1000, 5, true, false, Manifest(OtherMedia(""), []))

  lemma FirstSkips(s0: State, s: State, hi: nat, signed: seq<string>, rep: Report, view: View)
    requires s0 == Init(Setup(EARLY)) && Passed(EARLY, s0, s, 0, hi, signed, false, rep, view)
    ensures POD_A in s.pods && s.pods[POD_A].own == BLANK.(status := Some(Skipped)) && s.wfStatus == Some(InProgress)
    ensures 4 <= hi <= 88
  {
    hide IsVerdict, Settle, FinishedPod, Setup, Setting.FlagOf, WithProvenance;
    var setting := Setting(Setup(EARLY), ConfigOf(EARLY), view.found);
    Untried(EARLY);
    SeenFirst(EARLY, s0, view.found, view.start, false, rep.entries);
    NotYetSucceeded(view.start);
    SettledA(EARLY, false);
    FlagsOf(EARLY, setting);
    JudgedByFirst(setting, rep.entries[0], rep.entries[1], rep.verdict);
    assert rep.entries[0] in rep.entries && rep.entries[1] in rep.entries;
  }

  lemma NotYetSucceeded(start: nat)
    requires start <= 4
    ensures start < EARLY.succeededFrom
  {
  }

  lemma SecondFinds(s0: State, s: State, lo: nat, hi: nat, signed: seq<string>, rep: Report, view: View)
    requires Passed(EARLY, s0, s, lo, hi, signed, false, rep, view) && lo >= 4
    requires POD_A in s0.pods && s0.pods[POD_A].own == BLANK.(status := Some(Skipped))
    ensures POD_A in s.pods && s.pods[POD_A].own == BLANK.(status := Some(Skipped)) && s.pods[POD_A].succeeded
  {
    hide IsVerdict, Settle, FinishedPod, Setup, Setting.FlagOf, Setting.Flags, WithProvenance;
    var setting := Setting(Setup(EARLY), ConfigOf(EARLY), view.found);
    var es := rep.entries;
    SeenFirst(EARLY, s0, view.found, view.start, false, es);
    RunsOn(setting);
    JudgedByFirst(setting, es[0], es[1], rep.verdict);
    assert es[0] in es && es[1] in es;
    SettledStays(setting.w, setting.cfg, setting.w.fates[POD_A], true, s0.pods[POD_A].own);
  }

  lemma RunsOn(setting: Setting)
    ensures setting.FlagOf(EntryB(false)) == Flag(false, false, false, "b")
  {
  }

  /** An untouched pod "a" that has succeeded would be signed. */
  lemma NotAsOnce(r: PodRec)
    requires r.own == BLANK.(status := Some(Skipped)) && r.succeeded
    ensures var w := Setup(EARLY);
            && SkippedTooEarly(w.fates[POD_A], r)
            && !AsOnce(w, ConfigOf(EARLY), POD_A, r, Settle(w, ConfigOf(EARLY), w.fates[POD_A], r.succeeded, r.own))
  {
    SettledA(EARLY, true);
  }

  /** Two reconciliations in which no call fails: the first finds pod "a" not Succeeded, although its node is
      done, and records Skipped; the second finds it Succeeded and leaves it so, without its artifact and its
      signature, as no later one will undo. */
  method SkipTooEarly() returns (c: Server, first: Report, second: Report)
    ensures fresh(c) && c.w == Setup(EARLY) && c.Valid() && c.w.Ok()
    ensures PodObj(POD_A) in c.store && WorkflowObj in c.store && POD_A in c.j.s.pods && c.j.s.pods[POD_A].succeeded
    ensures At(c.store[PodObj(POD_A)].annotations, StatusKey) == Some(Skipped)
    ensures At(c.store[PodObj(POD_A)].annotations, ArtifactsKey).None?
    ensures SkippedTooEarly(c.w.fates[POD_A], c.j.s.pods[POD_A])
    ensures !AsOnce(c.w, ConfigOf(EARLY), POD_A, c.j.s.pods[POD_A],
                    Settle(c.w, ConfigOf(EARLY), c.w.fates[POD_A], c.j.s.pods[POD_A].succeeded, c.j.s.pods[POD_A].own))
  {
    hide Server.Valid, Setup, Passed, Settle, AsOnce, SkippedTooEarly;
    SceneOk(EARLY);
    c := new Server(Setup(EARLY));
    Started(c, EARLY);
    ghost var view, signed;
    ghost var s0 := c.j.s;
    first, view, signed := Pass(c, EARLY, ConfigOf(EARLY));
    FirstSkips(s0, c.j.s, c.clock, signed, first, view);
    ghost var s1, lo := c.j.s, c.clock;
    second, view, signed := Pass(c, EARLY, ConfigOf(EARLY));
    SecondFinds(s1, c.j.s, lo, c.clock, signed, second, view);
    StoredA(c, EARLY);
    NotAsOnce(c.j.s.pods[POD_A]);
  }

  // ---------- the index that is scanned as one image ----------

  const CHILD := "registry/app@sha256:1"

  /** The image is an OCI index of one other image; everything succeeds. */
  const INDEX := Scene(0, 0, true, true, Manifest(OciImageIndex, ["sha256:1"]))

  lemma IndexSettled()
    ensures var w := Setup(INDEX);
            Settle(w, ConfigOf(INDEX), w.fates[POD_A], true, BLANK)
            == Own(Some(Completed), Some(Text(IMAGE)), Some(Completed), Some(Attached), None)
  {
    Discovered(INDEX);
    assert SbomOci.SbomVerdict(Setup(INDEX), IMAGE);
  }

  lemma IndexAttached(s0: State, s: State, hi: nat, signed: seq<string>, rep: Report, view: View)
    requires s0 == Init(Setup(INDEX)) && Passed(INDEX, s0, s, 0, hi, signed, true, rep, view)
    ensures POD_A in s.pods && s.pods[POD_A].own.artifacts == Some(Text(IMAGE))
              && s.pods[POD_A].own.sbom == Some(Attached)
  {
    hide IsVerdict, Settle, FinishedPod, Setup, Setting.FlagOf, WithProvenance;
    var setting := Setting(Setup(INDEX), ConfigOf(INDEX), view.found);
    var es := rep.entries;
    Untried(INDEX);
    SeenFirst(INDEX, s0, view.found, view.start, true, es);
    IndexSettled();
    assert es[0] in es && es[1] in es;
    assert setting.Visited(ENTRY_A);
    ProvenanceKeeps(setting.w, setting.cfg, setting.After(ENTRY_A));
  }

  lemma ProvenanceKeeps(w: World, cfg: Config, o: Own)
    ensures WithProvenance(w, cfg, o) == o.(provenance := WithProvenance(w, cfg, o).provenance)
  {
  }

  lemma NeverScanned()
    ensures CHILD in Setup(INDEX).Children(IMAGE) && !Runs.Scannable(Setup(INDEX), CHILD)
  {
    var w := Setup(INDEX);
    Discovered(INDEX);
    assert ["sha256:1"][0] == "sha256:1";
    assert "registry/app" + "@" + "sha256:1" == CHILD;
    assert w.Children(IMAGE)[0] == CHILD;
    assert CHILD[|CHILD| - 1] != IMAGE[|IMAGE| - 1];
    assert w.SbomTargets(IMAGE) == [IMAGE];
    assert w.Artifact(POD_B) == NoArtifacts;
  }

  /** One reconciliation in which nothing fails: the index ends with `sbom=Attached`, and the image it lists has
      no SBOM. */
  method ScanIndex() returns (c: Server, rep: Report)
    ensures fresh(c) && c.w == Setup(INDEX) && c.Valid() && c.w.Ok()
    ensures PodObj(POD_A) in c.store
    ensures At(c.store[PodObj(POD_A)].annotations, ArtifactsKey) == Some(Text(IMAGE))
    ensures At(c.store[PodObj(POD_A)].annotations, SbomKey) == Some(Attached)
    ensures CHILD in c.w.Children(IMAGE) && CHILD !in c.j.s.sboms
  {
    hide Server.Valid, Setup, Passed;
    SceneOk(INDEX);
    c := new Server(Setup(INDEX));
    Started(c, INDEX);
    ghost var view, signed;
    ghost var s0 := c.j.s;
    rep, view, signed := Pass(c, INDEX, ConfigOf(INDEX));
    IndexAttached(s0, c.j.s, c.clock, signed, rep, view);
    StoredA(c, INDEX);
    NeverScanned();
    OnlyScannable(c, CHILD);
  }

  lemma OnlyScannable(c: Server, ref: string)
    requires c.Valid() && !Runs.Scannable(c.w, ref)
    ensures ref !in c.j.s.sboms
  {
    hide Runs.Scannable;
    if ref in c.j.s.sboms {
      Runs.ScannedOnly(c.w, c.j.trace, ref);
    }
  }

  // ---------- the node that comes too late ----------

  /** Everything succeeds; node "b", which has an image as well, appears from the fifth call on, done. */
  const LATE := Scene(4, 0, true, false, Manifest(OtherMedia(""), []))

  const LATE_NODE := Node(true, "b", NodeSucceeded, [Param("OCI", IMAGE)], "b")

  function LateNodes(i: nat): map<string, Node> {
    if i < 4 then map["w-1" := NodesAt(LATE, i)["w-1"]] else map["w-1" := NodesAt(LATE, i)["w-1"], "w-2" := LATE_NODE]
  }

  function LateSetup(): World {
    Setup(LATE).(fates := map[POD_A := Fate(false, [Param("OCI", IMAGE)]), POD_B := Fate(false, [Param("OCI", IMAGE)])],
                 tape := (i: nat) => Outcome(Ok, map[EnableKey := Text("true")], map[], true, LateNodes(i)))
  }

  lemma LateOk()
    ensures LateSetup().Ok() && LateSetup().StableNet() && Provenance.GenerationOk(LateSetup())
  {
    hide FormatPodName, WellFormedId;
    PodNames();
    Discovered(LATE);
  }

  lemma LateSettled()
    ensures var w := LateSetup();
            Settle(w, ConfigOf(LATE), w.fates[POD_A], true, BLANK)
            == Own(Some(Completed), Some(Text(IMAGE)), Some(Completed), None, None)
  {
    Discovered(LATE);
  }

  lemma OnlyA(c: Server, rep: Report, start: nat)
    requires c.w == LateSetup() && start <= 4 && c.Shown(rep.nodes, 0, start)
    requires rep.entries != [] ==> Snapshot(c.w, rep.nodes, rep.entries)
    requires rep.entries == [] ==> forall id :: id in rep.nodes ==> !rep.nodes[id].isPod
    ensures rep.entries == [ENTRY_A]
  {
    hide FormatPodName;
    PodNames();
    var i :| 0 <= i < start && c.w.tape(i).nodes == rep.nodes;
    assert "w-1" in rep.nodes && rep.nodes["w-1"].isPod;
    assert NodeEntry(c.w, "w-1", rep.nodes["w-1"]) == ENTRY_A;
    forall k | 0 <= k < |rep.entries|
      ensures rep.entries[k] == ENTRY_A
    {
      assert rep.entries[k] in rep.entries;
    }
    AtMostOne(rep.entries, ENTRY_A);
  }

  lemma AtMostOne(es: seq<Entry>, a: Entry)
    requires DistinctNames(es) && forall k :: 0 <= k < |es| ==> es[k] == a
    ensures |es| <= 1
  {
    hide DistinctNames;
    if |es| > 1 {
      TwoNames(es);
    }
  }

  lemma TwoNames(es: seq<Entry>)
    requires DistinctNames(es) && |es| > 1
    ensures es[0].name != es[1].name
  {
  }

  lemma LateFound(s0: State, found: map<string, PodRec>, start: nat)
    requires s0 == Init(LateSetup()) && FoundBy(LateSetup(), start, s0.pods, found, [ENTRY_A])
    ensures POD_A in found && found[POD_A].own == BLANK && found[POD_A].succeeded
  {
    hide FinishedPod, Finished;
    var es := [ENTRY_A];
    assert es[0] == ENTRY_A && POD_A in s0.pods;
    var k :| VisitCall(start, es, 0, k)
             && found[es[0].name].succeeded == (s0.pods[es[0].name].succeeded || LateSetup().tape(k).succeeded);
  }

  lemma LateCompletes(s0: State, s: State, signed: seq<string>, rep: Report, view: View)
    requires s0 == Init(LateSetup()) && rep.entries == [ENTRY_A]
    requires FoundBy(LateSetup(), view.start, s0.pods, view.found, rep.entries)
    requires OthersKept(s0.pods, s.pods, rep.entries)
    requires AsSpecified(Setting(LateSetup(), ConfigOf(LATE), view.found), s, signed, rep)
    ensures s.wfStatus == Some(Completed) && POD_B in s.pods && s.pods[POD_B].own == BLANK
  {
    hide IsVerdict, Settle, LeftSettled, FinishedPod, Setting.AllSigns;
    var setting := Setting(LateSetup(), ConfigOf(LATE), view.found);
    LateFound(s0, view.found, view.start);
    LateSettled();
    VerdictNone(setting, rep.entries, rep.verdict);
    assert setting.FlagOf(ENTRY_A).Problem().None?;
    PodNames();
    OneFinished(ENTRY_A, POD_B);
  }

  lemma LateUndisturbed(lo: nat, hi: nat, pods: map<string, PodRec>)
    requires pods.Keys == LateSetup().fates.Keys
    ensures Undisturbed(LateSetup(), lo, hi, pods, [ENTRY_A])
  {
  }

  lemma LateQuiet(c: Server)
    requires c.w == LateSetup()
    ensures forall lo: nat, hi: nat :: c.Quiet(lo, hi)
    ensures forall i: nat :: At(c.w.tape(i).labels, EnableKey) == Some(ENABLED)
    ensures forall i: nat :: i >= 4 ==> "w-2" in c.w.tape(i).nodes && c.w.tape(i).nodes["w-2"] == LATE_NODE
  {
  }

  lemma LateStart(c: Server)
    requires c.Valid() && c.w == LateSetup() && c.j.trace == []
    ensures c.j.s == Init(LateSetup()) && !TerminalLabel(c.j.s.wfStatus) && c.j.s.pods.Keys == c.w.fates.Keys
  {
  }

  lemma LateStored(c: Server)
    requires c.Valid() && c.w == LateSetup()
    ensures PodObj(POD_B) in c.store && WorkflowObj in c.store && POD_B in c.j.s.pods
    ensures OwnOf(c.store[PodObj(POD_B)].annotations) == c.j.s.pods[POD_B].own
    ensures At(c.store[WorkflowObj].labels, StatusKey) == c.j.s.wfStatus
  {
    GoodObject(c.w, c.store, c.j, PodObj(POD_B));
    GoodObject(c.w, c.store, c.j, WorkflowObj);
    AllPods(c);
  }

  /** The workflow is Completed after the first reconciliation, before node "b" has appeared. From then on every
      call shows the node, done and with an image, and however often the controller reconciles, the pod stays
      without any annotation of the controller. */
  method MissLatecomer(n: nat) returns (c: Server)
    ensures fresh(c) && c.w == LateSetup() && c.Valid() && c.w.Ok() && c.clock >= 4 + n
    ensures forall i: nat :: i >= 4 ==> "w-2" in c.w.tape(i).nodes && c.w.tape(i).nodes["w-2"] == LATE_NODE
    ensures FormatPodName("w", LATE_NODE.template, "w-2") == POD_B && IsDigestRef(c.w.parse, IMAGE)
    ensures PodObj(POD_B) in c.store && WorkflowObj in c.store
    ensures At(c.store[WorkflowObj].labels, StatusKey) == Some(Completed)
    ensures OwnOf(c.store[PodObj(POD_B)].annotations) == BLANK
  {
    hide Server.Valid, LateSetup, AsSpecified, FoundBy, OthersKept, StillSucceeded, Snapshot, Listed, AsBegun,
         Undisturbed, HasHollow, Server.Shown, World.Ok, World.StableNet, Provenance.GenerationOk, FormatPodName,
         LastRefused, Caused;
    LateOk();
    c := new Server(LateSetup());
    LateStart(c);
    LateQuiet(c);
    ghost var s0 := c.j.s;
    var rep;
    ghost var view;
    rep, view := Reconcile(c, Some(ConfigOf(LATE)));
    OnlyA(c, rep, view.start);
    LateUndisturbed(0, c.clock, view.found);
    JudgedAs(Setting(c.w, ConfigOf(LATE), view.found), c.j.s, c.j.effects.signed[0..], rep);
    FinishedOne();
    LateCompletes(s0, c.j.s, c.j.effects.signed[0..], rep, view);
    ghost var s1 := c.j.s;
    for k := 0 to n
      invariant c.w == LateSetup() && c.Valid() && c.j.s == s1 && c.clock >= 4 + k
    {
      rep, view := Reconcile(c, Some(ConfigOf(LATE)));
    }
    LateStored(c);
    PodNames();
    LateQuiet(c);
    LateParses();
  }

  lemma FinishedOne()
    ensures Finished([ENTRY_A]) == 1
  {
    assert [ENTRY_A][..0] == [];
  }

  lemma LateParses()
    ensures IsDigestRef(LateSetup().parse, IMAGE)
  {
  }
}
