/** What undisturbed passes come to: whatever the order of the pods, and wherever earlier passes were cut. */
module FaultFree {
  import opened Metadata
  import opened Nodes
  import opened Environment
  import opened Lists
  import opened Protocol
  import opened Cluster
  import opened PassSpec
  import opened Controller
  import Runs
  import Theorems

  // ---------- the order of the pods ----------

  lemma VerdictNone(setting: Setting, es: seq<Entry>, verdict: Option<Failure>)
    requires IsVerdict(setting.Flags(es), verdict)
    ensures verdict.None? <==> forall e :: e in es ==> setting.FlagOf(e).Problem().None?
    ensures verdict.Some? ==> exists e :: e in es && setting.FlagOf(e).Problem() == verdict
  {
    var fs := setting.Flags(es);
    match verdict
    case None =>
      forall e | e in es
        ensures setting.FlagOf(e).Problem().None?
      {
        var i :| 0 <= i < |es| && es[i] == e;
        assert fs[i].Problem().None?;
      }
    case Some(_) =>
      var k :| 0 <= k < |fs| && fs[k].Problem() == verdict;
      assert es[k] in es;
  }

  /** Two undisturbed passes that differ in the order of the pods, and find the pods in the same phases, leave
      all pods of the workflow with the same annotations (a panic leaves the provenance to the order), ask for
      the same signatures, and complete the workflow both or neither. */
  lemma OrderIndependent(setting: Setting, s1: State, signed1: seq<string>, rep1: Report,
                         s2: State, signed2: seq<string>, rep2: Report)
    requires AsSpecified(setting, s1, signed1, rep1) && AsSpecified(setting, s2, signed2, rep2)
    requires multiset(rep1.entries) == multiset(rep2.entries)
    ensures s1.pods.Keys == s2.pods.Keys == setting.pods.Keys
    ensures forall p :: p in setting.pods ==>
              && s1.pods[p].own.(provenance := None) == s2.pods[p].own.(provenance := None)
              && (rep1.verdict.Some? || !HasHollow(rep1.entries) ==> s1.pods[p].own == s2.pods[p].own)
    ensures multiset(signed1) == multiset(signed2)
    ensures rep1.verdict.None? <==> rep2.verdict.None?
    ensures rep1.verdict.None? && !HasHollow(rep1.entries) ==> s1.wfStatus == s2.wfStatus == Some(Completed)
  {
    hide IsVerdict, Settle, WithProvenance;
    VerdictNone(setting, rep1.entries, rep1.verdict);
    VerdictNone(setting, rep2.entries, rep2.verdict);
    SameMembers(rep1.entries, rep2.entries);
    ConcatPermutation((e: Entry) => setting.Signs(e), rep1.entries, rep2.entries);
    forall p | p in setting.pods
      ensures s1.pods[p].own.(provenance := None) == s2.pods[p].own.(provenance := None)
      ensures rep1.verdict.Some? || !HasHollow(rep1.entries) ==> s1.pods[p].own == s2.pods[p].own
    {
      if FinishedPod(rep1.entries, p) {
        var e :| e in rep1.entries && IsTerminal(e.phase) && e.name == p;
        assert e in rep2.entries;
      }
    }
  }

  lemma SameMembers(es: seq<Entry>, es': seq<Entry>)
    requires multiset(es) == multiset(es')
    ensures forall e :: e in es <==> e in es'
    ensures HasHollow(es) == HasHollow(es')
  {
    forall e
      ensures e in es <==> e in es'
    {
      assert e in es <==> e in multiset(es);
      assert e in es' <==> e in multiset(es');
    }
    HollowMember(es);
    HollowMember(es');
  }

  lemma HollowMember(es: seq<Entry>)
    ensures HasHollow(es) <==> exists e :: e in es && IsSkippedOrOmitted(e.phase)
  {
    if e :| e in es && IsSkippedOrOmitted(e.phase) {
      var i :| 0 <= i < |es| && es[i] == e;
      assert IsSkippedOrOmitted(es[i].phase);
    }
    if i :| 0 <= i < |es| && IsSkippedOrOmitted(es[i].phase) {
      assert es[i] in es;
    }
  }

  /** All pods with a problem have the same one. */
  ghost predicate OneProblem(setting: Setting, es: seq<Entry>) {
    forall e, e' :: e in es && e' in es && setting.FlagOf(e).Problem().Some? && setting.FlagOf(e').Problem().Some? ==>
      setting.FlagOf(e).Problem() == setting.FlagOf(e').Problem()
  }

  /** Whatever the order, the same error is returned. */
  ghost predicate SameError(setting: Setting, es: seq<Entry>) {
    forall es', verdict, verdict' ::
      multiset(es') == multiset(es) && IsVerdict(setting.Flags(es), verdict)
          && IsVerdict(setting.Flags(es'), verdict') ==>
        verdict == verdict'
  }

  lemma {:induction false} VerdictExists(setting: Setting, es: seq<Entry>) returns (verdict: Option<Failure>)
    ensures IsVerdict(setting.Flags(es), verdict)
  {
    verdict := None;
    var fs := setting.Flags(es);
    for k := 0 to |fs|
      invariant forall i :: 0 <= i < k ==> fs[i].Problem().None?
    {
      if fs[k].Problem().Some? {
        return fs[k].Problem();
      }
    }
  }

  lemma FirstDecides(setting: Setting, e: Entry, es: seq<Entry>)
    requires setting.FlagOf(e).Problem().Some?
    ensures IsVerdict(setting.Flags([e] + es), setting.FlagOf(e).Problem())
  {
    var fs := setting.Flags([e] + es);
    assert fs[0] == setting.FlagOf(e);
    assert 0 <= 0 < |fs| && fs[0].Problem() == setting.FlagOf(e).Problem();
  }

  lemma TwoErrors(setting: Setting, es: seq<Entry>, e: Entry, e': Entry)
    requires e in es && e' in es && setting.FlagOf(e).Problem().Some? && setting.FlagOf(e').Problem().Some?
    requires setting.FlagOf(e).Problem() != setting.FlagOf(e').Problem()
    ensures !SameError(setting, es)
  {
    hide IsVerdict, Setting.FlagOf, Setting.Flags;
    var verdict := VerdictExists(setting, es);
    var x := if setting.FlagOf(e).Problem() == verdict then e' else e;
    var i :| 0 <= i < |es| && es[i] == x;
    var rest := es[..i] + es[i + 1..];
    FirstDecides(setting, x, rest);
    MoveToFront(es, i);
  }

  lemma OneError(setting: Setting, es: seq<Entry>, es': seq<Entry>, verdict: Option<Failure>, verdict': Option<Failure>)
    requires OneProblem(setting, es) && multiset(es') == multiset(es)
    requires IsVerdict(setting.Flags(es), verdict) && IsVerdict(setting.Flags(es'), verdict')
    ensures verdict == verdict'
  {
    hide IsVerdict, Setting.FlagOf, Setting.Flags;
    SameMembers(es, es');
    VerdictNone(setting, es, verdict);
    VerdictNone(setting, es', verdict');
  }

  /** Which error an undisturbed pass returns depends on the order, unless all problems are the same. */
  lemma WhichError(setting: Setting, es: seq<Entry>)
    ensures SameError(setting, es) <==> OneProblem(setting, es)
  {
    hide IsVerdict, Setting.FlagOf, Setting.Flags;
    if OneProblem(setting, es) {
      forall es', verdict, verdict' |
        multiset(es') == multiset(es) && IsVerdict(setting.Flags(es), verdict)
            && IsVerdict(setting.Flags(es'), verdict')
        ensures verdict == verdict'
      {
        OneError(setting, es, es', verdict, verdict');
      }
    } else {
      var e, e' :| e in es && e' in es && setting.FlagOf(e).Problem().Some? && setting.FlagOf(e').Problem().Some?
                   && setting.FlagOf(e).Problem() != setting.FlagOf(e').Problem();
      TwoErrors(setting, es, e, e');
    }
  }

  // ---------- resuming ----------

  /** While the signer's answers are stable and every pass has a known signer type, the signing verdicts of any
      run are those an undisturbed pass meets. */
  lemma VerdictsStable(w: World, cfg: Config, t: seq<Action>)
    requires w.Ok() && Legal(w, t) && w.StableNet() && cfg.signer in {SecretSigner, KmsSigner, FulcioSigner}
    requires forall i :: 0 <= i < |t| && t[i].Begin? ==> t[i].cfg.signer in {SecretSigner, KmsSigner, FulcioSigner}
    ensures Runs.VerdictsFixed(t, ref => SignVerdict(w, cfg, ref))
  {
    hide Legal, World.Ok;
    forall i | 0 <= i < |t| && t[i].Sign?
      ensures t[i].ok == SignVerdict(w, cfg, t[i].ref)
    {
      Runs.SignAnswered(w, t, i);
    }
  }

  /** What is to come of a pod on its way does not depend on how far it has come. */
  lemma SettleTowards(w: World, cfg: Config, p: string, r: PodRec)
    requires p in w.fates && !w.fates[p].errored && !Final(r.own.status)
    requires Runs.Towards(w, p, ref => SignVerdict(w, cfg, ref), r)
    ensures var (status, artifacts, signed) := Runs.Expected(w, p, ref => SignVerdict(w, cfg, ref));
            var o := Settle(w, cfg, w.fates[p], true, r.own);
            o.status == Some(status) && o.artifacts == Some(artifacts) && o.signed == Some(signed)
    ensures ToSign(w, w.fates[p], true, r.own) <= ToSign(w, w.fates[p], true, BLANK)
  {
    hide SignVerdict, SbomValue;
    SettleWorks(w, cfg, w.fates[p], r.own);
  }

  /** The visit of the pod comes to what one undisturbed visit of the untouched pod comes to. */
  ghost predicate AsOnce(w: World, cfg: Config, p: string, r: PodRec, o: Own)
    requires p in w.fates
  {
    var once := Settle(w, cfg, w.fates[p], r.succeeded, BLANK);
    o.status == once.status && o.artifacts == once.artifacts && o.signed == once.signed
  }

  /** An earlier pass found the node done but the pod not Succeeded, which it is by now. */
  predicate SkippedTooEarly(f: Fate, r: PodRec) {
    !f.errored && r.succeeded && Runs.LeftOut(r.own)
  }

  /** A pod left anywhere by earlier passes, and `seen` Succeeded or not by its next visit, ends after that
      visit, if nothing fails, with the status, the artifact and the signing result that the visit would give
      an untouched pod, and is not signed more often, if and only if no pass has skipped it too early. */
  lemma ResumedAsOnce(w: World, cfg: Config, t: seq<Action>, p: string, seen: bool)
    requires w.Ok() && Legal(w, t) && p in w.fates && p in Exec(w, t).pods
    requires Runs.VerdictsFixed(t, ref => SignVerdict(w, cfg, ref))
    requires Exec(w, t).pods[p].succeeded ==> seen
    ensures var r := Exec(w, t).pods[p].(succeeded := seen);
            && (AsOnce(w, cfg, p, r, Settle(w, cfg, w.fates[p], seen, r.own)) <==> !SkippedTooEarly(w.fates[p], r))
            && ToSign(w, w.fates[p], seen, r.own) <= ToSign(w, w.fates[p], seen, BLANK)
  {
    hide SignVerdict, SbomValue, Legal, Exec, World.Ok, Runs.VerdictsFixed, WithSbom, WithSignature;
    var verdict: string -> bool := ref => SignVerdict(w, cfg, ref);
    var r := Exec(w, t).pods[p];
    Runs.Resumable(w, t, p, verdict);
    Untouched(w, t, p);
    if !w.fates[p].errored {
      SettleTowards(w, cfg, p, BlankRec(true));
      if seen && !Final(r.own.status) {
        SettleTowards(w, cfg, p, r);
      }
    }
  }

  lemma Untouched(w: World, t: seq<Action>, p: string)
    requires w.Ok() && Legal(w, t) && p in w.fates && p in Exec(w, t).pods
    ensures Exec(w, t).pods[p].own.status.None? ==> Exec(w, t).pods[p].own == BLANK
  {
    Theorems.Reachable(w, t);
    assert Theorems.PodInv(w, Exec(w, t).pods[p], p, Exec(w, t).passNo);
  }

  /** An undisturbed pass after any run, however cut, leaves the pods as it would have left them untouched. */
  lemma ResumedPass(w: World, cfg: Config, t: seq<Action>, lo: nat, found: map<string, PodRec>,
                    s: State, signed: seq<string>, rep: Report, e: Entry)
    requires w.Ok() && Legal(w, t) && Runs.VerdictsFixed(t, ref => SignVerdict(w, cfg, ref))
    requires FoundBy(w, lo, Exec(w, t).pods, found, rep.entries)
    requires AsSpecified(Setting(w, cfg, found), s, signed, rep)
    requires e in rep.entries && IsTerminal(e.phase)
    ensures e.name in found && e.name in w.fates && e.name in s.pods
    ensures AsOnce(w, cfg, e.name, found[e.name], s.pods[e.name].own)
            <==> !SkippedTooEarly(w.fates[e.name], found[e.name])
  {
    hide Settle, IsVerdict, Legal, Exec, FinishedPod, VisitCall;
    assert Setting(w, cfg, found).Visited(e);
    ResumedAsOnce(w, cfg, t, e.name, found[e.name].succeeded);
  }

  /** After any run, an undisturbed pass that finds all nodes finished, and none without a pod, is the last: the
      label is terminal, and it is Completed if and only if each pod is without an artifact, or is signed, or
      was final before. */
  lemma Converges(setting: Setting, s: State, signed: seq<string>, rep: Report)
    requires AsSpecified(setting, s, signed, rep) && !rep.dropped
    ensures (forall e :: e in rep.entries ==> IsTerminal(e.phase)) ==> TerminalLabel(s.wfStatus)
    ensures s.wfStatus == Some(Completed)
            <==> forall e :: e in rep.entries ==>
                   && IsTerminal(e.phase) && setting.Visited(e)
                   && (Final(setting.pods[e.name].own.status)
                       || !Found(setting.After(e)) || setting.After(e).signed == Some(Completed))
  {
    hide Settle, IsVerdict, WithProvenance;
    VerdictNone(setting, rep.entries, rep.verdict);
    HollowMember(rep.entries);
  }

  // ---------- the failure that is forgotten ----------

  /** A pass that waits for some pod forgets the signing failures it has met: in the next pass the pods
      finished by then pass for signed, and the workflow is Completed with the failures on record. */
  lemma FailureForgotten(setting: Setting, s1: State, signed1: seq<string>, rep1: Report,
                         setting2: Setting, s2: State, signed2: seq<string>, rep2: Report)
    requires AsSpecified(setting, s1, signed1, rep1) && rep1.verdict == Some(NotReconciled)
    requires AsSpecified(setting2, s2, signed2, rep2) && !HasHollow(rep2.entries)
    requires forall p :: p in s1.pods && p in setting2.pods ==> setting2.pods[p].own == s1.pods[p].own
    requires forall e :: e in rep2.entries && !(e in rep1.entries && IsTerminal(e.phase)) ==>
               setting2.FlagOf(e).Problem().None?
    ensures s2.wfStatus == Some(Completed)
    ensures forall e :: e in rep1.entries && e in rep2.entries && IsTerminal(e.phase) ==>
              && e.name in s1.pods && e.name in s2.pods
              && s2.pods[e.name].own.signed == s1.pods[e.name].own.signed
  {
    hide IsVerdict;
    VerdictNone(setting2, rep2.entries, rep2.verdict);
    forall e | e in rep1.entries && e in rep2.entries && IsTerminal(e.phase)
      ensures setting2.FlagOf(e).Problem().None?
      ensures e.name in s1.pods && e.name in s2.pods && s2.pods[e.name].own.signed == s1.pods[e.name].own.signed
    {
      SettledFinal(setting, e);
    }
  }

  lemma SettledFinal(setting: Setting, e: Entry)
    requires setting.Visited(e)
    ensures Final(setting.After(e).status)
  {
  }
}
