/** Theorems about whole runs: any number of passes, any faults, stopped anywhere. */
module Runs {
  import opened Metadata
  import opened Nodes
  import opened Environment
  import opened Lists
  import opened Protocol
  import opened Theorems

  // ---------- the annotations after every write ----------

  /** The annotations of one pod, as a reader of the cluster may rely on them. */
  predicate Consistent(o: Own) {
    && (o.signed.Some? ==> o.artifacts.Some?)
    && (o.signed == Some(Skipped) <==> o.signed.Some? && o.artifacts == Some(NoArtifacts))
    && (o.status == Some(Completed) ==> Found(o) && o.signed == Some(Completed))
    && (o.status == Some(Error) ==> Found(o) && o.signed == Some(Error))
    && (o.status == Some(Skipped) ==> !Found(o))
    && (o.provenance.Some? ==> Final(o.status))
  }

  /** However a run goes and wherever it is stopped, every pod's annotations are consistent. */
  lemma AlwaysConsistent(w: World, t: seq<Action>, n: nat, p: string)
    requires w.Ok() && Legal(w, t) && n <= |t| && p in w.fates
    ensures p in Exec(w, t[..n]).pods && Consistent(Exec(w, t[..n]).pods[p].own)
  {
    PrefixLegal(w, t, n);
    Reachable(w, t[..n]);
    assert PodInv(w, Exec(w, t[..n]).pods[p], p, Exec(w, t[..n]).passNo);
  }

  // ---------- monotonicity ----------

  predicate Kept(a: Option<Value>, b: Option<Value>) {
    a.Some? ==> b == a
  }

  /** Nothing recorded is ever changed, except the status on its way to a final value; then only the
      provenance is still to come. */
  predicate Grows(a: Own, b: Own) {
    && Kept(a.artifacts, b.artifacts) && Kept(a.signed, b.signed)
    && Kept(a.sbom, b.sbom) && Kept(a.provenance, b.provenance)
    && (Final(a.status) ==> b == a.(provenance := b.provenance))
    && (a.status == Some(InProgress) ==> b.status.Some?)
  }

  lemma OwnStep(w: World, s: State, a: Action, p: string)
    requires Enabled(w, s, a) && p in s.pods
    ensures p in Effect(s, a).pods && Grows(s.pods[p].own, Effect(s, a).pods[p].own)
    ensures s.pods[p].own != Effect(s, a).pods[p].own ==> a.Write? && a.pod == p
  {
  }

  lemma {:induction false} Monotone(w: World, t: seq<Action>, n: nat, p: string)
    requires w.Ok() && Legal(w, t) && n <= |t| && p in w.fates
    ensures p in Exec(w, t[..n]).pods && p in Exec(w, t).pods
    ensures Grows(Exec(w, t[..n]).pods[p].own, Exec(w, t).pods[p].own)
    ensures TerminalLabel(Exec(w, t[..n]).wfStatus) ==> Exec(w, t).wfStatus == Exec(w, t[..n]).wfStatus
    decreases |t|
  {
    Reachable(w, t);
    if n == |t| {
      assert t[..n] == t;
    } else {
      var u := t[..|t| - 1];
      Monotone(w, u, n, p);
      assert u[..n] == t[..n];
      OwnStep(w, Exec(w, u), t[|t| - 1], p);
    }
  }

  /** Once the label is terminal, the controller does nothing more: only pods may still change phase. */
  lemma Quiescent(w: World, s: State, a: Action)
    requires TerminalLabel(s.wfStatus) && Enabled(w, s, a)
    ensures a.Succeed?
  {
  }

  lemma {:induction false} Frozen(w: World, t: seq<Action>, n: nat, p: string)
    requires w.Ok() && Legal(w, t) && n <= |t| && p in w.fates
    requires TerminalLabel(Exec(w, t[..n]).wfStatus)
    ensures p in Exec(w, t[..n]).pods && p in Exec(w, t).pods
    ensures Exec(w, t).pods[p].own == Exec(w, t[..n]).pods[p].own
    ensures Exec(w, t).pass == Exec(w, t[..n]).pass && Exec(w, t).wfStatus == Exec(w, t[..n]).wfStatus
    decreases |t|
  {
    Reachable(w, t);
    if n == |t| {
      assert t[..n] == t;
    } else {
      var u := t[..|t| - 1];
      assert u[..n] == t[..n];
      Frozen(w, u, n, p);
      Quiescent(w, Exec(w, u), t[|t| - 1]);
    }
  }

  // ---------- the number of writes ----------

  /** Writes of a run; the protocol has no write that leaves its key's value as it is. */
  function Writes(t: seq<Action>): nat {
    if t == [] then 0
    else Writes(t[..|t| - 1]) + if t[|t| - 1].Write? || t[|t| - 1].Label? then 1 else 0
  }

  function Rank(o: Own): nat {
    (if o.status.None? then 0 else if o.status == Some(InProgress) then 1 else 2)
    + One(o.artifacts.Some?) + One(o.signed.Some?) + One(o.sbom.Some?) + One(o.provenance.Some?)
  }

  function LabelRank(w: World, s: State): nat {
    if TerminalLabel(s.wfStatus) then 2 else if s.wfStatus == Some(InProgress) then 1 else 0
  }

  function PodRank(s: State, p: string): nat {
    if p in s.pods then Rank(s.pods[p].own) else 0
  }

  ghost function TotalRank(s: State, ps: set<string>): nat {
    Sum((p: string) => PodRank(s, p), ps)
  }

  lemma WriteRank(w: World, s: State, p: string, k: Key, v: Value)
    requires p in s.pods && p in w.fates && MayWrite(w, s, p, k, v)
    ensures Rank(Put(s.pods[p].own, k, v)) > Rank(s.pods[p].own)
  {
  }

  lemma OneMoreRanked(s: State, s': State, p: string, ps: set<string>)
    requires p in ps && PodRank(s', p) > PodRank(s, p)
    requires forall q :: q in ps && q != p ==> PodRank(s', q) == PodRank(s, q)
    ensures TotalRank(s', ps) > TotalRank(s, ps)
  {
    hide PodRank;
    var f, g := (q: string) => PodRank(s, q), (q: string) => PodRank(s', q);
    SumRemove(f, ps, p);
    SumRemove(g, ps, p);
    SumAgree(f, g, ps - {p});
  }

  lemma SameRanked(s: State, s': State, ps: set<string>)
    requires forall q :: q in ps ==> PodRank(s', q) == PodRank(s, q)
    ensures TotalRank(s', ps) == TotalRank(s, ps)
  {
    hide PodRank;
    SumAgree((q: string) => PodRank(s, q), (q: string) => PodRank(s', q), ps);
  }

  lemma PodRanks(w: World, s: State, a: Action, q: string)
    requires Enabled(w, s, a)
    ensures PodRank(Effect(s, a), q) == PodRank(s, q) || (a.Write? && a.pod == q)
    ensures a.Write? && a.pod == q ==> q in s.pods && PodRank(Effect(s, a), q) > PodRank(s, q)
  {
    hide MayWrite, MayLabel, MayValidate, MayAttest, MaySign, MayScan, Rank;
    if q in s.pods {
      OwnKept(s, a, q);
    }
    if a.Write? && a.pod == q {
      WriteRank(w, s, q, a.key, a.value);
    }
  }

  lemma OwnKept(s: State, a: Action, p: string)
    requires p in s.pods
    ensures p in Effect(s, a).pods && (Effect(s, a).pods[p].own == s.pods[p].own || (a.Write? && a.pod == p))
  {
  }

  lemma LabelRanks(w: World, s: State, a: Action)
    requires Enabled(w, s, a)
    ensures LabelRank(w, Effect(s, a)) >= LabelRank(w, s) + One(a.Label?)
  {
    hide MayWrite, MayValidate, MayAttest, MaySign, MayScan;
  }

  lemma RankStep(w: World, s: State, a: Action, ps: set<string>)
    requires Enabled(w, s, a) && forall p :: p in s.pods ==> p in ps
    ensures TotalRank(Effect(s, a), ps) + LabelRank(w, Effect(s, a))
         >= TotalRank(s, ps) + LabelRank(w, s) + One(a.Write? || a.Label?)
  {
    hide Enabled, Effect, PodRank, LabelRank, TotalRank;
    forall q
      ensures PodRank(Effect(s, a), q) == PodRank(s, q) || (a.Write? && a.pod == q)
      ensures a.Write? && a.pod == q ==> q in s.pods && PodRank(Effect(s, a), q) > PodRank(s, q)
    {
      PodRanks(w, s, a, q);
    }
    LabelRanks(w, s, a);
    if a.Write? {
      OneMoreRanked(s, Effect(s, a), a.pod, ps);
    } else {
      SameRanked(s, Effect(s, a), ps);
    }
  }

  lemma {:induction false} WritesWithinRank(w: World, t: seq<Action>)
    requires w.Ok() && Legal(w, t)
    ensures Writes(t) <= TotalRank(Exec(w, t), w.fates.Keys) + LabelRank(w, Exec(w, t))
  {
    if t != [] {
      var u := t[..|t| - 1];
      WritesWithinRank(w, u);
      Reachable(w, u);
      RankStep(w, Exec(w, u), t[|t| - 1], w.fates.Keys);
    }
  }

  /** Any run over n pods, however often restarted, makes at most 6n + 2 writes that change anything. */
  lemma WriteBound(w: World, t: seq<Action>)
    requires w.Ok() && Legal(w, t)
    ensures Writes(t) <= 6 * |w.fates| + 2
  {
    WritesWithinRank(w, t);
    SumBound((p: string) => PodRank(Exec(w, t), p), w.fates.Keys, 6);
  }

  // ---------- resumability ----------

  /** Signing a reference ends the same way whenever it is asked for. */
  ghost predicate VerdictsFixed(t: seq<Action>, verdict: string -> bool) {
    forall i :: 0 <= i < |t| && t[i].Sign? ==> t[i].ok == verdict(t[i].ref)
  }

  /** What an undisturbed pass records under status, artifacts and signed for a pod worth processing. */
  function Expected(w: World, p: string, verdict: string -> bool): (r: (Value, Value, Value))
    requires p in w.fates
    ensures r.1 == NoArtifacts <==> r.0 == Skipped
  {
    var art := w.Artifact(p);
    if art == NoArtifacts then (Skipped, art, Skipped)
    else if verdict(ValueText(art)) then (Completed, art, Completed)
    else (Error, art, Error)
  }

  /** What is recorded so far is a part of what an undisturbed pass records. */
  ghost predicate Towards(w: World, p: string, verdict: string -> bool, r: PodRec)
    requires p in w.fates
  {
    var (status, artifacts, signed) := Expected(w, p, verdict);
    && r.own.status in {None, Some(InProgress), Some(status)}
    && r.own.artifacts in {None, Some(artifacts)}
    && r.own.signed in {None, Some(signed)}
    && (r.own.status == Some(status) ==> r.own.artifacts == Some(artifacts) && r.own.signed == Some(signed))
  }

  /** A pod whose node failed, or that was not Succeeded when its node was done, is left unsigned. */
  predicate LeftOut(o: Own) {
    o.status == Some(Skipped) && o.artifacts.None? && o.signed.None? && o.sbom.None?
  }

  ghost predicate Obeys(w: World, p: string, verdict: string -> bool, r: PodRec)
    requires p in w.fates
  {
    && (r.own.signed.Some? && Found(r.own) ==> (r.own.signed == Some(Completed)) == verdict(ValueText(w.Artifact(p))))
    && (r.flight.Some? ==> r.flight.value.ok == verdict(ValueText(w.Artifact(p))))
  }

  lemma VerdictStep(w: World, s: State, a: Action, p: string, verdict: string -> bool)
    requires Enabled(w, s, a) && p in s.pods && p in w.fates && PodInv(w, s.pods[p], p, s.passNo)
    requires Obeys(w, p, verdict, s.pods[p]) && (a.Sign? ==> a.ok == verdict(a.ref))
    ensures Obeys(w, p, verdict, Effect(s, a).pods[p])
  {
    if a.Write? && a.pod == p {
      match a.key
      case ArtifactsKey =>
      case SignedKey =>
      case _ =>
    }
  }

  lemma {:induction false} VerdictInv(w: World, t: seq<Action>, p: string, verdict: string -> bool)
    requires w.Ok() && Legal(w, t) && VerdictsFixed(t, verdict) && p in w.fates
    ensures p in Exec(w, t).pods
    ensures Obeys(w, p, verdict, Exec(w, t).pods[p])
  {
    Reachable(w, t);
    if t != [] {
      var u, a := t[..|t| - 1], t[|t| - 1];
      assert VerdictsFixed(u, verdict);
      VerdictInv(w, u, p, verdict);
      Reachable(w, u);
      VerdictStep(w, Exec(w, u), a, p, verdict);
    }
  }

  /** Cut short anywhere, any number of times, and later finished, a run leaves a pod as one undisturbed
      pass would; a pod it has not finished is on its way there. */
  lemma Resumable(w: World, t: seq<Action>, p: string, verdict: string -> bool)
    requires w.Ok() && Legal(w, t) && VerdictsFixed(t, verdict) && p in w.fates
    ensures p in Exec(w, t).pods
    ensures var r := Exec(w, t).pods[p];
            && (Towards(w, p, verdict, r) || LeftOut(r.own))
            && (!w.fates[p].errored && !r.unfinished ==> Towards(w, p, verdict, r))
            && ((w.fates[p].errored || !r.succeeded) && r.own.status.Some? ==> LeftOut(r.own))
            && (Final(r.own.status) && !LeftOut(r.own) ==>
                  (r.own.status, r.own.artifacts, r.own.signed)
                  == (Some(Expected(w, p, verdict).0), Some(Expected(w, p, verdict).1),
                      Some(Expected(w, p, verdict).2)))
  {
    VerdictInv(w, t, p, verdict);
    Reachable(w, t);
    assert PodInv(w, Exec(w, t).pods[p], p, Exec(w, t).passNo);
  }

  /** Two runs of one workflow that finish the same pod agree on it if and only if both have left it out or
      neither has. */
  lemma FinishAlike(w: World, t: seq<Action>, u: seq<Action>, p: string, verdict: string -> bool)
    requires w.Ok() && Legal(w, t) && Legal(w, u) && p in w.fates
    requires VerdictsFixed(t, verdict) && VerdictsFixed(u, verdict)
    requires p in Exec(w, t).pods && p in Exec(w, u).pods
    requires Final(Exec(w, t).pods[p].own.status) && Final(Exec(w, u).pods[p].own.status)
    ensures var a, b := Exec(w, t).pods[p].own, Exec(w, u).pods[p].own;
            (a.status, a.artifacts, a.signed) == (b.status, b.artifacts, b.signed) <==> (LeftOut(a) <==> LeftOut(b))
  {
    hide Legal, Exec, World.Ok, VerdictsFixed, Expected;
    Resumable(w, t, p, verdict);
    Resumable(w, u, p, verdict);
    LeftOutMeans(w, t, p);
    LeftOutMeans(w, u, p);
  }

  /** A pod is left out exactly when it is final without an artifact on record. */
  lemma LeftOutMeans(w: World, t: seq<Action>, p: string)
    requires w.Ok() && Legal(w, t) && p in w.fates && p in Exec(w, t).pods
    ensures var o := Exec(w, t).pods[p].own; LeftOut(o) <==> Final(o.status) && o.artifacts.None?
  {
    ReachablePod(w, t, p);
  }

  // ---------- what was signed ----------

  function Signings(t: seq<Action>, p: string): seq<Action> {
    if t == [] then []
    else
      var a := t[|t| - 1];
      Signings(t[..|t| - 1], p) + if a.Sign? && a.pod == p then [a] else []
  }

  /** The number of passes, and the actions of the current one; a pass reaches from one `Begin` to the next. */
  function Passes(t: seq<Action>): nat {
    if t == [] then 0 else Passes(t[..|t| - 1]) + One(t[|t| - 1].Begin?)
  }

  function Current(t: seq<Action>): seq<Action> {
    if t == [] || t[|t| - 1].Begin? then [] else Current(t[..|t| - 1]) + [t[|t| - 1]]
  }

  ghost predicate AsksToSign(pass: seq<Action>, p: string) {
    exists a :: a in pass && a.Sign? && a.pod == p
  }

  ghost predicate RecordsSigning(pass: seq<Action>, p: string) {
    exists a :: a in pass && a.Write? && a.pod == p && a.key == SignedKey
  }

  /** The pass asked for a signature of the pod and has not recorded what came of it. */
  ghost predicate Cut(pass: seq<Action>, p: string) {
    AsksToSign(pass, p) && !RecordsSigning(pass, p)
  }

  /** The passes cut between signing and recording: the ended ones, and all with the current one. */
  ghost function EndedCuts(t: seq<Action>, p: string): nat {
    if t == [] then 0
    else EndedCuts(t[..|t| - 1], p) + One(t[|t| - 1].Begin? && Cut(Current(t[..|t| - 1]), p))
  }

  ghost function CutPasses(t: seq<Action>, p: string): nat {
    EndedCuts(t, p) + One(Cut(Current(t), p))
  }

  predicate SigningRecorded(o: Own) {
    Found(o) && o.signed.Some?
  }

  /** How the trace and the state agree on the signing requests for a pod. */
  ghost predicate Accounted(s: State, t: seq<Action>, p: string)
    requires p in s.pods
  {
    var r := s.pods[p];
    && |Signings(t, p)| == CutPasses(t, p) + One(SigningRecorded(r.own))
    && (AsksToSign(Current(t), p) ==> Found(r.own))
    && (RecordsSigning(Current(t), p) ==> r.own.signed.Some?)
    && (Cut(Current(t), p) <==> r.flight.Some? && r.flight.value.pass == s.passNo)
    && s.passNo == Passes(t)
    && |Signings(t, p)| <= Passes(t)
    && (|Signings(t, p)| == Passes(t) > 0 ==> AsksToSign(Current(t), p))
  }

  lemma CurrentStep(t: seq<Action>, a: Action, p: string)
    ensures Current(t + [a]) == if a.Begin? then [] else Current(t) + [a]
    ensures AsksToSign(Current(t + [a]), p) <==> !a.Begin? && (AsksToSign(Current(t), p) || (a.Sign? && a.pod == p))
    ensures RecordsSigning(Current(t + [a]), p)
            <==> !a.Begin? && (RecordsSigning(Current(t), p) || (a.Write? && a.pod == p && a.key == SignedKey))
    ensures EndedCuts(t + [a], p) == EndedCuts(t, p) + One(a.Begin? && Cut(Current(t), p))
    ensures Passes(t + [a]) == Passes(t) + One(a.Begin?)
    ensures Signings(t + [a], p) == Signings(t, p) + if a.Sign? && a.pod == p then [a] else []
  {
    assert (t + [a])[..|t|] == t;
    if !a.Begin? {
      var c := Current(t);
      assert (c + [a])[|c|] == a;
      assert forall b :: b in c ==> b in c + [a];
    }
  }

  lemma AccountStep(w: World, s: State, t: seq<Action>, a: Action, p: string)
    requires Enabled(w, s, a) && p in s.pods && p in w.fates
    requires PodInv(w, s.pods[p], p, s.passNo) && PassInv(w, s) && Accounted(s, t, p)
    ensures p in Effect(s, a).pods && Accounted(Effect(s, a), t + [a], p)
  {
    hide AsksToSign, RecordsSigning, Signings, Passes, Current, EndedCuts, MayAttest, MayScan, MayLabel, MayValidate;
    CurrentStep(t, a, p);
  }

  lemma {:induction false} AllAccounted(w: World, t: seq<Action>, p: string)
    requires w.Ok() && Legal(w, t) && p in w.fates
    ensures p in Exec(w, t).pods && Accounted(Exec(w, t), t, p)
  {
    if t == [] {
      NothingAccounted(w, p);
    } else {
      hide Accounted, Enabled, Effect, PodInv, PassInv, Legal, Exec, World.Ok;
      var u, a := t[..|t| - 1], t[|t| - 1];
      LastAction(w, t);
      AllAccounted(w, u, p);
      ReachablePod(w, u, p);
      AccountStep(w, Exec(w, u), u, a, p);
    }
  }

  lemma NothingAccounted(w: World, p: string)
    requires p in w.fates
    ensures p in Init(w).pods && Accounted(Init(w), [], p)
  {
  }

  /** The passes of the trace are those the state has counted. */
  lemma {:induction false} PassesCounted(w: World, t: seq<Action>)
    requires w.Ok() && Legal(w, t)
    ensures Exec(w, t).passNo == Passes(t)
  {
    if t != [] {
      LastAction(w, t);
      PassesCounted(w, t[..|t| - 1]);
    }
  }

  /** Every signing request is for the artifact on record, and a success on record was a request granted. */
  ghost predicate Backed(r: PodRec, signings: seq<Action>) {
    && (forall a :: a in signings ==> a.Sign? && r.own.artifacts == Some(Text(a.ref)))
    && (r.own.signed == Some(Completed) ==> exists a :: a in signings && a.ok)
    && (r.own.signed == Some(Error) ==> exists a :: a in signings && !a.ok)
    && (r.flight.Some? ==> exists a :: a in signings && a.ok == r.flight.value.ok)
  }

  lemma BackedStep(w: World, s: State, a: Action, p: string, signings: seq<Action>)
    requires Enabled(w, s, a) && p in s.pods && Backed(s.pods[p], signings)
    ensures p in Effect(s, a).pods
    ensures Backed(Effect(s, a).pods[p], signings + if a.Sign? && a.pod == p then [a] else [])
  {
    var more := signings + if a.Sign? && a.pod == p then [a] else [];
    OwnStep(w, s, a, p);
    if a.Sign? && a.pod == p {
      assert more[|signings|] == a;
    }
    assert forall b :: b in signings ==> b in more;
  }

  lemma {:induction false} SigningsBacked(w: World, t: seq<Action>, p: string)
    requires w.Ok() && Legal(w, t) && p in w.fates
    ensures p in Exec(w, t).pods && Backed(Exec(w, t).pods[p], Signings(t, p))
  {
    if t != [] {
      hide Backed, Enabled, Effect;
      SigningsBacked(w, t[..|t| - 1], p);
      BackedStep(w, Exec(w, t[..|t| - 1]), t[|t| - 1], p, Signings(t[..|t| - 1], p));
    }
  }

  /** Signing requests and signatures are accounted for. The requests are exactly one for each pass cut between
      signing and recording, and one for the pass that recorded the outcome; there is at most one in a pass; all
      of them are for the one recorded artifact; and `signed=Completed` stands for exactly that artifact's
      signature, published. */
  lemma SigningAccount(w: World, t: seq<Action>, p: string)
    requires w.Ok() && Legal(w, t) && p in w.fates
    ensures p in Exec(w, t).pods
    ensures var r := Exec(w, t).pods[p];
            && |Signings(t, p)| == CutPasses(t, p) + One(SigningRecorded(r.own))
            && |Signings(t, p)| <= 1 + CutPasses(t, p)
            && |Signings(t, p)| <= Passes(t)
            && (forall a :: a in Signings(t, p) ==> a.Sign? && r.own.artifacts == Some(Text(a.ref)))
            && (r.own.signed == Some(Completed) ==> exists a :: a in Signings(t, p) && a.ok)
            && (r.own.signed == Some(Completed) ==> r.published == {ValueText(r.own.artifacts.value)})
  {
    hide CutPasses, Signings, Passes, Legal, Exec;
    AllAccounted(w, t, p);
    SigningsBacked(w, t, p);
    Reachable(w, t);
    assert PodInv(w, Exec(w, t).pods[p], p, Exec(w, t).passNo);
  }

  /** After `signed` is recorded no pass signs the pod again. */
  lemma {:induction false} NoSecondSigning(w: World, t: seq<Action>, n: nat, p: string)
    requires w.Ok() && Legal(w, t) && n <= |t| && p in w.fates
    requires p in Exec(w, t[..n]).pods && Exec(w, t[..n]).pods[p].own.signed.Some?
    ensures Signings(t, p) == Signings(t[..n], p)
    decreases |t|
  {
    if n == |t| {
      assert t[..n] == t;
    } else {
      var u := t[..|t| - 1];
      assert u[..n] == t[..n];
      NoSecondSigning(w, u, n, p);
      Monotone(w, u, n, p);
    }
  }

  // ---------- what the label says ----------

  /** A Completed label speaks for every pod of the snapshot of its pass: done, with a provenance value, and
      either unsigned for want of an artifact or recorded as signed. All signatures succeeded if and only if
      no pod was in error already when the pass began. */
  lemma CompletedMeans(w: World, t: seq<Action>)
    requires w.Ok() && Legal(w, t) && !TerminalLabel(w.initialLabel)
    requires Exec(w, t).wfStatus == Some(Completed)
    ensures var s := Exec(w, t);
            && (forall p :: p in s.pass.members ==>
                  && p in s.pods && p in s.pass.entry
                  && Final(s.pods[p].own.status) && s.pods[p].own.provenance.Some?
                  && (Found(s.pods[p].own) ==> s.pods[p].own.signed.Some?))
            && ((forall p :: p in s.pass.members && Found(s.pods[p].own) ==> s.pods[p].own.signed == Some(Completed))
                <==> (forall p :: p in s.pass.members ==> s.pass.entry[p] != Some(Error)))
  {
    Reachable(w, t);
    var s := Exec(w, t);
    forall p | p in s.pass.members
      ensures p in s.pods && p in s.pass.entry && PodInv(w, s.pods[p], p, s.passNo)
      ensures Final(s.pods[p].own.status)
      ensures Found(s.pods[p].own) && s.pods[p].own.signed != Some(Completed) <==> s.pass.entry[p] == Some(Error)
    {
      assert MayValidate(s);
    }
  }

  /** The same for one pod: the artifact on record is its node's, and its signing failed if and only if the
      failure was on record when the pass began. */
  lemma CompletedPod(w: World, t: seq<Action>, p: string)
    requires w.Ok() && Legal(w, t) && !TerminalLabel(w.initialLabel)
    requires Exec(w, t).wfStatus == Some(Completed) && p in Exec(w, t).pass.members
    ensures p in Exec(w, t).pods && p in Exec(w, t).pass.entry && p in w.fates
    ensures var o := Exec(w, t).pods[p].own;
            && Final(o.status) && o.provenance.Some?
            && (o.artifacts.Some? ==> o.artifacts.value == w.Artifact(p))
            && (Exec(w, t).pass.entry[p] == Some(Error) ==> Found(o))
            && (Found(o) ==> o.signed == Some(if Exec(w, t).pass.entry[p] == Some(Error) then Error else Completed))
  {
    hide MayLabel, LabelInv, SbomInv;
    CompletedMeans(w, t);
    Reachable(w, t);
    assert PodInv(w, Exec(w, t).pods[p], p, Exec(w, t).passNo);
    assert MayValidate(Exec(w, t)) by {
      LabelValidated(w, Exec(w, t));
    }
  }

  lemma LabelValidated(w: World, s: State)
    requires Inv(w, s) && !TerminalLabel(w.initialLabel) && s.wfStatus == Some(Completed)
    ensures MayValidate(s)
  {
  }

  /** An Error label is owed to a pod whose signing failed in that very pass, on record, or to the provenance step
      of a pass in which every pod had been validated: a statement that it asked for was refused, or its last
      call failed. */
  lemma ErrorMeans(w: World, t: seq<Action>)
    requires w.Ok() && Legal(w, t) && !TerminalLabel(w.initialLabel)
    requires Exec(w, t).wfStatus == Some(Error)
    ensures var s := Exec(w, t);
            || (!s.pass.validated && FreshError(s))
            || (s.pass.validated && s.pass.failed && Caused(w, s.pass)
                && forall p :: p in s.pass.members ==> p in s.pods && Final(s.pods[p].own.status))
  {
    hide Caused;
    Reachable(w, t);
    assert MayLabel(Exec(w, t), Error);
  }

  /** The pods of a Completed workflow stay as they were when the label was written. */
  lemma CompletedStays(w: World, t: seq<Action>, n: nat, p: string)
    requires w.Ok() && Legal(w, t) && n <= |t| && !TerminalLabel(w.initialLabel)
    requires Exec(w, t[..n]).wfStatus == Some(Completed)
    requires p in Exec(w, t[..n]).pass.members
    ensures p in Exec(w, t).pods && Final(Exec(w, t).pods[p].own.status) && Exec(w, t).pods[p].own.provenance.Some?
    ensures Exec(w, t).wfStatus == Some(Completed)
  {
    PrefixLegal(w, t, n);
    Reachable(w, t[..n]);
    CompletedMeans(w, t[..n]);
    Frozen(w, t, n, p);
  }

  // ---------- attestation ----------

  /** The subjects are the artifacts of these pods, one for each, and of no other. */
  ghost predicate Covers(w: World, pods: map<string, PodRec>, members: seq<string>, subjects: seq<Subject>) {
    && |subjects| == |Finders(pods, members)|
    && (forall q :: q in members && q in pods && Found(pods[q].own) ==>
          exists s :: s in subjects && Identifies(w.parse, ValueText(pods[q].own.artifacts.value), s))
    && (forall s :: s in subjects ==>
          exists q :: q in members && q in pods && Found(pods[q].own)
                      && Identifies(w.parse, ValueText(pods[q].own.artifacts.value), s))
  }

  function Finders(pods: map<string, PodRec>, members: seq<string>): set<string> {
    set q | q in members && q in pods && Found(pods[q].own)
  }

  lemma FindersStep(pods: map<string, PodRec>, rest: seq<string>, p: string)
    ensures Finders(pods, rest + [p])
         == if p in pods && Found(pods[p].own) then Finders(pods, rest) + {p} else Finders(pods, rest)
    ensures p !in rest ==> p !in Finders(pods, rest)
  {
    hide Found;
    assert forall q :: q in rest + [p] <==> q in rest || q == p;
  }

  lemma {:induction false} SubjectsCounted(w: World, pods: map<string, PodRec>, members: seq<string>)
    requires forall i, j :: 0 <= i < j < |members| ==> members[i] != members[j]
    requires forall q :: q in members && q in pods && Found(pods[q].own) ==>
               IsDigestRef(w.parse, ValueText(pods[q].own.artifacts.value))
    ensures |Subjects(w, pods, members)| == |Finders(pods, members)|
  {
    hide Found, IsDigestRef, Finders;
    if members == [] {
      NoFinders(pods);
    } else {
      var rest, p := members[..|members| - 1], members[|members| - 1];
      SubjectsCounted(w, pods, rest);
      FindersStep(pods, rest, p);
      assert members == rest + [p];
    }
  }

  lemma NoFinders(pods: map<string, PodRec>)
    ensures Finders(pods, []) == {}
  {
  }

  lemma SubjectsCover(w: World, s: State)
    requires Inv(w, s) && w.Ok()
    ensures Covers(w, s.pods, s.pass.members, Subjects(w, s.pods, s.pass.members))
  {
    hide Identifies, Inv, World.Ok;
    var members, subjects := s.pass.members, Subjects(w, s.pods, s.pass.members);
    forall q | q in members && q in s.pods && Found(s.pods[q].own)
      ensures exists sub :: sub in subjects && Identifies(w.parse, ValueText(s.pods[q].own.artifacts.value), sub)
      ensures IsDigestRef(w.parse, ValueText(s.pods[q].own.artifacts.value))
    {
      InvPod(w, s, q);
      OwnSubject(w, s, members, q);
    }
    InvPass(w, s);
    SubjectsCounted(w, s.pods, members);
    forall sub | sub in subjects
      ensures exists q :: q in members && q in s.pods && Found(s.pods[q].own)
                          && Identifies(w.parse, ValueText(s.pods[q].own.artifacts.value), sub)
    {
      var q := ConcatSource((p: string) => SubjectsAt(w, s.pods, p), members, sub);
    }
  }

  lemma InvPass(w: World, s: State)
    requires Inv(w, s)
    ensures forall i, j :: 0 <= i < j < |s.pass.members| ==> s.pass.members[i] != s.pass.members[j]
  {
  }

  lemma InvPod(w: World, s: State, p: string)
    requires Inv(w, s) && p in s.pods
    ensures p in w.fates && PodInv(w, s.pods[p], p, s.passNo)
  {
  }

  /** Whatever is attested names, once each, the artifacts of all pods of the pass that found one, the
      attested pod's own among them; and every statement of a pass is the same. */
  lemma AttestationCovers(w: World, t: seq<Action>, i: nat)
    requires w.Ok() && Legal(w, t) && i < |t| && t[i].Attest?
    ensures var s := Exec(w, t[..i]); var p := t[i].pod;
            && p in s.pods && Found(s.pods[p].own) && p in s.pass.members
            && Covers(w, s.pods, s.pass.members, t[i].stmt.subjects)
            && t[i].stmt.subjects == Subjects(w, s.pods, s.pass.members)
            && (s.pass.stmt.Some? ==> t[i].stmt == s.pass.stmt.value)
            && Exec(w, t[..i + 1]).pass.stmt == Some(t[i].stmt)
  {
    hide Legal, Exec, World.Ok, Covers, Inv;
    PrefixLegal(w, t, i + 1);
    LastAction(w, t[..i + 1]);
    assert t[..i + 1][..i] == t[..i];
    Reachable(w, t[..i]);
    SubjectsCover(w, Exec(w, t[..i]));
  }

  /** Two validated passes over the same pods, in whatever orders, build the same multiset of subjects. */
  lemma SameSubjects(w: World, t: seq<Action>, n: nat)
    requires w.Ok() && Legal(w, t) && n <= |t|
    requires Exec(w, t[..n]).pass.validated && Exec(w, t).pass.validated
    requires multiset(Exec(w, t[..n]).pass.members) == multiset(Exec(w, t).pass.members)
    ensures multiset(Subjects(w, Exec(w, t[..n]).pods, Exec(w, t[..n]).pass.members))
         == multiset(Subjects(w, Exec(w, t).pods, Exec(w, t).pass.members))
  {
    PrefixLegal(w, t, n);
    Reachable(w, t[..n]);
    Reachable(w, t);
    var s0, s1 := Exec(w, t[..n]), Exec(w, t);
    forall p | p in s1.pass.members
      ensures p in s0.pods && p in s1.pods && s0.pods[p].own.artifacts == s1.pods[p].own.artifacts
    {
      assert p in multiset(s1.pass.members);
      assert MayValidate(s0);
      Monotone(w, t, n, p);
    }
    SubjectsFrame(w, s0.pods, s1.pods, s1.pass.members);
    ConcatPermutation((q: string) => SubjectsAt(w, s0.pods, q), s0.pass.members, s1.pass.members);
  }

  // ---------- what was asked of signer and registry ----------

  /** Some pass had no known signer type. */
  ghost predicate PassWithoutSigner(t: seq<Action>) {
    exists k :: 0 <= k < |t| && t[k].Begin? && t[k].cfg.signer.UnknownSigner?
  }

  /** The configuration of a pass with pods is that of a `Begin` of the trace. */
  lemma {:induction false} ConfigBegun(w: World, t: seq<Action>) returns (k: nat)
    requires w.Ok() && Legal(w, t) && Exec(w, t).passNo > 0
    ensures k < |t| && t[k].Begin? && t[k].cfg == Exec(w, t).pass.cfg
  {
    LastAction(w, t);
    if t[|t| - 1].Begin? {
      k := |t| - 1;
    } else {
      k := ConfigBegun(w, t[..|t| - 1]);
    }
  }

  /** The passes that have begun between two points of a run. */
  lemma {:induction false} BegunSince(w: World, t: seq<Action>, n: nat, k: nat)
    requires w.Ok() && Legal(w, t) && n <= k < |t| && t[k].Begin?
    ensures Exec(w, t[..n]).passNo < Exec(w, t).passNo
    ensures Exec(w, t).passNo == Exec(w, t[..n]).passNo + 1 ==> t[k].cfg == Exec(w, t).pass.cfg
    decreases |t|
  {
    var u, a := t[..|t| - 1], t[|t| - 1];
    LastAction(w, t);
    assert u[..n] == t[..n];
    if k < |t| - 1 {
      BegunSince(w, u, n, k);
    } else {
      NoFewerPasses(w, u, n);
    }
  }

  lemma {:induction false} NoFewerPasses(w: World, t: seq<Action>, n: nat)
    requires Legal(w, t) && n <= |t|
    ensures Exec(w, t[..n]).passNo <= Exec(w, t).passNo
    decreases |t|
  {
    if n == |t| {
      assert t[..n] == t;
    } else {
      LastAction(w, t);
      assert t[..|t| - 1][..n] == t[..n];
      NoFewerPasses(w, t[..|t| - 1], n);
    }
  }

  /** The action of a trace was enabled in a pass that has begun. */
  lemma EnabledAt(w: World, t: seq<Action>, k: nat)
    requires w.Ok() && Legal(w, t) && k < |t|
    ensures Legal(w, t[..k]) && Enabled(w, Exec(w, t[..k]), t[k])
    ensures PassInv(w, Exec(w, t[..k]))
  {
    hide Enabled, Exec, PassInv, World.Ok;
    PrefixLegal(w, t, k + 1);
    LastAction(w, t[..k + 1]);
    assert t[..k + 1][..k] == t[..k];
    Reachable(w, t[..k]);
  }

  lemma Unsigned(w: World, t: seq<Action>, k: nat)
    requires w.Ok() && Legal(w, t) && k < |t|
    requires Exec(w, t[..k]).passNo > 0 && Exec(w, t[..k]).pass.cfg.signer.UnknownSigner?
    ensures PassWithoutSigner(t)
  {
    PrefixLegal(w, t, k);
    var b := ConfigBegun(w, t[..k]);
    assert t[b].Begin? && t[b].cfg.signer.UnknownSigner?;
  }

  /** `signed` says how the signer answered a request for the artifact; without a signer it says Error. */
  lemma SignedMeans(w: World, t: seq<Action>, p: string)
    requires w.Ok() && Legal(w, t) && p in w.fates && p in Exec(w, t).pods && Found(Exec(w, t).pods[p].own)
    ensures var o := Exec(w, t).pods[p].own; var ref := ValueText(o.artifacts.value);
            && (o.signed == Some(Completed) ==> exists i :: w.net(SignOp, ref, i).ok)
            && (o.signed == Some(Error) ==> (exists i :: !w.net(SignOp, ref, i).ok) || PassWithoutSigner(t))
  {
    hide Legal, Exec, World.Ok;
    var o := Exec(w, t).pods[p].own;
    SigningsBacked(w, t, p);
    if o.signed == Some(Completed) || o.signed == Some(Error) {
      var a :| a in Signings(t, p) && a.ok == (o.signed == Some(Completed));
      var k := SigningAt(t, p, a);
      SignAnswered(w, t, k);
      assert ValueText(Text(a.ref)) == a.ref;
    }
  }

  lemma {:induction false} SigningAt(t: seq<Action>, p: string, a: Action) returns (k: nat)
    requires a in Signings(t, p)
    ensures k < |t| && t[k] == a && a.Sign? && a.pod == p
  {
    var n := |t| - 1;
    if t[n] == a && a.Sign? && a.pod == p {
      k := n;
    } else {
      k := SigningAt(t[..n], p, a);
    }
  }

  lemma SignAnswered(w: World, t: seq<Action>, k: nat)
    requires w.Ok() && Legal(w, t) && k < |t| && t[k].Sign?
    ensures t[k].ok ==> exists i :: w.net(SignOp, t[k].ref, i).ok
    ensures !t[k].ok ==> (exists i :: !w.net(SignOp, t[k].ref, i).ok) || PassWithoutSigner(t)
  {
    hide Legal, Exec, World.Ok, PassWithoutSigner, MaySign;
    EnabledAt(w, t, k);
    var s := Exec(w, t[..k]);
    if s.pass.cfg.signer.UnknownSigner? {
      Unsigned(w, t, k);
    } else {
      var i :| w.net(SignOp, t[k].ref, i) == NetReply(t[k].ok, t[k].published);
    }
  }

  /** The pod's last request for an attestation. */
  lemma {:induction false} LastAttest(w: World, t: seq<Action>, p: string) returns (k: nat)
    requires Legal(w, t) && p in Exec(w, t).pods && Exec(w, t).pods[p].granted.Some?
    ensures k < |t| && t[k].Attest? && t[k].pod == p && t[k].ok == Exec(w, t).pods[p].granted.value
  {
    var u, a := t[..|t| - 1], t[|t| - 1];
    if a.Attest? && a.pod == p {
      k := |t| - 1;
    } else {
      assert p in Exec(w, u).pods && Exec(w, u).pods[p].granted == Exec(w, t).pods[p].granted;
      k := LastAttest(w, u, p);
    }
  }

  lemma CoversOwn(w: World, pods: map<string, PodRec>, members: seq<string>, subjects: seq<Subject>, p: string)
    requires Covers(w, pods, members, subjects) && p in members && p in pods && Found(pods[p].own)
    ensures exists s :: s in subjects && Identifies(w.parse, ValueText(pods[p].own.artifacts.value), s)
  {
  }

  lemma AttestAnswered(w: World, t: seq<Action>, k: nat)
    requires w.Ok() && Legal(w, t) && k < |t| && t[k].Attest?
    requires t[k].pod in Exec(w, t).pods && t[k].pod in w.fates
    ensures var ref := ValueText(w.Artifact(t[k].pod));
            && (t[k].ok ==> exists i :: w.net(AttestOp, ref, i).ok)
            && (!t[k].ok ==> (exists i :: !w.net(AttestOp, ref, i).ok) || PassWithoutSigner(t))
            && exists s :: s in t[k].stmt.subjects && Identifies(w.parse, ref, s)
  {
    hide Legal, Exec, World.Ok, PassWithoutSigner, World.Artifact, Covers, Identifies, MayAttest;
    EnabledAt(w, t, k);
    AttestationCovers(w, t, k);
    var s, p := Exec(w, t[..k]), t[k].pod;
    ReachablePod(w, t[..k], p);
    CoversOwn(w, s.pods, s.pass.members, t[k].stmt.subjects, p);
    if s.pass.cfg.signer.UnknownSigner? {
      Unsigned(w, t, k);
    } else {
      var i :| w.net(AttestOp, ValueText(s.pods[p].own.artifacts.value), i) == NetReply(t[k].ok, t[k].published);
    }
  }

  /** `provenance` of a pod with an artifact says how a request to attest it was answered: Attached that one was
      granted, for a statement that names the artifact; Error that one was refused, or that there was no signer. */
  lemma ProvenanceMeans(w: World, t: seq<Action>, p: string)
    requires w.Ok() && Legal(w, t) && p in w.fates && p in Exec(w, t).pods
    requires Found(Exec(w, t).pods[p].own) && Exec(w, t).pods[p].own.provenance.Some?
    ensures var o := Exec(w, t).pods[p].own; var ref := ValueText(o.artifacts.value);
            && o.provenance.value in {Attached, Error}
            && (o.provenance.value == Attached ==> exists i :: w.net(AttestOp, ref, i).ok)
            && (o.provenance.value == Error ==> (exists i :: !w.net(AttestOp, ref, i).ok) || PassWithoutSigner(t))
            && exists k :: 0 <= k < |t| && AttestsWell(w, t[k], p, ref, o.provenance.value == Attached)
  {
    hide Legal, Exec, World.Ok, PassWithoutSigner, World.Artifact, Identifies;
    ReachablePod(w, t, p);
    var k := LastAttest(w, t, p);
    AttestAnswered(w, t, k);
    assert AttestsWell(w, t[k], p, ValueText(w.Artifact(p)), t[k].ok);
  }

  /** A request to attest the pod, so answered, for a statement that names the image. */
  ghost predicate AttestsWell(w: World, a: Action, p: string, ref: string, ok: bool) {
    a.Attest? && a.pod == p && a.ok == ok && exists s :: s in a.stmt.subjects && Identifies(w.parse, ref, s)
  }

  // ---------- SBOMs ----------

  /** `sbom=Attached` on an image means that for every image that is scanned for it the scan and a request to
      attest its SBOM were answered with success, and the SBOM is published. */
  lemma AttachedMeans(w: World, t: seq<Action>, p: string, target: string)
    requires w.Ok() && Legal(w, t) && p in w.fates && p in Exec(w, t).pods
    requires Found(Exec(w, t).pods[p].own) && Exec(w, t).pods[p].own.sbom == Some(Attached)
    requires target in w.SbomTargets(ValueText(Exec(w, t).pods[p].own.artifacts.value))
    ensures target in Exec(w, t).sboms
    ensures exists i :: w.net(SyftOp, target, i).ok
    ensures exists i :: w.net(AttestSbomOp, target, i).ok
  {
    Reachable(w, t);
    DescribedMeans(w, t, target);
  }

  lemma {:induction false} DescribedMeans(w: World, t: seq<Action>, ref: string)
    requires w.Ok() && Legal(w, t) && ref in Exec(w, t).described
    ensures ref in Exec(w, t).sboms
    ensures exists i :: w.net(SyftOp, ref, i).ok
    ensures exists i :: w.net(AttestSbomOp, ref, i).ok
  {
    var u, a := t[..|t| - 1], t[|t| - 1];
    if ref in Exec(w, u).described {
      DescribedMeans(w, u, ref);
    } else {
      assert a.AttestSbom? && a.ref == ref && a.ok;
      var i :| w.net(AttestSbomOp, ref, i) == NetReply(a.ok, a.published);
    }
  }

  /** `sbom=Error` on an image means that some request on the way was refused, that the manifest does not decode
      or the reference of a manifest list does not parse, or that there was no signer. */
  lemma UndescribedMeans(w: World, t: seq<Action>, p: string)
    requires w.Ok() && Legal(w, t) && p in w.fates && p in Exec(w, t).pods
    requires Found(Exec(w, t).pods[p].own) && Exec(w, t).pods[p].own.sbom == Some(Error)
    ensures SbomRefused(w, ValueText(Exec(w, t).pods[p].own.artifacts.value)) || PassWithoutSigner(t)
  {
    hide Legal, Exec, World.Ok, PassWithoutSigner, World.Artifact, SbomRefused;
    ReachablePod(w, t, p);
    var k := SbomFailed(w, t, p);
    EnabledAt(w, t, k);
    ReachablePod(w, t[..k], p);
    if Exec(w, t[..k]).pass.cfg.signer.UnknownSigner? {
      Unsigned(w, t, k);
    }
  }

  lemma {:induction false} SbomFailed(w: World, t: seq<Action>, p: string) returns (k: nat)
    requires Legal(w, t) && p in Exec(w, t).pods && Exec(w, t).pods[p].unscanned
    ensures k < |t| && t[k] == SbomFail(p)
  {
    var u, a := t[..|t| - 1], t[|t| - 1];
    if a == SbomFail(p) {
      k := |t| - 1;
    } else {
      assert p in Exec(w, u).pods && Exec(w, u).pods[p].unscanned;
      k := SbomFailed(w, u, p);
    }
  }

  /** Without the configuration for it no pod is given an SBOM value. */
  lemma {:induction false} SbomsWanted(w: World, t: seq<Action>, p: string)
    requires w.Ok() && Legal(w, t) && p in w.fates && p in Exec(w, t).pods
    requires forall k :: 0 <= k < |t| && t[k].Begin? ==> !t[k].cfg.sbomGeneration
    ensures Exec(w, t).pods[p].own.sbom.None? && Exec(w, t).sboms == {}
  {
    hide World.Ok, World.SbomTargets, SbomRefused, MayAttest, MaySign, MayLabel, MayValidate, Answered;
    if t != [] {
      var u := t[..|t| - 1];
      LastAction(w, t);
      ReachablePod(w, u, p);
      SbomsWanted(w, u, p);
      NeverWanted(w, u);
    }
  }

  lemma NeverWanted(w: World, t: seq<Action>)
    requires w.Ok() && Legal(w, t)
    requires forall k :: 0 <= k < |t| && t[k].Begin? ==> !t[k].cfg.sbomGeneration
    ensures Exec(w, t).pass.cfg.sbomGeneration ==> Exec(w, t).pass.members == []
  {
    hide Legal, Exec, World.Ok;
    if Exec(w, t).passNo > 0 {
      var k := ConfigBegun(w, t);
    } else {
      Reachable(w, t);
    }
  }

  /** An image that is scanned for the artifact of some pod. */
  ghost predicate Scannable(w: World, ref: string) {
    exists p :: p in w.fates && w.Artifact(p) != NoArtifacts && ref in w.SbomTargets(ValueText(w.Artifact(p)))
  }

  /** SBOMs are attested for such images only. */
  lemma {:induction false} ScannedOnly(w: World, t: seq<Action>, ref: string)
    requires w.Ok() && Legal(w, t) && ref in Exec(w, t).sboms
    ensures Scannable(w, ref)
  {
    var u, a := t[..|t| - 1], t[|t| - 1];
    if ref in Exec(w, u).sboms {
      ScannedOnly(w, u, ref);
    } else {
      Reachable(w, u);
      assert a.AttestSbom? && a.ref == ref;
      assert PodInv(w, Exec(w, u).pods[a.pod], a.pod, Exec(w, u).passNo);
    }
  }

  /** All images that the manifest lists have an SBOM. */
  ghost predicate Covered(w: World, s: State, ref: string) {
    forall c :: c in w.Children(ref) ==> c in s.sboms
  }

  /** No other pod's artifact has one of these images scanned. */
  ghost predicate OwnPlatforms(w: World, p: string, ref: string) {
    forall q, c :: q in w.fates && q != p && w.Artifact(q) != NoArtifacts && c in w.Children(ref) ==>
      c !in w.SbomTargets(ValueText(w.Artifact(q)))
  }

  /** With `sbom=Attached` all platforms of a Docker manifest list have an SBOM. Those of any other index have
      one only by way of other pods: never, unless the index lists nothing but itself. */
  lemma PlatformsCovered(w: World, t: seq<Action>, p: string)
    requires w.Ok() && Legal(w, t) && p in w.fates && p in Exec(w, t).pods
    requires Found(Exec(w, t).pods[p].own) && Exec(w, t).pods[p].own.sbom == Some(Attached)
    ensures var ref := ValueText(Exec(w, t).pods[p].own.artifacts.value);
            && (IsMultiPlatform(w.manifest(ref)) ==> Covered(w, Exec(w, t), ref))
            && (Covered(w, Exec(w, t), ref) ==> forall c :: c in w.Children(ref) ==> Scannable(w, c))
            && (OwnPlatforms(w, p, ref) ==>
                  (Covered(w, Exec(w, t), ref)
                   <==> IsMultiPlatform(w.manifest(ref)) || forall c :: c in w.Children(ref) ==> c == ref))
  {
    hide Legal, Exec, World.Children, World.Artifact;
    var s := Exec(w, t);
    var ref := ValueText(s.pods[p].own.artifacts.value);
    forall c | c in s.sboms
      ensures Scannable(w, c)
    {
      ScannedOnly(w, t, c);
    }
    forall c | c in w.SbomTargets(ref)
      ensures c in s.sboms
    {
      AttachedMeans(w, t, p, c);
    }
    Recorded(w, t, p);
    if !IsMultiPlatform(w.manifest(ref)) && OwnPlatforms(w, p, ref) && Covered(w, s, ref) {
      forall c | c in w.Children(ref)
        ensures c == ref
      {
        var q :| q in w.fates && w.Artifact(q) != NoArtifacts && c in w.SbomTargets(ValueText(w.Artifact(q)));
      }
    }
  }

  lemma Recorded(w: World, t: seq<Action>, p: string)
    requires w.Ok() && Legal(w, t) && p in w.fates && p in Exec(w, t).pods
    ensures Exec(w, t).pods[p].own.artifacts.Some? ==> Exec(w, t).pods[p].own.artifacts.value == w.Artifact(p)
  {
    Reachable(w, t);
    assert PodInv(w, Exec(w, t).pods[p], p, Exec(w, t).passNo);
  }
}
