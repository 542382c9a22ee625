/** The API server and the registry as the controller meets them: every call is answered by an oracle, other
    clients change other keys between any two calls, and a ghost trace records what the controller does. */
module Cluster {
  import opened Metadata
  import MergePatch
  import opened Nodes
  import opened Environment
  import opened Protocol

  datatype ObjKey = WorkflowObj | PodObj(name: string)

  datatype MetaField = Labels | Annotations

  function Other(field: MetaField): MetaField {
    if field.Labels? then Annotations else Labels
  }

  datatype Stored = Stored(labels: Meta, annotations: Meta, succeeded: bool)

  /** How a step of the controller fails; the controller dispatches on the first two. */
  datatype Failure =
    | NotReconciled
    | SigningFailed(display: string)
    | ConflictOrNotFound
    | ApiFailure
    | UnknownPhase(name: string)
    | GenerationFailed

  /** The keys that the controller alone writes. */
  function OwnedKeys(key: ObjKey, field: MetaField): set<Key> {
    match (key, field)
    case (PodObj(_), Annotations) => POD_KEYS
    case (WorkflowObj, Labels) => {StatusKey}
    case _ => {}
  }

  /** `m` after other clients have replaced every key not in `owned`. */
  function Mix(m: Meta, noise: Meta, owned: set<Key>): (r: Meta)
    ensures forall k {:trigger At(r, k)} :: At(r, k) == if k in owned then At(m, k) else At(noise, k)
  {
    map k | k in m.Keys + noise.Keys && (if k in owned then k in m else k in noise) ::
      if k in owned then m[k] else noise[k]
  }

  function Disturb(st: Stored, key: ObjKey, out: Outcome): Stored {
    Stored(Mix(st.labels, out.labels, OwnedKeys(key, Labels)),
           Mix(st.annotations, out.annotations, OwnedKeys(key, Annotations)),
           st.succeeded || (key.PodObj? && out.succeeded))
  }

  lemma DisturbedLabels(st: Stored, key: ObjKey, out: Outcome)
    ensures AgreeElsewhere(Disturb(st, key, out).labels, out.labels, OwnedKeys(key, Labels))
  {
  }

  ghost predicate AgreeElsewhere(a: Meta, b: Meta, owned: set<Key>) {
    forall k {:trigger At(a, k)} {:trigger At(b, k)} :: k !in owned ==> At(a, k) == At(b, k)
  }

  function MetaOf(st: Stored, field: MetaField): Meta {
    if field.Labels? then st.labels else st.annotations
  }

  /** The action that a patch of one owned key is. */
  function ActOf(key: ObjKey, k: Key, v: Value): Action {
    match key
    case PodObj(p) => Write(p, k, v)
    case WorkflowObj => Label(v)
  }

  /** `s'` is `s` but for the object `key`. */
  ghost predicate SameElse(s: State, s': State, key: ObjKey) {
    && s'.pods.Keys == s.pods.Keys
    && (forall q :: q in s.pods && PodObj(q) != key ==> s'.pods[q] == s.pods[q])
    && s'.passNo == s.passNo && s'.pass == s.pass && s'.sboms == s.sboms && s'.described == s.described
    && (key.PodObj? ==> s'.wfStatus == s.wfStatus)
  }

  /** One pod before and after a patch of key `k` that was or was not applied. */
  ghost predicate RecStep(r: PodRec, r': PodRec, k: Key, v: Value, done: bool) {
    r' == (if done then Written(r, k, v) else r).(succeeded := r'.succeeded) && (r.succeeded ==> r'.succeeded)
  }

  /** The durable state before and after such a patch. */
  ghost predicate Patched(s: State, s': State, key: ObjKey, k: Key, v: Value, done: bool) {
    SameElse(s, s', key)
    && match key
       case PodObj(p) => p in s.pods ==> RecStep(s.pods[p], s'.pods[p], k, v, done)
       case WorkflowObj => s' == if done then s.(wfStatus := Some(v)) else s
  }

  /** What other clients may do to the durable state between two calls: let a pod succeed. */
  function Drift(s: State, key: ObjKey, out: Outcome): State {
    if key.PodObj? && key.name in s.pods && out.succeeded then Effect(s, Succeed(key.name)) else s
  }

  ghost predicate Drifted(s: State, s': State, key: ObjKey) {
    s' == s || (key.PodObj? && key.name in s.pods && s' == Effect(s, Succeed(key.name)))
  }

  /** The store holds the durable state. */
  ghost predicate Mirrors(store: map<ObjKey, Stored>, s: State) {
    && WorkflowObj in store && (forall p :: PodObj(p) in store <==> p in s.pods)
    && At(store[WorkflowObj].labels, StatusKey) == s.wfStatus
    && (forall p :: p in s.pods ==> OwnOf(store[PodObj(p)].annotations) == s.pods[p].own
                                    && store[PodObj(p)].succeeded == s.pods[p].succeeded)
  }

  /** The two stores differ in the controller's own keys only. */
  ghost predicate SameOthers(store: map<ObjKey, Stored>, shadow: map<ObjKey, Stored>) {
    store.Keys == shadow.Keys
    && forall o :: o in store ==> OthersOf(o, store[o], shadow[o])
  }

  ghost predicate OthersOf(o: ObjKey, a: Stored, b: Stored) {
    && AgreeElsewhere(a.labels, b.labels, OwnedKeys(o, Labels))
    && AgreeElsewhere(a.annotations, b.annotations, OwnedKeys(o, Annotations))
  }

  lemma SameAgrees(o: ObjKey, a: Stored)
    ensures OthersOf(o, a, a)
  {
  }

  lemma DriftMirrors(store: map<ObjKey, Stored>, s: State, key: ObjKey, out: Outcome)
    requires Mirrors(store, s) && key in store
    ensures Mirrors(store[key := Disturb(store[key], key, out)], Drift(s, key, out))
  {
    var st := Disturb(store[key], key, out);
    match key
    case WorkflowObj => assert At(st.labels, StatusKey) == At(store[key].labels, StatusKey);
    case PodObj(p) => assert OwnOf(st.annotations) == OwnOf(store[key].annotations);
  }

  lemma DriftOthers(store: map<ObjKey, Stored>, shadow: map<ObjKey, Stored>, key: ObjKey, out: Outcome)
    requires SameOthers(store, shadow) && key in store
    ensures SameOthers(store[key := Disturb(store[key], key, out)], shadow[key := Disturb(shadow[key], key, out)])
  {
    var a, b := Disturb(store[key], key, out), Disturb(shadow[key], key, out);
    assert OthersOf(key, store[key], shadow[key]);
    assert OthersOf(key, a, b);
  }

  function SetMeta(st: Stored, field: MetaField, m: Meta): Stored {
    if field.Labels? then st.(labels := m) else st.(annotations := m)
  }

  lemma PatchMirrors(store: map<ObjKey, Stored>, s: State, key: ObjKey, field: MetaField, k: Key, v: Value)
    requires Mirrors(store, s) && key in store && k in OwnedKeys(key, field)
    ensures Mirrors(store[key := SetMeta(store[key], field, MetaOf(store[key], field)[k := v])],
              Effect(s, ActOf(key, k, v)))
    ensures Effect(s, ActOf(key, k, v)).pods.Keys == s.pods.Keys
  {
    hide Mirrors, SetMeta, OwnOf;
    match key
    case WorkflowObj => LabelMirrors(store, s, v);
    case PodObj(p) => PodMirrors(store, s, p, k, v);
  }

  lemma LabelMirrors(store: map<ObjKey, Stored>, s: State, v: Value)
    requires Mirrors(store, s)
    ensures var st := store[WorkflowObj];
            Mirrors(store[WorkflowObj := SetMeta(st, Labels, MetaOf(st, Labels)[StatusKey := v])], Effect(s, Label(v)))
  {
    hide OwnOf, OwnedKeys;
  }

  lemma PodMirrors(store: map<ObjKey, Stored>, s: State, p: string, k: Key, v: Value)
    requires Mirrors(store, s) && PodObj(p) in store && k in POD_KEYS
    ensures p in s.pods
    ensures var st := store[PodObj(p)];
            Mirrors(store[PodObj(p) := SetMeta(st, Annotations, MetaOf(st, Annotations)[k := v])],
                Effect(s, Write(p, k, v)))
  {
    var st := store[PodObj(p)];
    assert OwnOf(st.annotations[k := v]) == Put(OwnOf(st.annotations), k, v);
    hide OwnOf;
  }

  lemma PatchOthers(store: map<ObjKey, Stored>, shadow: map<ObjKey, Stored>, key: ObjKey, field: MetaField, k: Key,
                    v: Value)
    requires SameOthers(store, shadow) && key in store && k in OwnedKeys(key, field)
    ensures SameOthers(store[key := SetMeta(store[key], field, MetaOf(store[key], field)[k := v])], shadow)
  {
    assert OthersOf(key, store[key], shadow[key]);
    assert OthersOf(key, SetMeta(store[key], field, MetaOf(store[key], field)[k := v]), shadow[key]);
  }

  /** Other clients cannot disable a write of the controller. */
  lemma StillEnabled(w: World, s: State, s': State, key: ObjKey, k: Key, v: Value)
    requires Drifted(s, s', key) && Enabled(w, s, ActOf(key, k, v))
    ensures Enabled(w, s', ActOf(key, k, v))
  {
  }

  /** What a pass asks of the signer and the registry. */
  datatype Effects = Effects(signed: seq<string>, sboms: nat, attests: nat)

  /** The history: the durable state, the actions that led to it, the store as other clients alone would have
      made it, the requests made, and the images handed to the SBOM generator. */
  datatype Journal = Journal(
    s: State,
    trace: seq<Action>,
    shadow: map<ObjKey, Stored>,
    effects: Effects,
    scanned: seq<string>)

  /** The requests counted with an action; those to the SBOM generator are counted where they are made. */
  function Charged(e: Effects, a: Action): Effects {
    match a
    case Sign(_, ref, _, _) => e.(signed := e.signed + [ref])
    case Attest(_, _, _, _) => e.(attests := e.attests + 1)
    case _ => e
  }

  function Record(j: Journal, a: Action): Journal {
    j.(s := Effect(j.s, a), trace := j.trace + [a], effects := Charged(j.effects, a))
  }

  /** The journal of other clients' changes to an object. */
  function Disturbed(j: Journal, key: ObjKey, out: Outcome): Journal
    requires key in j.shadow
  {
    (if key.PodObj? && key.name in j.s.pods && out.succeeded then Record(j, Succeed(key.name)) else j)
    .(shadow := j.shadow[key := Disturb(j.shadow[key], key, out)])
  }

  /** `j'` continues `j` without any request to signer or registry. */
  predicate Continues(j: Journal, j': Journal) {
    j.trace <= j'.trace && j'.effects == j.effects && j'.scanned == j.scanned
  }

  /** The store is where the history leads, and outside its own keys the controller has changed nothing. */
  ghost predicate Good(w: World, store: map<ObjKey, Stored>, j: Journal) {
    && w.Ok() && Legal(w, j.trace) && j.s == Exec(w, j.trace)
    && j.s.pods.Keys == w.fates.Keys
    && Mirrors(store, j.s) && SameOthers(store, j.shadow)
  }

  lemma DisturbGood(w: World, store: map<ObjKey, Stored>, j: Journal, key: ObjKey, out: Outcome)
    requires Good(w, store, j) && key in store
    requires key.PodObj? ==> key.name in j.s.pods
    ensures key in j.shadow && Good(w, store[key := Disturb(store[key], key, out)], Disturbed(j, key, out))
    ensures Drifted(j.s, Disturbed(j, key, out).s, key) && Continues(j, Disturbed(j, key, out))
  {
    hide Enabled, Legal, Exec, Mirrors, OthersOf, Disturb;
    DriftMirrors(store, j.s, key, out);
    DriftOthers(store, j.shadow, key, out);
    if key.PodObj? && out.succeeded {
      SucceedEnabled(w, j.s, key.name);
      Append(w, j.trace, Succeed(key.name));
    }
  }

  /** What the pass has on record of calls and requests has been made. */
  predicate Timely(pass: Pass, clock: nat, requests: nat) {
    && pass.calls <= clock && pass.failedAt <= clock && pass.requests <= requests
    && (pass.refused.Some? ==> pass.refused.value < requests)
  }

  lemma TimelySoon(pass: Pass, clock: nat, requests: nat)
    requires Timely(pass, clock, requests)
    ensures Timely(pass, clock + 1, requests)
  {
  }

  /** The action records only calls and requests that have been made. */
  predicate TimelyAction(a: Action, clock: nat, requests: nat) {
    match a
    case Validate(calls, reqs) => calls <= clock && reqs <= requests
    case Generate(_, at, _) => at < requests
    case ProvenanceFail(calls) => calls <= clock
    case _ => true
  }

  lemma TimelyStep(s: State, a: Action, clock: nat, requests: nat)
    requires Timely(s.pass, clock, requests) && TimelyAction(a, clock, requests)
    ensures Timely(Effect(s, a).pass, clock, requests)
  {
  }

  lemma SamePass(j: Journal, key: ObjKey, out: Outcome)
    requires key in j.shadow
    ensures Disturbed(j, key, out).s.pass == j.s.pass
  {
  }

  lemma SucceedEnabled(w: World, s: State, p: string)
    requires p in s.pods
    ensures Enabled(w, s, Succeed(p))
  {
  }

  lemma PatchGood(w: World, store: map<ObjKey, Stored>, j: Journal, key: ObjKey, field: MetaField, k: Key, v: Value)
    requires Good(w, store, j) && key in store && k in OwnedKeys(key, field) && Enabled(w, j.s, ActOf(key, k, v))
    ensures Good(w, store[key := SetMeta(store[key], field, MetaOf(store[key], field)[k := v])],
              Record(j, ActOf(key, k, v)))
  {
    hide Enabled, Legal, Exec, Mirrors, OthersOf, SetMeta, MetaOf, OwnedKeys, Effect, ActOf;
    PatchMirrors(store, j.s, key, field, k, v);
    PatchOthers(store, j.shadow, key, field, k, v);
    Append(w, j.trace, ActOf(key, k, v));
  }

  lemma PatchRecorded(j: Journal, key: ObjKey, k: Key, v: Value)
    ensures Continues(j, Record(j, ActOf(key, k, v))) && Record(j, ActOf(key, k, v)).s == Effect(j.s, ActOf(key, k, v))
    ensures Record(j, ActOf(key, k, v)).s.pass == j.s.pass
  {
  }

  lemma RecordGood(w: World, store: map<ObjKey, Stored>, j: Journal, a: Action)
    requires Good(w, store, j) && Enabled(w, j.s, a) && !a.Write? && !a.Label? && !a.Succeed?
    ensures Good(w, store, Record(j, a))
  {
    hide Enabled, Legal, Exec, Effect;
    MirrorFrame(w, store, j.s, a);
    Append(w, j.trace, a);
  }

  lemma MirrorFrame(w: World, store: map<ObjKey, Stored>, s: State, a: Action)
    requires Mirrors(store, s) && !a.Write? && !a.Label? && !a.Succeed?
    ensures Mirrors(store, Effect(s, a)) && Effect(s, a).pods.Keys == s.pods.Keys
  {
    hide OwnOf, SameOthers;
    var s' := Effect(s, a);
    forall p | p in s'.pods
      ensures p in s.pods && s'.pods[p].own == s.pods[p].own && s'.pods[p].succeeded == s.pods[p].succeeded
    {
    }
  }

  /** What `Mirrors` says of one object. */
  lemma GoodObject(w: World, store: map<ObjKey, Stored>, j: Journal, key: ObjKey)
    requires Good(w, store, j)
    ensures key in store <==> key == WorkflowObj || (key.PodObj? && key.name in j.s.pods)
    ensures key in store && key.PodObj? ==>
              OwnOf(store[key].annotations) == j.s.pods[key.name].own
                  && store[key].succeeded == j.s.pods[key.name].succeeded
    ensures key == WorkflowObj ==> At(store[key].labels, StatusKey) == j.s.wfStatus
    ensures key in store ==> key in j.shadow && OthersOf(key, store[key], j.shadow[key])
    ensures w.Ok()
  {
  }

  /** The in-memory copy of a Kubernetes object; `nodes` is the node map of a workflow. */
  class Object {
    const key: ObjKey
    var labels: Meta
    var annotations: Meta
    var succeeded: bool
    var nodes: map<string, Node>

    constructor Named(key: ObjKey)
      ensures this.key == key && nodes == map[]
    {
      this.key := key;
      labels, annotations, succeeded, nodes := map[], map[], false, map[];
    }

    constructor DeepCopy(r: Object)
      ensures key == r.key && labels == r.labels && annotations == r.annotations
      ensures succeeded == r.succeeded && nodes == r.nodes
    {
      key := r.key;
      labels, annotations, succeeded, nodes := r.labels, r.annotations, r.succeeded, r.nodes;
    }

    function Get(field: MetaField): Meta
      reads this
    {
      if field.Labels? then labels else annotations
    }
  }

  class Server {
    const w: World
    var store: map<ObjKey, Stored>
    var clock: nat      // calls through the controller's client so far
    var requests: nat   // registry and signing requests so far
    ghost var j: Journal

    ghost predicate Valid()
      reads this
    {
      Good(w, store, j) && Timely(j.s.pass, clock, requests)
    }

    /** The object is a current copy. */
    ghost predicate Current(r: Object)
      reads this, r
    {
      r.key in store && r.labels == store[r.key].labels
      && r.annotations == store[r.key].annotations && r.succeeded == store[r.key].succeeded
    }

    /** Every call from number `lo` up to `hi` succeeded. */
    ghost predicate Quiet(lo: nat, hi: nat) {
      forall i :: lo <= i < hi ==> w.tape(i).reply == Ok
    }

    /** One of these calls showed the nodes. */
    ghost predicate Shown(nodes: map<string, Node>, lo: nat, hi: nat) {
      exists i :: lo <= i < hi && w.tape(i).nodes == nodes
    }

    lemma ShownOk(nodes: map<string, Node>, lo: nat, hi: nat)
      requires Valid() && Shown(nodes, lo, hi)
      ensures w.NodesOk(nodes)
    {
      hide World.NodesOk;
    }

    static function AtFirst(w: World): map<ObjKey, Stored> {
      (map o | o in (set p | p in w.fates :: PodObj(p)) ::
         Stored(map[], map[], o.PodObj? && o.name in w.startSucceeded))
      [WorkflowObj :=
         Stored(if w.initialLabel.Some? then map[StatusKey := w.initialLabel.value] else map[], map[], false)]
    }

    static lemma FirstStored(w: World, p: string)
      ensures WorkflowObj in AtFirst(w) && At(AtFirst(w)[WorkflowObj].labels, StatusKey) == w.initialLabel
      ensures PodObj(p) in AtFirst(w) <==> p in w.fates
      ensures p in w.fates ==> AtFirst(w)[PodObj(p)] == Stored(map[], map[], p in w.startSucceeded)
    {
    }

    static lemma FirstMirrors(w: World)
      ensures Mirrors(AtFirst(w), Init(w)) && SameOthers(AtFirst(w), AtFirst(w))
    {
      hide AtFirst, OthersOf;
      FirstStored(w, "");
      forall p
        ensures PodObj(p) in AtFirst(w) <==> p in w.fates
        ensures p in w.fates ==> AtFirst(w)[PodObj(p)] == Stored(map[], map[], p in w.startSucceeded)
      {
        FirstStored(w, p);
      }
      forall o | o in AtFirst(w)
        ensures OthersOf(o, AtFirst(w)[o], AtFirst(w)[o])
      {
        SameAgrees(o, AtFirst(w)[o]);
      }
    }

    static lemma FirstGood(w: World)
      requires w.Ok()
      ensures Good(w, AtFirst(w), Journal(Init(w), [], AtFirst(w), Effects([], 0, 0), []))
    {
      hide World.Ok, AtFirst, Mirrors, SameOthers;
      FirstMirrors(w);
    }

    constructor (w: World)
      requires w.Ok()
      ensures Valid() && this.w == w && clock == 0
      ensures j.trace == [] && j.effects == Effects([], 0, 0)
    {
      hide Good, AtFirst;
      FirstGood(w);
      this.w := w;
      store := AtFirst(w);
      clock, requests := 0, 0;
      j := Journal(Init(w), [], AtFirst(w), Effects([], 0, 0), []);
    }

    /** Append to the history an action that writes nothing to the API server. */
    ghost method Commit(a: Action)
      requires Valid() && Enabled(w, j.s, a) && !a.Write? && !a.Label? && !a.Succeed?
      requires TimelyAction(a, clock, requests)
      modifies this`j
      ensures Valid() && j == Record(old(j), a)
    {
      RecordGood(w, store, j, a);
      TimelyStep(j.s, a, clock, requests);
      j := Record(j, a);
    }

    /** Read an object that the controller only reads. */
    method GetReadOnly() returns (reply: Reply)
      requires Valid()
      modifies this`clock
      ensures Valid() && clock == old(clock) + 1
      ensures reply == if w.tape(old(clock)).reply == LostReply then Failed else w.tape(old(clock)).reply
    {
      reply := if w.tape(clock).reply == LostReply then Failed else w.tape(clock).reply;
      clock := clock + 1;
    }

    method Get(r: Object) returns (reply: Reply)
      requires Valid()
      modifies this, r
      ensures Valid() && Continues(old(j), j) && clock == old(clock) + 1 && requests == old(requests)
      ensures Drifted(old(j.s), j.s, r.key)
      ensures r.key in old(store) ==> j.s == Drift(old(j.s), r.key, w.tape(old(clock)))
      ensures store.Keys == old(store.Keys)
      ensures reply == Ok ==> Current(r) && r.nodes == w.tape(old(clock)).nodes
      ensures reply == Ok ==> AgreeElsewhere(r.labels, w.tape(old(clock)).labels, OwnedKeys(r.key, Labels))
      ensures reply == if r.key !in store then NotFound
                       else if w.tape(old(clock)).reply == LostReply then Failed else w.tape(old(clock)).reply
      ensures reply != Ok ==> unchanged(r)
    {
      hide Good, Disturb, AgreeElsewhere, OthersOf, OwnOf, OwnedKeys, World.Ok;
      GoodObject(w, store, j, r.key);
      var out := w.tape(clock);
      if r.key in store {
        DisturbedLabels(store[r.key], r.key, out);
      }
      if r.key !in store {
        reply := NotFound;
      } else {
        DisturbGood(w, store, j, r.key, out);
        SamePass(j, r.key, out);
        j := Disturbed(j, r.key, out);
        store := store[r.key := Disturb(store[r.key], r.key, out)];
        reply := if out.reply == LostReply then Failed else out.reply;
        if reply == Ok {
          var st := store[r.key];
          r.labels, r.annotations, r.succeeded, r.nodes := st.labels, st.annotations, st.succeeded, out.nodes;
        }
      }
      clock := clock + 1;
    }

    /** Send the merge patch from `original` to `r`; on success `r` becomes what the server answers. */
    method Patch(r: Object, original: Object, ghost field: MetaField, ghost k: Key, ghost v: Value)
      returns (reply: Reply)
      requires Valid() && r != original && r.key == original.key && r.key in store
      requires k in OwnedKeys(r.key, field) && At(original.Get(field), k) != Some(v)
      requires r.Get(field) == original.Get(field)[k := v]
      requires r.Get(Other(field)) == original.Get(Other(field))
      requires Enabled(w, j.s, ActOf(r.key, k, v))
      modifies this, r
      ensures Valid() && Continues(old(j), j) && clock == old(clock) + 1 && requests == old(requests)
      ensures if reply in {Ok, LostReply} then Patched(old(j.s), j.s, r.key, k, v, true)
                else Drifted(old(j.s), j.s, r.key)
      ensures store.Keys == old(store.Keys)
      ensures reply == Ok ==> Current(r) && r.nodes == w.tape(old(clock)).nodes
      ensures reply != Ok ==> unchanged(r)
      ensures reply == w.tape(old(clock)).reply
    {
      hide Good, Disturb, Disturbed, Record, Enabled, Drifted, Patched, Effect, SetMeta, MergePatch.Apply,
           MergePatch.Diff, ActOf, OwnedKeys, MetaOf, Timely, Continues, OthersOf, OwnOf;
      TimelySoon(j.s.pass, clock, requests);
      GoodObject(w, store, j, r.key);
      var out := w.tape(clock);
      var st := Disturb(store[r.key], r.key, out);
      reply := out.reply;
      if reply == Ok || reply == LostReply {
        var st' := Stored(
          MergePatch.Apply(st.labels, MergePatch.Diff(original.labels, r.labels)),
          MergePatch.Apply(st.annotations, MergePatch.Diff(original.annotations, r.annotations)),
          st.succeeded);
        OneKeyPatch(st, original.labels, original.annotations, r.labels, r.annotations, field, k, v);
        AppliedGood(w, store, j, r.key, out, field, k, v);
        j := Record(Disturbed(j, r.key, out), ActOf(r.key, k, v));
        store := store[r.key := st'];
        if reply == Ok {
          r.labels, r.annotations, r.succeeded, r.nodes := st'.labels, st'.annotations, st'.succeeded, out.nodes;
        }
      } else {
        DisturbGood(w, store, j, r.key, out);
        SamePass(j, r.key, out);
        j := Disturbed(j, r.key, out);
        store := store[r.key := st];
      }
      clock := clock + 1;
    }
  }

  /** An applied patch: first what other clients have done, then the one key. */
  lemma AppliedGood(w: World, store: map<ObjKey, Stored>, j: Journal, key: ObjKey, out: Outcome,
                    field: MetaField, k: Key, v: Value)
    requires Good(w, store, j) && key in store && (key.PodObj? ==> key.name in j.s.pods)
    requires k in OwnedKeys(key, field) && Enabled(w, j.s, ActOf(key, k, v))
    ensures key in j.shadow
    ensures var st, j' := Disturb(store[key], key, out), Record(Disturbed(j, key, out), ActOf(key, k, v));
            && Good(w, store[key := SetMeta(st, field, MetaOf(st, field)[k := v])], j')
            && Continues(j, j') && j'.s.pass == j.s.pass && Patched(j.s, j'.s, key, k, v, true)
  {
    hide Good, Disturb, Disturbed, Record, Enabled, Drifted, Patched, Effect, SetMeta, ActOf, OwnedKeys, MetaOf;
    DisturbGood(w, store, j, key, out);
    var st, j1 := Disturb(store[key], key, out), Disturbed(j, key, out);
    SamePass(j, key, out);
    StillEnabled(w, j.s, j1.s, key, k, v);
    PatchGood(w, store[key := st], j1, key, field, k, v);
    PatchRecorded(j1, key, k, v);
    PatchedAfterDrift(j.s, j1.s, key, k, v);
    var m := SetMeta(st, field, MetaOf(st, field)[k := v]);
    assert store[key := st][key := m] == store[key := m];
  }

  lemma PatchedAfterDrift(s: State, s1: State, key: ObjKey, k: Key, v: Value)
    requires Drifted(s, s1, key) && (key.PodObj? ==> key.name in s.pods)
    ensures Patched(s, Effect(s1, ActOf(key, k, v)), key, k, v, true)
  {
  }

  /** The patch sent for one key changes that key of the stored object and nothing else. */
  lemma OneKeyPatch(st: Stored, labels0: Meta, annotations0: Meta, labels: Meta, annotations: Meta,
                    field: MetaField, k: Key, v: Value)
    requires field.Labels? ==> At(labels0, k) != Some(v) && labels == labels0[k := v] && annotations == annotations0
    requires field.Annotations? ==>
               At(annotations0, k) != Some(v) && annotations == annotations0[k := v] && labels == labels0
    ensures Stored(MergePatch.Apply(st.labels, MergePatch.Diff(labels0, labels)),
                   MergePatch.Apply(st.annotations, MergePatch.Diff(annotations0, annotations)),
                   st.succeeded)
         == SetMeta(st, field, MetaOf(st, field)[k := v])
  {
    match field
    case Labels =>
      MergePatch.SetOneKey(st.labels, labels0, k, v);
      MergePatch.Untouched(st.annotations, annotations0);
    case Annotations =>
      MergePatch.SetOneKey(st.annotations, annotations0, k, v);
      MergePatch.Untouched(st.labels, labels0);
  }
}
