/** Get, set one key, send the merge patch, and start over on a conflict: at most three times. */
module StatusUpdater {
  import opened Metadata
  import opened Environment
  import opened Protocol
  import opened Cluster

  const MAX_ATTEMPTS := 3

  /** The durable state has value `v` under key `k` of the object. */
  ghost predicate HasValue(s: State, key: ObjKey, k: Key, v: Value) {
    match key
    case PodObj(p) => p in s.pods && Field(s.pods[p].own, k) == Some(v)
    case WorkflowObj => s.wfStatus == Some(v)
  }

  /** What a patch of one key may have done, whatever it reports. */
  ghost predicate PatchedAtMostOnce(s: State, s': State, key: ObjKey, k: Key, v: Value) {
    Patched(s, s', key, k, v, false) || (!HasValue(s, key, k, v) && Patched(s, s', key, k, v, true))
  }

  /** The stored metadata of the object after a successful patch: the key as requested, the controller's
      other keys as they were, and every other key as its writers have it now. */
  ghost predicate PatchLaw(s: State, c: Server, key: ObjKey, field: MetaField, k: Key, v: Value)
    reads c
  {
    key in c.store && key in c.j.shadow
    && At(MetaOf(c.store[key], field), k) == Some(v)
    && (key.PodObj? && key.name in s.pods ==>
          OwnOf(c.store[key].annotations) == Put(s.pods[key.name].own, k, v))
    && OthersOf(key, c.store[key], c.j.shadow[key])
  }

  lemma ReadBack(c: Server, r: Object, field: MetaField, k: Key, v: Value)
    requires c.Valid() && c.Current(r) && k in OwnedKeys(r.key, field)
    ensures At(r.Get(field), k) == Some(v) <==> HasValue(c.j.s, r.key, k, v)
  {
    GoodObject(c.w, c.store, c.j, r.key);
  }

  lemma DriftPatched(s: State, s1: State, s2: State, key: ObjKey, k: Key, v: Value)
    requires Patched(s, s1, key, k, v, false) && Drifted(s1, s2, key)
    ensures Patched(s, s2, key, k, v, false)
  {
  }

  lemma PatchedPatched(s: State, s1: State, s2: State, key: ObjKey, k: Key, v: Value)
    requires Patched(s, s1, key, k, v, false) && Patched(s1, s2, key, k, v, true)
    ensures Patched(s, s2, key, k, v, true)
  {
  }

  lemma Unpatched(s: State, key: ObjKey, k: Key, v: Value)
    ensures Patched(s, s, key, k, v, false) && PatchedAtMostOnce(s, s, key, k, v)
  {
  }

  lemma PatchedValue(s: State, s': State, key: ObjKey, k: Key, v: Value, done: bool)
    requires Patched(s, s', key, k, v, done) && (key.PodObj? ==> key.name in s.pods && k in POD_KEYS)
    ensures HasValue(s', key, k, v) <==> HasValue(s, key, k, v) || done
  {
  }

  lemma LawHolds(s: State, c: Server, key: ObjKey, field: MetaField, k: Key, v: Value)
    requires c.Valid() && key in c.store && k in OwnedKeys(key, field) && HasValue(c.j.s, key, k, v)
    requires PatchedAtMostOnce(s, c.j.s, key, k, v)
    ensures PatchLaw(s, c, key, field, k, v)
  {
    hide Good;
    GoodObject(c.w, c.store, c.j, key);
  }

  /** How many of these calls ended in a conflict. */
  ghost function Conflicts(w: World, lo: nat, hi: nat): nat
    decreases hi
  {
    if hi <= lo then 0 else Conflicts(w, lo, hi - 1) + if w.tape(hi - 1).reply == Conflict then 1 else 0
  }

  lemma NoConflicts(w: World, n: nat)
    ensures Conflicts(w, n, n) == 0
  {
  }

  /** An attempt that ends in a conflict adds one. */
  lemma {:induction false} OneMoreConflict(w: World, lo: nat, mid: nat, hi: nat)
    requires lo <= mid < hi && forall i :: mid <= i < hi - 1 ==> w.tape(i).reply == Ok
    ensures Conflicts(w, lo, hi) == Conflicts(w, lo, mid) + if w.tape(hi - 1).reply == Conflict then 1 else 0
    decreases hi
  {
    if mid < hi - 1 {
      OneMoreConflict(w, lo, mid, hi - 1);
    }
  }

  function ToFailure(reply: Reply): Failure {
    if reply == Conflict || reply == NotFound then ConflictOrNotFound else ApiFailure
  }

  /** The error is what the last of the calls `lo` to `hi` was answered; without a call there is none. */
  predicate AsAnswered(w: World, lo: nat, hi: nat, err: Option<Failure>) {
    if hi <= lo then err.None?
    else
      match w.tape(hi - 1).reply
      case Ok => err == None
      case Conflict => err == Some(ConflictOrNotFound)
      case NotFound => err == Some(ConflictOrNotFound)
      case Failed => err == Some(ApiFailure)
      case LostReply => err == Some(ApiFailure)
  }

  /** One attempt; `Ok` stands for no error. */
  method TryPatch(c: Server, r: Object, field: MetaField, k: Key, v: Value, ghost s: State) returns (reply: Reply)
    requires c.Valid() && r.key in c.store && k in OwnedKeys(r.key, field)
    requires Patched(s, c.j.s, r.key, k, v, false)
    requires HasValue(c.j.s, r.key, k, v) || Enabled(c.w, c.j.s, ActOf(r.key, k, v))
    modifies c, r
    ensures c.Valid() && Continues(old(c.j), c.j) && c.requests == old(c.requests)
    ensures c.store.Keys == old(c.store.Keys)
    ensures old(c.clock) < c.clock <= old(c.clock) + 2
    ensures PatchedAtMostOnce(s, c.j.s, r.key, k, v)
    ensures reply == Ok ==> HasValue(c.j.s, r.key, k, v) && c.Current(r) && PatchLaw(s, c, r.key, field, k, v)
    ensures reply in {Conflict, NotFound} ==>
              Patched(s, c.j.s, r.key, k, v, false)
              && (HasValue(c.j.s, r.key, k, v) || Enabled(c.w, c.j.s, ActOf(r.key, k, v)))
    ensures reply == Ok ==> c.w.tape(c.clock - 1).reply == Ok
    ensures reply != Ok ==>
              || reply == c.w.tape(c.clock - 1).reply
              || (reply == Failed && c.w.tape(c.clock - 1).reply == LostReply)
    ensures forall i :: old(c.clock) <= i < c.clock - 1 ==> c.w.tape(i).reply == Ok
    ensures r.nodes == old(r.nodes) || c.Shown(r.nodes, old(c.clock), c.clock)
  {
    hide Good, Enabled, HasValue, Patched, Drifted, PatchLaw, PatchedAtMostOnce, ActOf, World.NodesOk, World.Ok;
    PatchedExists(c, s, r.key, k, v);
    ghost var s0 := c.j.s;
    reply := c.Get(r);
    DriftKeeps(c.w, s, s0, c.j.s, r.key, k, v);
    if reply != Ok {
      return;
    }
    var original := new Object.DeepCopy(r);
    ReadBack(c, r, field, k, v);
    if At(r.Get(field), k) == Some(v) {
      LawHolds(s, c, r.key, field, k, v);
      return;
    }
    if field.Labels? {
      r.labels := r.labels[k := v];
    } else {
      r.annotations := r.annotations[k := v];
    }
    ghost var s1 := c.j.s;
    reply := c.Patch(r, original, field, k, v);
    if reply == Ok || reply == LostReply {
      PatchedKeeps(s, s1, c.j.s, r.key, k, v);
      if reply == Ok {
        LawHolds(s, c, r.key, field, k, v);
      }
    } else {
      DriftKeeps(c.w, s, s1, c.j.s, r.key, k, v);
    }
  }

  /** On a conflict the whole attempt is repeated, on any other failure it is not. */
  method PatchMetadata(c: Server, r: Object, field: MetaField, k: Key, v: Value) returns (err: Option<Failure>)
    requires c.Valid() && r.key in c.store && k in OwnedKeys(r.key, field)
    requires HasValue(c.j.s, r.key, k, v) || Enabled(c.w, c.j.s, ActOf(r.key, k, v))
    modifies c, r
    ensures c.Valid() && Continues(old(c.j), c.j) && c.requests == old(c.requests)
    ensures c.store.Keys == old(c.store.Keys)
    ensures old(c.clock) < c.clock <= old(c.clock) + 2 * MAX_ATTEMPTS
    ensures PatchedAtMostOnce(old(c.j.s), c.j.s, r.key, k, v)
    ensures err.None? ==> HasValue(c.j.s, r.key, k, v) && c.Current(r) && PatchLaw(old(c.j.s), c, r.key, field, k, v)
    ensures err.Some? ==> !c.Quiet(old(c.clock), c.clock) && err.value in {ConflictOrNotFound, ApiFailure}
    ensures err == match c.w.tape(c.clock - 1).reply
                   case Ok => None
                   case Conflict => Some(ConflictOrNotFound)
                   case NotFound => Some(ConflictOrNotFound)
                   case _ => Some(ApiFailure)
    ensures err == Some(ConflictOrNotFound) ==> Patched(old(c.j.s), c.j.s, r.key, k, v, false)
    ensures c.Quiet(old(c.clock), c.clock) ==> c.clock <= old(c.clock) + 2
    ensures Conflicts(c.w, old(c.clock), c.clock) <= 3
    ensures c.w.tape(c.clock - 1).reply == Conflict <==> Conflicts(c.w, old(c.clock), c.clock) == 3
    ensures forall i :: old(c.clock) <= i < c.clock - 1 ==> c.w.tape(i).reply in {Ok, Conflict}
    ensures r.nodes == old(r.nodes) || c.Shown(r.nodes, old(c.clock), c.clock)
  {
    hide Server.Valid, Good, Enabled, HasValue, Patched, PatchLaw, PatchedAtMostOnce, ActOf, World.NodesOk, World.Ok,
         Server.Current, OwnedKeys, Conflicts;
    NoConflicts(c.w, c.clock);
    Unpatched(c.j.s, r.key, k, v);
    var attempt := 0;
    var reply := Conflict;
    while attempt < MAX_ATTEMPTS && reply == Conflict
      invariant 0 <= attempt <= MAX_ATTEMPTS && (attempt == 0 ==> reply == Conflict)
      invariant c.Valid() && Continues(old(c.j), c.j) && c.requests == old(c.requests)
      invariant c.store.Keys == old(c.store.Keys)
      invariant old(c.clock) + attempt <= c.clock <= old(c.clock) + 2 * attempt
      invariant PatchedAtMostOnce(old(c.j.s), c.j.s, r.key, k, v)
      invariant reply in {Conflict, NotFound} ==>
                  Patched(old(c.j.s), c.j.s, r.key, k, v, false)
                  && (HasValue(c.j.s, r.key, k, v) || Enabled(c.w, c.j.s, ActOf(r.key, k, v)))
      invariant reply == Ok ==>
                  HasValue(c.j.s, r.key, k, v) && c.Current(r) && PatchLaw(old(c.j.s), c, r.key, field, k, v)
      invariant attempt > 0 && reply != Ok ==>
                  reply == c.w.tape(c.clock - 1).reply || (reply == Failed && c.w.tape(c.clock - 1).reply == LostReply)
      invariant attempt > 0 && reply == Ok ==> c.w.tape(c.clock - 1).reply == Ok
      invariant Conflicts(c.w, old(c.clock), c.clock)
             == if attempt == 0 || reply == Conflict then attempt else attempt - 1
      invariant attempt > 1 ==> !c.Quiet(old(c.clock), c.clock)
      invariant forall i :: old(c.clock) <= i < c.clock - 1 ==> c.w.tape(i).reply in {Ok, Conflict}
      invariant r.nodes == old(r.nodes) || c.Shown(r.nodes, old(c.clock), c.clock)
    {
      attempt := attempt + 1;
      ghost var mid := c.clock;
      reply := TryPatch(c, r, field, k, v, old(c.j.s));
      OneMoreConflict(c.w, old(c.clock), mid, c.clock);
    }
    err := if reply == Ok then None else Some(ToFailure(reply));
  }

  lemma PatchedExists(c: Server, s: State, key: ObjKey, k: Key, v: Value)
    requires c.Valid() && key in c.store && Patched(s, c.j.s, key, k, v, false)
    ensures key.PodObj? ==> key.name in s.pods
  {
    GoodObject(c.w, c.store, c.j, key);
  }

  lemma DriftKeeps(w: World, s: State, s1: State, s2: State, key: ObjKey, k: Key, v: Value)
    requires Patched(s, s1, key, k, v, false) && Drifted(s1, s2, key)
    requires HasValue(s1, key, k, v) || Enabled(w, s1, ActOf(key, k, v))
    ensures Patched(s, s2, key, k, v, false) && PatchedAtMostOnce(s, s2, key, k, v)
    ensures HasValue(s1, key, k, v) <==> HasValue(s2, key, k, v)
    ensures HasValue(s2, key, k, v) || Enabled(w, s2, ActOf(key, k, v))
  {
    hide Enabled;
    DriftPatched(s, s1, s2, key, k, v);
    if !HasValue(s1, key, k, v) {
      StillEnabled(w, s1, s2, key, k, v);
    }
  }

  lemma PatchedKeeps(s: State, s1: State, s2: State, key: ObjKey, k: Key, v: Value)
    requires Patched(s, s1, key, k, v, false) && Patched(s1, s2, key, k, v, true)
    requires key.PodObj? ==> key.name in s.pods && k in POD_KEYS
    requires !HasValue(s1, key, k, v)
    ensures PatchedAtMostOnce(s, s2, key, k, v) && HasValue(s2, key, k, v)
  {
    PatchedPatched(s, s1, s2, key, k, v);
    PatchedValue(s, s1, key, k, v, false);
    PatchedValue(s1, s2, key, k, v, true);
  }

  method PatchAnnotations(c: Server, r: Object, k: Key, v: Value) returns (err: Option<Failure>)
    requires c.Valid() && r.key in c.store && r.key.PodObj? && k in POD_KEYS
    requires HasValue(c.j.s, r.key, k, v) || Enabled(c.w, c.j.s, Write(r.key.name, k, v))
    modifies c, r
    ensures c.Valid() && Continues(old(c.j), c.j) && c.requests == old(c.requests)
    ensures c.store.Keys == old(c.store.Keys)
    ensures old(c.clock) < c.clock <= old(c.clock) + 2 * MAX_ATTEMPTS
    ensures PatchedAtMostOnce(old(c.j.s), c.j.s, r.key, k, v)
    ensures err.None? ==>
              && HasValue(c.j.s, r.key, k, v) && c.Current(r)
              && PatchLaw(old(c.j.s), c, r.key, Annotations, k, v)
    ensures err.Some? ==> !c.Quiet(old(c.clock), c.clock) && err.value in {ConflictOrNotFound, ApiFailure}
    ensures AsAnswered(c.w, old(c.clock), c.clock, err)
    ensures err.None? <==> c.w.tape(c.clock - 1).reply == Ok
    ensures err == Some(ConflictOrNotFound) <==> c.w.tape(c.clock - 1).reply in {Conflict, NotFound}
    ensures err == Some(ConflictOrNotFound) ==> Patched(old(c.j.s), c.j.s, r.key, k, v, false)
  {
    hide Good, Enabled, HasValue, PatchedAtMostOnce, PatchLaw, World.NodesOk, World.Ok;
    err := PatchMetadata(c, r, Annotations, k, v);
  }

  method PatchLabels(c: Server, r: Object, k: Key, v: Value) returns (err: Option<Failure>)
    requires c.Valid() && r.key == WorkflowObj && k == StatusKey
    requires HasValue(c.j.s, r.key, k, v) || Enabled(c.w, c.j.s, Label(v))
    modifies c, r
    ensures c.Valid() && Continues(old(c.j), c.j) && c.requests == old(c.requests)
    ensures c.store.Keys == old(c.store.Keys)
    ensures old(c.clock) < c.clock <= old(c.clock) + 2 * MAX_ATTEMPTS
    ensures PatchedAtMostOnce(old(c.j.s), c.j.s, r.key, k, v)
    ensures err.None? ==> HasValue(c.j.s, r.key, k, v) && c.Current(r) && PatchLaw(old(c.j.s), c, r.key, Labels, k, v)
    ensures err.Some? ==> !c.Quiet(old(c.clock), c.clock) && err.value in {ConflictOrNotFound, ApiFailure}
    ensures err.None? <==> c.w.tape(c.clock - 1).reply == Ok
    ensures err == Some(ConflictOrNotFound) <==> c.w.tape(c.clock - 1).reply in {Conflict, NotFound}
    ensures err == Some(ConflictOrNotFound) ==> Patched(old(c.j.s), c.j.s, r.key, k, v, false)
    ensures c.Quiet(old(c.clock), c.clock) ==> c.clock <= old(c.clock) + 2
    ensures r.nodes == old(r.nodes) || c.Shown(r.nodes, old(c.clock), c.clock)
  {
    hide Good, Enabled, HasValue, PatchedAtMostOnce, PatchLaw, World.NodesOk, World.Ok;
    GoodObject(c.w, c.store, c.j, r.key);
    err := PatchMetadata(c, r, Labels, k, v);
  }
}
