/** The workflow metadata quoted in provenance, taken from the live workflow object by deleting the
    controller's own keys in place. */
module Provenance {
  import opened Metadata
  import opened Environment
  import opened Protocol
  import opened Cluster

  /** A map without the controller's own keys, except the switch that enables it. */
  function Filtered(m: Meta): (r: Meta)
    ensures CleanMeta(r)
  {
    map k | k in m && !(IsSlsaKey(k) && k != EnableKey) :: m[k]
  }

  /** A key is kept, with its value, exactly when its text lacks the prefix or it is the switch. */
  lemma FilteredExactly(m: Meta, k: Key)
    ensures At(Filtered(m), k) == if !HasPrefix(KeyText(k), "argo.slsa.io/") || k == EnableKey then At(m, k) else None
    ensures KeyText(EnableKey) == "argo.slsa.io/enable"
  {
    SlsaKeyText(k);
  }

  /** Once deleted, there is nothing left to delete: later statements quote what the first one quoted. */
  lemma FilterIdempotent(m: Meta)
    ensures Filtered(Filtered(m)) == Filtered(m)
  {
  }

  /** Deletes from the object's live map, key by key in some order, and returns that map. */
  method RemoveArgoSlsaInfo(r: Object, field: MetaField) returns (m: Meta)
    modifies r
    ensures m == r.Get(field) == Filtered(old(r.Get(field)))
    ensures r.Get(Other(field)) == old(r.Get(Other(field)))
    ensures r.nodes == old(r.nodes) && r.succeeded == old(r.succeeded)
  {
    ghost var m0 := r.Get(field);
    var keys := r.Get(field).Keys;
    while keys != {}
      invariant keys <= m0.Keys
      invariant r.Get(field) == map k | k in m0 && (k in keys || !(IsSlsaKey(k) && k != EnableKey)) :: m0[k]
      invariant r.Get(Other(field)) == old(r.Get(Other(field)))
      invariant r.nodes == old(r.nodes) && r.succeeded == old(r.succeeded)
      decreases keys
    {
      var key :| key in keys;
      keys := keys - {key};
      if IsSlsaKey(key) && key != EnableKey {
        if field.Labels? {
          r.labels := r.labels - {key};
        } else {
          r.annotations := r.annotations - {key};
        }
      }
    }
    m := r.Get(field);
  }

  datatype Params = Params(labels: Meta, annotations: Meta)

  method GetInternalParams(wf: Object) returns (p: Params)
    modifies wf
    ensures p == Params(wf.labels, wf.annotations)
    ensures wf.labels == Filtered(old(wf.labels)) && wf.annotations == Filtered(old(wf.annotations))
    ensures wf.nodes == old(wf.nodes) && wf.succeeded == old(wf.succeeded)
  {
    var labels := RemoveArgoSlsaInfo(wf, Labels);
    assert wf.Get(Annotations) == old(wf.Get(Annotations));
    var annotations := RemoveArgoSlsaInfo(wf, Annotations);
    assert wf.Get(Labels) == Filtered(old(wf.Get(Labels)));
    p := Params(labels, annotations);
  }

  /** Both halves of the provenance can be built. */
  ghost predicate GenerationOk(w: World) {
    w.net(RunDetailsOp, "", 0).ok && w.net(BuildOp, "", 0).ok
  }

  /** The statement for one pod. The run details can fail before, and the build definition after, the
      workflow's metadata has been filtered. */
  method GenerateSlsaV1Provenance(c: Server, wf: Object, subjects: seq<Subject>) returns (stmt: Option<Statement>)
    modifies wf, c`requests
    ensures stmt.Some? ==> stmt.value == Statement(subjects, Filtered(old(wf.labels)), Filtered(old(wf.annotations)))
    ensures stmt.Some? ==> wf.labels == Filtered(old(wf.labels)) && wf.annotations == Filtered(old(wf.annotations))
    ensures stmt.Some? || (wf.labels == old(wf.labels) && wf.annotations == old(wf.annotations))
            || (wf.labels == Filtered(old(wf.labels)) && wf.annotations == Filtered(old(wf.annotations)))
    ensures c.w.StableNet() && GenerationOk(c.w) ==> stmt.Some?
    ensures old(c.requests) < c.requests && (stmt.Some? ==> c.requests == old(c.requests) + 2)
    ensures stmt.Some? <==> c.w.net(RunDetailsOp, "", old(c.requests)).ok
                            && c.w.net(BuildOp, "", old(c.requests) + 1).ok
    ensures wf.nodes == old(wf.nodes)
  {
    var details := c.w.net(RunDetailsOp, "", c.requests);
    assert c.w.StableNet() ==> details == c.w.net(RunDetailsOp, "", 0);
    c.requests := c.requests + 1;
    if !details.ok {
      return None;
    }
    var params := GetInternalParams(wf);
    var build := c.w.net(BuildOp, "", c.requests);
    assert c.w.StableNet() ==> build == c.w.net(BuildOp, "", 0);
    c.requests := c.requests + 1;
    if !build.ok {
      return None;
    }
    stmt := Some(Statement(subjects, params.labels, params.annotations));
  }
}
