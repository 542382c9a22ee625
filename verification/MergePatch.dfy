/** JSON merge patches (RFC 7396) on flat string maps: what `client.MergeFrom` computes and the
    API server applies to the `labels` and `annotations` members of an object. */
module MergePatch {
  import opened Metadata

  /** `None` is the JSON `null` that deletes a member. */
  type Patch = map<Key, Option<Value>>

  /** The patch that turns `original` into `modified`. */
  function Diff(original: Meta, modified: Meta): Patch {
    map k | k in original.Keys + modified.Keys && At(original, k) != At(modified, k) :: At(modified, k)
  }

  /** Section 2 of RFC 7396 on one flat object. */
  function Apply(target: Meta, patch: Patch): Meta {
    map k | k in target.Keys + patch.Keys && (k in patch ==> patch[k].Some?) ::
      if k in patch then patch[k].value else target[k]
  }

  lemma ApplyAt(target: Meta, patch: Patch, k: Key)
    ensures At(Apply(target, patch), k) == if k in patch then patch[k] else At(target, k)
  {
  }

  /** Applied to the object it was computed from, a diff yields the modified object. */
  lemma RoundTrip(original: Meta, modified: Meta)
    ensures Apply(original, Diff(original, modified)) == modified
  {
    var result := Apply(original, Diff(original, modified));
    forall k
      ensures At(result, k) == At(modified, k)
    {
      ApplyAt(original, Diff(original, modified), k);
    }
    Extensional(result, modified);
  }

  /** Setting one key yields a patch that writes that key alone, whatever the target has become meanwhile. */
  lemma SetOneKey(target: Meta, original: Meta, k: Key, v: Value)
    requires At(original, k) != Some(v)
    ensures Diff(original, original[k := v]) == map[k := Some(v)]
    ensures Apply(target, Diff(original, original[k := v])) == target[k := v]
  {
    var d := Diff(original, original[k := v]);
    assert forall q :: q in d <==> q == k;
    var result := Apply(target, d);
    forall q
      ensures At(result, q) == At(target[k := v], q)
    {
      ApplyAt(target, d, q);
    }
    Extensional(result, target[k := v]);
  }

  /** A field left alone yields no change, whatever the target has become meanwhile. */
  lemma Untouched(target: Meta, original: Meta)
    ensures Apply(target, Diff(original, original)) == target
  {
    var d := Diff(original, original);
    assert forall q :: q !in d;
    var result := Apply(target, d);
    assert result.Keys == target.Keys;
  }

  /** Two diffs of disjoint keys commute: concurrent writers of different keys never lose an update. */
  lemma DisjointCommute(target: Meta, p: Patch, q: Patch)
    requires p.Keys !! q.Keys
    ensures Apply(Apply(target, p), q) == Apply(Apply(target, q), p)
  {
    var a, b := Apply(Apply(target, p), q), Apply(Apply(target, q), p);
    forall k
      ensures At(a, k) == At(b, k)
    {
      ApplyAt(target, p, k);
      ApplyAt(target, q, k);
      ApplyAt(Apply(target, p), q, k);
      ApplyAt(Apply(target, q), p, k);
    }
    Extensional(a, b);
  }

  lemma Extensional(a: Meta, b: Meta)
    requires forall k {:trigger At(a, k)} :: At(a, k) == At(b, k)
    ensures a == b
  {
    forall k
      ensures k in a <==> k in b
      ensures k in a ==> a[k] == b[k]
    {
      assert At(a, k) == At(b, k);
    }
  }
}
