/** SBOM generation for an image: for a manifest list every child is scanned and attested, whatever became
    of the others, and one failure fails the whole. */
module SbomOci {
  import opened Metadata
  import opened Nodes
  import opened Environment
  import opened Protocol
  import opened Cluster

  /** Nothing but what is on record of the images' SBOMs has changed. */
  ghost predicate SbomsOnly(j: Journal, j': Journal) {
    && j.trace <= j'.trace && j'.effects == j.effects && j'.shadow == j.shadow
    && j'.s == j.s.(sboms := j'.s.sboms, described := j'.s.described)
    && j.s.sboms <= j'.s.sboms && j.s.described <= j'.s.described
  }

  /** Whether an SBOM can be had for the image, when the registry's answers do not change. */
  ghost predicate SbomVerdict(w: World, ref: string) {
    w.net(ManifestOp, ref, 0).ok && w.manifest(ref).Manifest?
    && (if IsMultiPlatform(w.manifest(ref))
        then w.manifest(ref).children == []
             || (w.parse(ref).Some? && forall t :: t in w.SbomTargets(ref) ==> TargetVerdict(w, t))
        else TargetVerdict(w, ref))
  }

  ghost predicate TargetVerdict(w: World, target: string) {
    w.net(SyftOp, target, 0).ok && w.net(AttestSbomOp, target, 0).ok
  }

  /** The pod is at the point of its SBOM, there is a signer, and `ref` is the pod's artifact. */
  ghost predicate Due(w: World, s: State, p: string, ref: string) {
    && Active(w, s, p) && MayDescribe(s, p) && !s.pass.cfg.signer.UnknownSigner?
    && ValueText(s.pods[p].own.artifacts.value) == ref
  }

  lemma SbomGood(w: World, store: map<ObjKey, Stored>, j: Journal, p: string, ref: string, target: string,
                 at: nat, reply: NetReply)
    requires Good(w, store, j) && Due(w, j.s, p, ref) && target in w.SbomTargets(ref)
    requires w.net(SyftOp, target, at).ok && w.net(AttestSbomOp, target, at + 1) == reply
    ensures var a := AttestSbom(p, target, reply.published, reply.ok);
            var j' := Record(j, a);
            && Enabled(w, j.s, a) && Good(w, store, j') && SbomsOnly(j, j') && Due(w, j'.s, p, ref)
            && j'.s.sboms == (if reply.published then j.s.sboms + {target} else j.s.sboms)
            && j'.s.described == (if reply.ok then j.s.described + {target} else j.s.described)
  {
    hide Good;
    RecordGood(w, store, j, AttestSbom(p, target, reply.published, reply.ok));
  }

  /** Scan one image and attest its SBOM: success if and only if both requests are granted. */
  method AttachOne(c: Server, target: string, ghost p: string, ghost ref: string) returns (ok: bool)
    requires c.Valid() && Due(c.w, c.j.s, p, ref) && target in c.w.SbomTargets(ref)
    modifies c
    ensures Due(c.w, c.j.s, p, ref) && old(c.requests) < c.requests
    ensures c.Valid() && SbomsOnly(old(c.j), c.j) && c.store == old(c.store) && c.clock == old(c.clock)
    ensures c.j.scanned == old(c.j.scanned) + [target]
    ensures ok <==> c.w.net(SyftOp, target, old(c.requests)).ok
                    && c.w.net(AttestSbomOp, target, old(c.requests) + 1).ok
    ensures var attest := c.w.net(AttestSbomOp, target, old(c.requests) + 1);
            c.j.trace == old(c.j.trace) + if c.w.net(SyftOp, target, old(c.requests)).ok
                                          then [AttestSbom(p, target, attest.published, attest.ok)] else []
    ensures if ok then target in c.j.s.described else SbomRefused(c.w, ref)
    ensures c.w.StableNet() ==> ok == TargetVerdict(c.w, target)
  {
    hide Good, Due, World.SbomTargets, Enabled, Effect;
    GoodObject(c.w, c.store, c.j, WorkflowObj);
    c.j := c.j.(scanned := c.j.scanned + [target]);
    ScanGood(c.w, c.store, old(c.j), c.j.scanned);
    ghost var at := c.requests;
    var syft := c.w.net(SyftOp, target, c.requests);
    c.requests := c.requests + 1;
    assert c.w.StableNet() ==> syft == c.w.net(SyftOp, target, 0);
    if !syft.ok {
      return false;
    }
    var attest := c.w.net(AttestSbomOp, target, c.requests);
    c.requests := c.requests + 1;
    assert c.w.StableNet() ==> attest == c.w.net(AttestSbomOp, target, 0);
    SbomGood(c.w, c.store, c.j, p, ref, target, at, attest);
    c.Commit(AttestSbom(p, target, attest.published, attest.ok));
    ok := attest.ok;
  }

  lemma ScanGood(w: World, store: map<ObjKey, Stored>, j: Journal, scanned: seq<string>)
    requires Good(w, store, j)
    ensures Good(w, store, j.(scanned := scanned))
  {
  }

  /** Only Docker's media type makes an image multi-platform; any other index is scanned as one image. */
  method CheckIfMultiPlatformImage(m: Manifest) returns (r: Option<(bool, seq<string>)>)
    ensures r.None? <==> m.MalformedManifest?
    ensures r.Some? && r.value.0 ==> r.value.1 == m.children
    ensures r.Some? ==> (r.value.0 <==> m.mediaType == DockerManifestList)
  {
    match m {
      case MalformedManifest => r := None;
      case Manifest(mediaType, children) =>
        if mediaType == DockerManifestList {
          r := Some((true, children));
        } else {
          r := Some((false, []));
        }
    }
  }

  method GenerateSBOMforOCI(c: Server, ref: string, ghost p: string) returns (ok: bool)
    requires c.Valid() && Due(c.w, c.j.s, p, ref)
    modifies c
    ensures c.Valid() && SbomsOnly(old(c.j), c.j) && c.store == old(c.store) && c.clock == old(c.clock)
    ensures Due(c.w, c.j.s, p, ref) && old(c.requests) < c.requests
    ensures if ok then forall t :: t in c.w.SbomTargets(ref) ==> t in c.j.s.described else SbomRefused(c.w, ref)
    // what is scanned: the listed images if and only if the media type is Docker's
    ensures c.w.net(ManifestOp, ref, old(c.requests)).ok && c.w.manifest(ref).Manifest? && c.w.parse(ref).Some? ==>
              c.j.scanned == old(c.j.scanned) + c.w.SbomTargets(ref)
              && (c.j.scanned == old(c.j.scanned) + c.w.Children(ref)
                  <==> c.w.manifest(ref).mediaType == DockerManifestList || c.w.Children(ref) == [ref])
    ensures !c.w.net(ManifestOp, ref, old(c.requests)).ok || c.w.manifest(ref).MalformedManifest? ==>
              !ok && c.j.scanned == old(c.j.scanned)
    ensures c.w.StableNet() ==> ok == SbomVerdict(c.w, ref)
  {
    hide Good, Due, World.Children;
    var fetched := c.w.net(ManifestOp, ref, c.requests);
    c.requests := c.requests + 1;
    assert c.w.StableNet() ==> fetched == c.w.net(ManifestOp, ref, 0);
    if !fetched.ok {
      return false;
    }
    var decoded := CheckIfMultiPlatformImage(c.w.manifest(ref));
    if decoded.None? {
      return false;
    }
    c.w.TargetsAreChildren(ref);
    if decoded.value.0 {
      ok := AttachChildren(c, ref, decoded.value.1, p);
    } else {
      ok := AttachOne(c, ref, p, ref);
    }
    SameSuffix(old(c.j.scanned), c.w.SbomTargets(ref), c.w.Children(ref));
  }

  lemma SameSuffix(xs: seq<string>, a: seq<string>, b: seq<string>)
    ensures xs + a == xs + b <==> a == b
  {
    if xs + a == xs + b {
      assert a == (xs + a)[|xs|..] == (xs + b)[|xs|..] == b;
    }
  }

  method AttachChildren(c: Server, ref: string, children: seq<string>, ghost p: string) returns (ok: bool)
    requires c.Valid() && Due(c.w, c.j.s, p, ref)
    requires c.w.manifest(ref) == Manifest(DockerManifestList, children)
    modifies c
    ensures c.Valid() && SbomsOnly(old(c.j), c.j) && c.store == old(c.store) && c.clock == old(c.clock)
    ensures Due(c.w, c.j.s, p, ref) && old(c.requests) <= c.requests
    ensures if ok then forall t :: t in c.w.SbomTargets(ref) ==> t in c.j.s.described else SbomRefused(c.w, ref)
    ensures c.w.parse(ref).Some? ==> c.j.scanned == old(c.j.scanned) + c.w.SbomTargets(ref)
    ensures c.w.StableNet() ==>
              ok == (children == []
                     || (c.w.parse(ref).Some? && forall t :: t in c.w.SbomTargets(ref) ==> TargetVerdict(c.w, t)))
  {
    hide Good, Due, TargetVerdict;
    var failed := false;
    ghost var targets := c.w.SbomTargets(ref);
    for i := 0 to |children|
      invariant c.Valid() && SbomsOnly(old(c.j), c.j) && c.store == old(c.store) && c.clock == old(c.clock)
      invariant Due(c.w, c.j.s, p, ref) && old(c.requests) <= c.requests
      invariant !failed ==> (i == 0 || c.w.parse(ref).Some?) && forall k :: 0 <= k < i ==> targets[k] in c.j.s.described
      invariant failed ==> SbomRefused(c.w, ref)
      invariant c.w.parse(ref).Some? ==> c.j.scanned == old(c.j.scanned) + targets[..i]
      invariant c.w.StableNet() ==>
                  failed == !(i == 0
                              || (c.w.parse(ref).Some? && forall k :: 0 <= k < i ==> TargetVerdict(c.w, targets[k])))
    {
      var parsed := c.w.parse(ref);
      if parsed.None? {
        failed := true;
        continue;
      }
      var child := parsed.value.repo + "@" + children[i];
      assert child == targets[i];
      assert targets[..i + 1] == targets[..i] + [targets[i]];
      var one := AttachOne(c, child, p, ref);
      if !one {
        failed := true;
      }
    }
    assert targets[..|children|] == targets;
    ok := !failed;
  }
}
