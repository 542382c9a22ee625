/** Metadata maps of Kubernetes objects and the texts the controller uses in them. */
module Metadata {

  datatype Option<+T> = None | Some(value: T)

  /** The annotation and label keys the controller names; every other key is `OtherKey`. */
  datatype Key =
    | StatusKey
    | ArtifactsKey
    | SignedKey
    | SbomKey
    | ProvenanceKey
    | EnableKey
    | OtherKey(name: string)

  /** The values the controller compares with; every other value is `Text`. */
  datatype Value =
    | InProgress
    | Completed
    | Error
    | Skipped
    | Attached
    | NoArtifacts
    | Text(text: string)

  type Meta = map<Key, Value>

  const SLSA_PREFIX := "argo.slsa.io/"

  function KeyText(k: Key): string {
    match k
    case StatusKey => SLSA_PREFIX + "status"
    case ArtifactsKey => SLSA_PREFIX + "artifacts"
    case SignedKey => SLSA_PREFIX + "signed"
    case SbomKey => SLSA_PREFIX + "sbom"
    case ProvenanceKey => SLSA_PREFIX + "provenance"
    case EnableKey => SLSA_PREFIX + "enable"
    case OtherKey(name) => name
  }

  function ValueText(v: Value): string {
    match v
    case InProgress => "In-Progress"
    case Completed => "Completed"
    case Error => "Error"
    case Skipped => "Skipped"
    case Attached => "Attached"
    case NoArtifacts => "No-Artifacts-Found"
    case Text(text) => text
  }

  /** A lookup in a Go map with its `exists` flag. */
  function At(m: Meta, k: Key): Option<Value> {
    if k in m then Some(m[k]) else None
  }

  predicate HasPrefix(s: string, prefix: string) {
    |prefix| <= |s| && s[..|prefix|] == prefix
  }

  function TrimPrefix(s: string, prefix: string): string {
    if HasPrefix(s, prefix) then s[|prefix|..] else s
  }

  /** The keys the controller reserves; `argo.slsa.io/enable` is one of them. */
  predicate IsSlsaKey(k: Key) {
    match k
    case OtherKey(name) => HasPrefix(name, SLSA_PREFIX)
    case _ => true
  }

  lemma SlsaKeyText(k: Key)
    ensures IsSlsaKey(k) <==> HasPrefix(KeyText(k), SLSA_PREFIX)
  {
  }

  /** No two of the controller's own texts are alike, so that what it stores can be told apart. */
  lemma TextsDistinct(v: Value, v': Value)
    requires !v.Text? && !v'.Text? && ValueText(v) == ValueText(v')
    ensures v == v'
  {
    assert |ValueText(v)| == |ValueText(v')|;
  }

  lemma KeysDistinct(k: Key, k': Key)
    requires !k.OtherKey? && !k'.OtherKey? && KeyText(k) == KeyText(k')
    ensures k == k'
  {
    var n := |SLSA_PREFIX|;
    assert |KeyText(k)| == |KeyText(k')| && KeyText(k)[n..] == KeyText(k')[n..];
    assert KeyText(k)[n] == KeyText(k')[n] && KeyText(k)[n + 1] == KeyText(k')[n + 1];
  }
}
