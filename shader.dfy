/**
 * Shader identity: a `Handle` names a piece of WGSL shader code, either a
 * file on disk or a string compiled into the program, by a 64-bit hash of
 * that reference. Equality and hashing of handles look only at the hash.
 */
module Shader {
  import opened Core

  /** A filesystem path, by its textual form. */
  type PathBuf = string

  /** Either a path to the shader code or the code itself. */
  datatype ShaderContent = Path(path: PathBuf) | Memory(code: string)

  /**
   * The toolkit's default hasher, fed the path or the string and then
   * finished. Its algorithm is not part of this model: each kind of content
   * is hashed by a deterministic function supplied by the caller.
   */
  datatype Hasher = Hasher(hashPath: PathBuf -> u64, hashStr: string -> u64)

  /** The hash the hasher finishes with after being fed the content's payload (not its tag). */
  function ContentHash(hasher: Hasher, content: ShaderContent): u64 {
    match content
    case Path(p) => hasher.hashPath(p)
    case Memory(m) => hasher.hashStr(m)
  }

  /** A handle of some shader code. */
  datatype Handle = Handle(id: u64, shaderContent: ShaderContent)

  /** `Handle::from(content)`: keep the content and identify it by its hash. */
  function FromContent(hasher: Hasher, content: ShaderContent): (h: Handle)
    ensures h.shaderContent == content
    ensures h.id == ContentHash(hasher, content)
  {
    match content
    case Path(p) => Handle(hasher.hashPath(p), content)
    case Memory(m) => Handle(hasher.hashStr(m), content)
  }

  /** `Handle::id()`. */
  function Id(h: Handle): (id: u64)
    ensures forall other: Handle :: Eq(h, other) <==> id == other.id
  {
    h.id
  }

  /** `PartialEq for Handle`: two handles are equal when their ids are. */
  predicate Eq(a: Handle, b: Handle) {
    a.id == b.id
  }

  /** `Hash for Handle`: the sequence of values fed to a hasher, which is the id alone. */
  function HashFeed(h: Handle): seq<u64> {
    [h.id]
  }

  /** Handles built from equal contents are equal, whatever the hasher. */
  lemma EqualContentsEqualHandles(hasher: Hasher, c1: ShaderContent, c2: ShaderContent)
    requires c1 == c2
    ensures Eq(FromContent(hasher, c1), FromContent(hasher, c2))
    ensures FromContent(hasher, c1) == FromContent(hasher, c2)
  {
  }

  /** Equality ignores the content: a hash collision makes two different shaders equal handles. */
  lemma EqIgnoresContent(a: Handle, b: Handle)
    requires a.id == b.id && a.shaderContent != b.shaderContent
    ensures Eq(a, b) && a != b
  {
  }

  /** Handle equality is reflexive, symmetric and transitive. */
  lemma EqIsEquivalence(a: Handle, b: Handle, c: Handle)
    ensures Eq(a, a)
    ensures Eq(a, b) ==> Eq(b, a)
    ensures Eq(a, b) && Eq(b, c) ==> Eq(a, c)
  {
  }

  /** Equal handles feed the same values to any hasher, so they hash equally. */
  lemma EqualHandlesHashEqually(a: Handle, b: Handle, finish: seq<u64> -> u64)
    requires Eq(a, b)
    ensures HashFeed(a) == HashFeed(b)
    ensures finish(HashFeed(a)) == finish(HashFeed(b))
  {
  }
}
