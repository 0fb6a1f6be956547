/** Material definitions as the scripting layer registers them, and the
    shader-program cache key (pipeline/DefinitionTypes.hpp). */
module DefinitionTypes {
  import opened Wrappers

  /** The three shader file names a program is linked from. */
  datatype ShaderKey = ShaderKey(vert: string, geom: string, frag: string)

  /** `operator==`: field-wise comparison of the three names. */
  predicate KeyEqual(lhs: ShaderKey, rhs: ShaderKey)
  {
    lhs.vert == rhs.vert && lhs.frag == rhs.frag && lhs.geom == rhs.geom
  }

  /** Two keys compare equal exactly when they are the same key value. */
  lemma KeyEqualIsIdentity(lhs: ShaderKey, rhs: ShaderKey)
    ensures KeyEqual(lhs, rhs) <==> lhs == rhs
  {
  }

  /** `operator==` is an equivalence relation. */
  lemma KeyEqualIsEquivalence(a: ShaderKey, b: ShaderKey, c: ShaderKey)
    ensures KeyEqual(a, a)
    ensures KeyEqual(a, b) ==> KeyEqual(b, a)
    ensures KeyEqual(a, b) && KeyEqual(b, c) ==> KeyEqual(a, c)
  {
  }

  /** `boost::hash_combine` on a 64-bit `size_t`. */
  function HashCombine(seed: bv64, v: bv64): bv64
  {
    seed ^ (v + 0x9e3779b9 + (seed << 6) + (seed >> 2))
  }

  /** `hash<ShaderKey>`: the seed 0 combined with the hashes of vert, frag
      and geom, in that order. The string hash is the standard library's
      and is taken as a parameter. */
  function KeyHash(k: ShaderKey, strHash: string -> bv64): bv64
  {
    HashCombine(HashCombine(HashCombine(0, strHash(k.vert)), strHash(k.frag)), strHash(k.geom))
  }

  /** Keys that compare equal hash equally, whatever the string hash. */
  lemma EqualKeysHashEqually(a: ShaderKey, b: ShaderKey, strHash: string -> bv64)
    requires KeyEqual(a, b)
    ensures KeyHash(a, strHash) == KeyHash(b, strHash)
  {
  }

  /** The hash reads only the three names: keys that agree on them hash
      alike, and a key's hash is fixed by its (vert, frag, geom) hashes. */
  lemma HashDependsOnlyOnNames(a: ShaderKey, b: ShaderKey, strHash: string -> bv64)
    requires strHash(a.vert) == strHash(b.vert)
    requires strHash(a.frag) == strHash(b.frag)
    requires strHash(a.geom) == strHash(b.geom)
    ensures KeyHash(a, strHash) == KeyHash(b, strHash)
  {
  }

  /** `UniformDef::Type`, in declaration order. */
  datatype UniformType =
    | Texture
    | ModelView
    | Projection
    | DepthInfo
    | LightColor
    | LightRadius
    | LightPosition
    | BoneMatrices

  /** The enumerator's value as the compiler numbers it. */
  function TypeOrdinal(t: UniformType): (n: nat)
    ensures n < 8
  {
    match t
    case Texture => 0
    case ModelView => 1
    case Projection => 2
    case DepthInfo => 3
    case LightColor => 4
    case LightRadius => 5
    case LightPosition => 6
    case BoneMatrices => 7
  }

  /** The inverse numbering: each of 0..7 names exactly one kind. */
  function TypeOfOrdinal(n: nat): (t: UniformType)
    requires n < 8
    ensures TypeOrdinal(t) == n
  {
    if n == 0 then Texture
    else if n == 1 then ModelView
    else if n == 2 then Projection
    else if n == 3 then DepthInfo
    else if n == 4 then LightColor
    else if n == 5 then LightRadius
    else if n == 6 then LightPosition
    else BoneMatrices
  }

  /** There are exactly eight kinds, numbered 0..7 without gaps or repeats. */
  lemma EightUniformKinds(t: UniformType)
    ensures TypeOfOrdinal(TypeOrdinal(t)) == t
    ensures forall u: UniformType :: TypeOrdinal(u) == TypeOrdinal(t) ==> u == t
  {
  }

  /** The dynamically typed `boost::any` payload of a definition: a string
      (texture path) or some other value the engine does not inspect. */
  datatype AnyValue = Empty | Text(s: string) | Other(tag: nat)

  datatype UniformDef = UniformDef(kind: UniformType, value: AnyValue)

  /** A material definition. The hash map of uniforms is modelled as the
      sequence its iteration visits; names are unique, as map keys are. */
  datatype MaterialDef = MaterialDef(shaders: ShaderKey, uniforms: seq<(string, UniformDef)>)

  /** Each uniform name maps to at most one definition. */
  predicate UniqueNames(entries: seq<(string, UniformDef)>)
  {
    forall i, j :: 0 <= i < j < |entries| ==> entries[i].0 != entries[j].0
  }

  /** The definition registered under `name`, if any. */
  function Lookup(entries: seq<(string, UniformDef)>, name: string): (r: Option<UniformDef>)
    ensures r.Some? <==> exists i :: 0 <= i < |entries| && entries[i].0 == name
    ensures r.Some? ==> exists i :: 0 <= i < |entries| && entries[i] == (name, r.value)
  {
    if entries == [] then None
    else if entries[0].0 == name then Some(entries[0].1)
    else
      var r := Lookup(entries[1..], name);
      assert forall i :: 1 <= i < |entries| ==> entries[i] == entries[1..][i - 1];
      r
  }

  /** With unique names, a lookup finds the one entry carrying that name. */
  lemma {:induction false} LookupUnique(entries: seq<(string, UniformDef)>, i: nat)
    requires UniqueNames(entries)
    requires i < |entries|
    ensures Lookup(entries, entries[i].0) == Some(entries[i].1)
  {
    if i > 0 {
      assert entries[1..][i - 1] == entries[i];
      assert UniqueNames(entries[1..]) by {
        forall a, b | 0 <= a < b < |entries[1..]| ensures entries[1..][a].0 != entries[1..][b].0 {
          assert entries[1..][a] == entries[a + 1] && entries[1..][b] == entries[b + 1];
        }
      }
      LookupUnique(entries[1..], i - 1);
    }
  }

  /** The empty definition `operator[]` default-constructs. */
  const EmptyDef: MaterialDef := MaterialDef(ShaderKey("", "", ""), [])
}
