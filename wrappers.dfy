/** Small shared vocabulary: optional values, results with an error, and
    the 32-bit counter arithmetic several engine modules need. */
module Wrappers {

  /** A nullable pointer or an absent cache entry. */
  datatype Option<+T> = None | Some(value: T)

  /** What the engine reports by throwing: every `throw` of the C++ code
      becomes a `Failure` carrying one of these. `NullShader` is the one
      exception: it stands for the crash of dereferencing a null shader
      pointer, which the source does not catch. */
  datatype Error =
    | ShaderFileMissing(path: string)
    | TextureFileMissing(name: string)
    | NotPng(name: string)
    | ImageNotCreated(name: string)
    | UnsupportedBitDepth
    | CompileFailed(path: string)
    | LinkFailed
    | MissingFragmentShader
    | MissingVertexShader
    | NullShader
    | BadAnyCast
    | IntegerFromFloatAttribute
    | BadIndexType
    | UnhandledIndexType
    | UnimplementedUniformType

  datatype Result<+T> = Success(value: T) | Failure(error: Error)

  /** The result of an operation that returns nothing but can throw. */
  datatype Outcome = Pass | Fail(error: Error)

  /** One table of a state record. Each map is kept in a record of its
      own, so that a state built by updating one table shares the other
      tables whole. */
  datatype Table<K, V> = Table(m: map<K, V>)

  /** Size of a 32-bit unsigned integer's range (GLuint, png_uint_32). */
  const U32: int := 0x1_0000_0000

  /** `x++` on an unsigned 32-bit counter. */
  function Inc32(x: nat): (r: nat)
    requires x < U32
    ensures r < U32
    ensures (r - x - 1) % U32 == 0
  {
    if x == U32 - 1 then 0 else x + 1
  }

  /** `x--` on an unsigned 32-bit counter: decrementing 0 wraps around. */
  function Dec32(x: nat): (r: nat)
    requires x < U32
    ensures r < U32
    ensures (x - r - 1) % U32 == 0
  {
    if x == 0 then U32 - 1 else x - 1
  }

  /** `k` decrements of an unsigned 32-bit counter. */
  function Sub32(x: nat, k: nat): (r: nat)
    requires x < U32
    ensures r < U32
  {
    (x - k) % U32
  }

  /** One more decrement after `k` of them is `k + 1` decrements. */
  lemma Sub32Step(x: nat, k: nat)
    requires x < U32
    ensures Dec32(Sub32(x, k)) == Sub32(x, k + 1)
  {
  }
}
