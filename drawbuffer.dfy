/** The vertex and index buffer descriptors of the second pipeline
    generation (pipeline/Drawbuffer.cpp). GL is an oracle: `glBufferData`
    is recorded as the size and usage of the upload, each enabled vertex
    attribute array as the pointer description handed to GL, and a draw as
    the call it issues. GL enumerants carry their values from the OpenGL
    headers. */
module Drawbuffer {
  import opened Wrappers
  import opened Resources

  /** Size of the range of `size_t` on a 64-bit target. */
  const U64: int := 0x1_0000_0000_0000_0000

  const GL_BYTE: nat := 0x1400
  const GL_UNSIGNED_BYTE: nat := 0x1401
  const GL_SHORT: nat := 0x1402
  const GL_UNSIGNED_SHORT: nat := 0x1403
  const GL_INT: nat := 0x1404
  const GL_UNSIGNED_INT: nat := 0x1405
  const GL_FLOAT: nat := 0x1406
  const GL_DOUBLE: nat := 0x140A
  const GL_HALF_FLOAT: nat := 0x140B

  /** The switch of `attribute` (lines 44-64): the GL type of each element
      type. */
  function AttribGlType(t: AttribType): (g: nat)
    ensures GL_BYTE <= g <= GL_HALF_FLOAT
  {
    match t
    case Byte => GL_BYTE
    case UByte => GL_UNSIGNED_BYTE
    case Short => GL_SHORT
    case UShort => GL_UNSIGNED_SHORT
    case Int => GL_INT
    case UInt => GL_UNSIGNED_INT
    case Float => GL_FLOAT
    case Half => GL_HALF_FLOAT
    case Double => GL_DOUBLE
  }

  /** The table is one-to-one: no two element types share a GL type. */
  lemma AttribGlTypeInjective(a: AttribType, b: AttribType)
    ensures AttribGlType(a) == AttribGlType(b) <==> a == b
  {
  }

  /** The six integer element types. */
  predicate IsIntegerType(t: AttribType)
  {
    t == Byte || t == UByte || t == Short || t == UShort || t == Int || t == UInt
  }

  /** The switch of `intAttribute` (lines 70-86). */
  function IntAttribGlType(t: AttribType): Result<nat>
  {
    match t
    case Byte => Success(GL_BYTE)
    case UByte => Success(GL_UNSIGNED_BYTE)
    case Short => Success(GL_SHORT)
    case UShort => Success(GL_UNSIGNED_SHORT)
    case Int => Success(GL_INT)
    case UInt => Success(GL_UNSIGNED_INT)
    case _ => Failure(IntegerFromFloatAttribute)
  }

  /** `intAttribute` accepts exactly the integer types, with the GL type
      `attribute` gives them, and throws `logic_error` for the three
      floating-point types. */
  lemma IntAttribGlTypeSpec(t: AttribType)
    ensures IntAttribGlType(t).Success? <==> IsIntegerType(t)
    ensures IntAttribGlType(t).Success? ==> IntAttribGlType(t).value == AttribGlType(t)
    ensures IntAttribGlType(t).Failure? ==> IntAttribGlType(t) == Failure(IntegerFromFloatAttribute)
  {
  }

  /** The switch of `setIndices` (lines 113-118): bytes per index. */
  function IndexSize(t: AttribType): Result<nat>
  {
    match t
    case UByte => Success(1)
    case UShort => Success(2)
    case UInt => Success(4)
    case _ => Failure(BadIndexType)
  }

  /** The switch of `IndexedDrawBuffer::draw` as written (lines 102-107):
      the `UInt` case has no `break` and falls into the throwing
      default. */
  function IndexGlTypeAsWritten(t: AttribType): Result<nat>
  {
    match t
    case UByte => Success(GL_UNSIGNED_BYTE)
    case UShort => Success(GL_UNSIGNED_SHORT)
    case _ => Failure(UnhandledIndexType)
  }

  /** As written, an index buffer `setIndices` accepted with `UInt`
      indices cannot be drawn: `draw` always throws for it. */
  lemma UIntIndicesNeverDrawAsWritten()
    ensures IndexSize(UInt) == Success(4)
    ensures IndexGlTypeAsWritten(UInt) == Failure(UnhandledIndexType)
  {
  }

  /** The switch of `IndexedDrawBuffer::draw` with the missing `break`
      restored. */
  function IndexGlType(t: AttribType): Result<nat>
  {
    match t
    case UByte => Success(GL_UNSIGNED_BYTE)
    case UShort => Success(GL_UNSIGNED_SHORT)
    case UInt => Success(GL_UNSIGNED_INT)
    case _ => Failure(UnhandledIndexType)
  }

  /** With the `break` restored, `draw` handles exactly the index types
      `setIndices` accepts, with the GL type `attribute` gives them, and
      each index takes 1, 2 or 4 bytes. */
  lemma IndexTablesAgree(t: AttribType)
    ensures IndexGlType(t).Success? <==> IndexSize(t).Success?
    ensures IndexGlType(t).Success? ==> IndexGlType(t).value == AttribGlType(t)
    ensures IndexSize(t).Success? ==> IndexSize(t).value in {1, 2, 4}
  {
  }

  /** A `glBufferData` upload: its size in bytes and whether its usage is
      `GL_STREAM_DRAW` rather than `GL_STATIC_DRAW`. */
  datatype Upload = Upload(bytes: nat, stream: bool)

  /** An enabled vertex attribute array: components, GL type, normalised
      or not, stride, byte offset, and whether it was set up as an integer
      attribute. */
  datatype VertexPointer = VertexPointer(size: int, glType: nat, normalize: bool, stride: nat, start: nat, integer: bool)

  /** The draw calls: instanced arrays with a vertex count, or instanced
      elements with an index count and type. */
  datatype DrawCall =
    | ArraysInstanced(vertices: nat, instances: nat)
    | ElementsInstanced(indices: nat, indexType: nat, instances: nat)

  /** `DrawBuffer`: a vertex array object with one vertex buffer. */
  class DrawBuffer {
    var numVerts: nat
    var stride: nat
    var data: Option<Upload>
    var pointers: map<nat, VertexPointer>
    const vao: nat
    const vbo: nat

    /** `DrawBuffer()` (line 6): no vertices, stride 0, nothing uploaded
        and no attribute array enabled. */
    constructor (vaoId: nat, vboId: nat)
      ensures numVerts == 0 && stride == 0 && data == None && pointers == map[]
      ensures vao == vaoId && vbo == vboId
    {
      numVerts, stride, data, pointers := 0, 0, None, map[];
      vao, vbo := vaoId, vboId;
    }

    /** `setData` (lines 36-41): uploads `vert_count * stride` bytes, the
        product taken in `size_t`, and records stride and vertex count. */
    method SetData(vertCount: nat, newStride: nat, stream: bool)
      requires vertCount < U64 && newStride < U32
      modifies this`numVerts, this`stride, this`data
      ensures numVerts == vertCount && stride == newStride
      ensures data == Some(Upload((vertCount * newStride) % U64, stream))
    {
      data := Some(Upload((vertCount * newStride) % U64, stream));
      stride := newStride;
      numVerts := vertCount;
    }

    /** `attribute` (lines 43-67): enables array `idx` with the element
        type's GL type and the stride last given to `setData`. */
    method Attribute(idx: nat, size: int, start: nat, t: AttribType, normalize: bool)
      modifies this`pointers
      ensures pointers == old(pointers)[idx := VertexPointer(size, AttribGlType(t), normalize, stride, start, false)]
    {
      var gltype := AttribGlType(t);
      pointers := pointers[idx := VertexPointer(size, gltype, normalize, stride, start, false)];
    }

    /** `intAttribute` (lines 69-89): as `attribute` for an integer
        element type; a floating-point type throws before any array is
        enabled. */
    method IntAttribute(idx: nat, size: int, start: nat, t: AttribType) returns (r: Outcome)
      modifies this`pointers
      ensures !IsIntegerType(t) ==> r == Fail(IntegerFromFloatAttribute) && pointers == old(pointers)
      ensures IsIntegerType(t) ==>
        r == Pass && pointers == old(pointers)[idx := VertexPointer(size, AttribGlType(t), false, stride, start, true)]
    {
      IntAttribGlTypeSpec(t);
      var gltype := IntAttribGlType(t);
      if gltype.Failure? {
        return Fail(gltype.error);
      }
      pointers := pointers[idx := VertexPointer(size, gltype.value, false, stride, start, true)];
      r := Pass;
    }

    /** `DrawBuffer::draw` (lines 32-34): all vertices, `count`
        instances. */
    method Draw(count: nat) returns (d: DrawCall)
      ensures d == ArraysInstanced(numVerts, count)
    {
      d := ArraysInstanced(numVerts, count);
    }
  }

  /** `IndexedDrawBuffer`: a `DrawBuffer` with an index buffer. The index
      type is unset until `setIndices` succeeds. */
  class IndexedDrawBuffer {
    const vertices: DrawBuffer
    const ibo: nat
    var indexType: Option<AttribType>
    var numIndices: nat
    var indexData: Option<Upload>

    /** Only an index type `setIndices` accepts is ever recorded. */
    predicate Valid()
      reads this
    {
      indexType.Some? ==> IndexSize(indexType.value).Success?
    }

    /** `IndexedDrawBuffer()` (lines 91-94). */
    constructor (vaoId: nat, vboId: nat, iboId: nat)
      ensures Valid() && indexType == None && indexData == None
      ensures fresh(vertices) && vertices.numVerts == 0 && vertices.stride == 0 && ibo == iboId
    {
      vertices := new DrawBuffer(vaoId, vboId);
      ibo := iboId;
      indexType, numIndices, indexData := None, 0, None;
    }

    /** `setIndices` (lines 111-127): uploads `num_indices` indices of 1,
        2 or 4 bytes and records type and count; any other type throws
        before anything changes. */
    method SetIndices(count: nat, t: AttribType, stream: bool) returns (r: Outcome)
      requires count < U64
      requires Valid()
      modifies this`indexType, this`numIndices, this`indexData
      ensures Valid()
      ensures IndexSize(t).Failure? ==>
        r == Fail(BadIndexType) && indexType == old(indexType) && numIndices == old(numIndices) && indexData == old(indexData)
      ensures IndexSize(t).Success? ==>
        r == Pass && indexType == Some(t) && numIndices == count &&
        indexData == Some(Upload((count * IndexSize(t).value) % U64, stream))
    {
      var size := IndexSize(t);
      if size.Failure? {
        return Fail(size.error);
      }
      indexData := Some(Upload((count * size.value) % U64, stream));
      indexType := Some(t);
      numIndices := count;
      r := Pass;
    }

    /** `IndexedDrawBuffer::draw` (lines 100-109) with the missing `break`
        restored: once `setIndices` has succeeded, every index buffer is
        drawn, with the GL type of its index type. */
    method Draw(count: nat) returns (r: Result<DrawCall>)
      requires Valid() && indexType.Some?
      ensures r == Success(ElementsInstanced(numIndices, AttribGlType(indexType.value), count))
    {
      IndexTablesAgree(indexType.value);
      var glType := IndexGlType(indexType.value);
      if glType.Failure? {
        assert false;
        return Failure(UnhandledIndexType);
      }
      r := Success(ElementsInstanced(numIndices, glType.value, count));
    }
  }
}
