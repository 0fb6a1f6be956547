/** The resource records the data manager fills in and the OpenGL pipeline
    consumes: images, materials with their uniforms, and mesh descriptors
    (pipeline/Image.hpp, pipeline/Drawable.hpp and the material structs the
    data manager allocates).

    A C++ pointer is modelled as a `Handle` into a store owned by whoever
    allocates the objects; two pointers are the same object exactly when
    their handles are equal. */
module Resources {
  import opened Wrappers
  import opened DefinitionTypes

  type Handle = nat

  /** The internal formats the pipelines give their render-target
      textures. */
  datatype TexFormat = Rgba16f | Depth24Stencil8 | Rgba8 | Rg16f | R32f

  /** `Image::Format`. */
  datatype Format = R8 | RG8 | RGB8 | RGBA8

  /** `Image`. `dataSize` is the size of the pixel buffer `data` points to
      (`None` for a null `data`); `tex` is the pipeline texture id once the
      image is uploaded (`None` for a null `tex`). */
  datatype Image = Image(
    dataSize: Option<nat>,
    tex: Option<nat>,
    width: nat,
    height: nat,
    format: Option<Format>,
    buildMips: bool)

  /** A not-yet-loaded image as `buildMaterial` allocates it: null data and
      null texture. The remaining fields are left indeterminate by the
      source; the model gives them fixed values. */
  const PlaceholderImage: Image := Image(None, None, 0, 0, None, false)

  /** The `ShaderProgram*` the pipeline loader returns; only its GL id is
      read by the code modelled here. */
  datatype ProgramRef = ProgramRef(glId: nat)

  /** The `boost::any` a uniform carries: a value copied from the
      definition, an `Image*`, or (see `World.TextureUniformAsWritten`) a
      whole `UniformDef`. */
  datatype UniformValue = Held(any: AnyValue) | ImageRef(image: Handle) | DefinitionRef(def: UniformDef)

  /** `boost::any_cast<Image*>` applied to a uniform's value: only an
      `Image*` casts; anything else throws `bad_any_cast`. */
  function ImageCast(v: UniformValue): (r: Result<Handle>)
    ensures r.Success? <==> v.ImageRef?
    ensures r.Success? ==> r.value == v.image
    ensures r.Failure? ==> r.error == BadAnyCast
  {
    match v
    case ImageRef(h) => Success(h)
    case _ => Failure(BadAnyCast)
  }

  /** `Uniform`: its kind, its value and the location the loader reported
      for it (`pipe_id`). */
  datatype Uniform = Uniform(kind: UniformType, value: UniformValue, pipeId: int)

  /** `Material` of the data-manager generation: the linked program
      (`shaders`, null until built), a reference count and the uniforms. */
  datatype Material = Material(shaders: Option<ProgramRef>, refcnt: nat, uniforms: seq<Uniform>)

  /** `DrawableMesh::AttribType` and `DrawBuffer::AttribType`, which list
      the same nine element types in the same order. */
  datatype AttribType = Byte | UByte | Short | UShort | Int | UInt | Float | Half | Double

  /** `DrawableMesh::AttribLocation`. */
  datatype AttribLocation = Pos | Nor | Tan | Col | Te0 | Te1 | SkinIdx | SkinWeight | UserStart

  /** `DrawableMesh::AttribSpecial`. */
  datatype AttribSpecial = NoSpecial | Normalize | Integer

  /** `DrawableMesh::Attribute`: `size` components of `kind` starting
      `start` bytes into each vertex. */
  datatype Attribute = Attribute(kind: AttribType, loc: AttribLocation, start: nat, size: nat, special: AttribSpecial)

  /** `DrawableBuffer`: the GL objects the loader creates for a mesh. */
  datatype DrawableBuffer = DrawableBuffer(vtxBuffer: nat, idxBuffer: nat, vao: nat, idxType: nat)

  /** `DrawableMesh` with the fields the data manager and the pipeline
      use. `indexData` is `None` for a null `index_data`; `buffer` is
      `None` until the loader has created the GL objects. */
  datatype DrawableMesh = DrawableMesh(
    refcnt: nat,
    data: seq<real>,
    dataSize: nat,
    dataStride: nat,
    indexData: Option<seq<int>>,
    indexCount: nat,
    indexType: Option<AttribType>,
    attributes: seq<Attribute>,
    buffer: Option<DrawableBuffer>)
}
