# SensEngine core, modelled in Dafny

SensEngine is an early OpenGL game engine. Around its window, context and GL-call plumbing sits a layer of sequential bookkeeping, and this project models that layer. Every GL, libpng, Berkelium and file-system call is replaced by an oracle: fresh ids from counters, a uniform-location function, and flags for "exists", "compiles" and "links". The properties of the bookkeeping are then proved.

The modules follow the engine's source files:

- `JobQueue` (job_queue.dfy) covers util/queue.hpp and its identical copy queue.hpp.
  - `lockedQueue` is a deque used first in, first out.
  - `locklessQueue` is a sentinel-headed linked list of nodes that `push` and `try_pop` relink in place. Both act on the node after the sentinel, so sequentially it is last in, first out.
- `World` (data_manager.dfy) is the `DataManager` of world/DataManager.cpp. It holds:
  - name-keyed tables of materials, material definitions, meshes, images and shader sources;
  - reference counts;
  - the loader job queue and the main-thread job queue.
- `PngLayout` (png_layout.dfy) is the channel, bit-depth, pixel-format and row-offset arithmetic of `DataManager::loadTexture`.
- `Builtins` (builtins.dfy) holds the built-in cube and quad tables of pipeline/Builtins.cpp. `World.BuiltinMeshesMatchTables` checks them against the mesh descriptors that `loadBuiltinData` builds.
- `Resources` (resources.dfy) holds the image, material and mesh records shared by the data manager and the OpenGL pipeline.
- `DefinitionTypes` (definition_types.dfy) covers the `ShaderKey` equality and hash and the material definition shapes of pipeline/DefinitionTypes.hpp.
- `OglLoader` (ogl_loader.dfy) is the resource loader of the OpenGL pipeline (pipeline/ogl/Loader.cpp). It keeps caches of textures, shaders and programs with 32-bit reference counts, the `__MISSING__` texture fallback, and material building and clean-up.
- `WeakLoader` (weak_loader.dfy) is the `weak_ptr` loader of pipeline/Loader.cpp.
- `OglPipeline` (ogl_pipeline.dfy) covers pipeline/ogl/Pipeline.cpp:
  - the FSAA level set;
  - the per-frame draw-task list and the draws and texture bindings `endFrame` issues;
  - render-target creation and destruction.
- `Pipeline` (pipeline.dfy) covers pipeline/Pipeline.cpp and pipeline/Pipeline.hpp:
  - FSAA halving;
  - render-target setup and selection;
  - mipmap generation;
  - panels;
  - the uniform dispatch of `useMaterial`.
- `Drawbuffer` (drawbuffer.dfy) covers the vertex and index buffer descriptors of pipeline/Drawbuffer.cpp.
- `Webview` (webview.dfy) covers the full-refresh flag of pipeline/Webview.cpp and the row packing of dirty rectangles into its scroll buffer.
- `Entities` (entity.dfy) is the entity registry of entity/Entity.cpp: entities, factories, components and the message broadcast.
- `ExtensionSearch` (extension_search.dfy) is `isExtensionSupported`, which appears identically in client/Client_x11_ogl.cpp and pipeline/Pipeline_x11.cpp.
- `Wrappers` (wrappers.dfy) holds `Option`, `Result` and the 32-bit counter arithmetic.

Code that updates objects in place is modelled as classes with `modifies` frames. Each such method is proved against a specification function of the old state. The properties the source relies on are stated about those functions as lemmas. A C++ pointer to a heap object the engine shares (a material, mesh, image, texture, shader or program) is a `Handle` into a store. Two pointers are the same object exactly when their handles are equal. Entities, components and queue nodes are Dafny objects.

## Model

| member | source | states |
|---|---|---|
| Wrappers.Inc32 | pipeline/ogl/Loader.cpp:136 | `refcnt++` on a `GLuint`: the result is a 32-bit value one more than the old one, modulo 2^32 |
| Wrappers.Dec32 | pipeline/ogl/Loader.cpp:261 | `refcnt--` on a `GLuint`: the result is a 32-bit value one less than the old one, modulo 2^32 |
| Wrappers.Sub32Step | pipeline/ogl/Loader.cpp:262-265 | one more decrement after k decrements of a 32-bit counter is k + 1 decrements |
| Resources.ImageCast | pipeline/ogl/Pipeline.cpp:89 | `boost::any_cast<Image*>` succeeds exactly for a value holding an `Image*`, which it returns, and otherwise throws `bad_any_cast` |
| DefinitionTypes.KeyEqualIsIdentity | pipeline/DefinitionTypes.hpp:17-19 | two shader keys compare equal exactly when their three names are equal |
| DefinitionTypes.KeyEqualIsEquivalence | pipeline/DefinitionTypes.hpp:17-19 | `operator==` is reflexive, symmetric and transitive |
| DefinitionTypes.EqualKeysHashEqually | pipeline/DefinitionTypes.hpp:17-32 | keys that compare equal hash equally, whatever the string hash, as `unordered_map` requires |
| DefinitionTypes.HashDependsOnlyOnNames | pipeline/DefinitionTypes.hpp:21-32 | the hash is combined from the vertex, fragment and geometry names' hashes alone |
| DefinitionTypes.TypeOrdinal | pipeline/DefinitionTypes.hpp:34-48 | each uniform kind's enumerator value is below 8 |
| DefinitionTypes.TypeOfOrdinal | pipeline/DefinitionTypes.hpp:34-48 | each value 0 to 7 is the enumerator value of the kind returned |
| DefinitionTypes.EightUniformKinds | pipeline/DefinitionTypes.hpp:34-48 | the eight kinds are numbered 0 to 7 without gaps or repeats |
| DefinitionTypes.Lookup | pipeline/DefinitionTypes.hpp:52-55 | a uniform name's definition is found exactly when an entry carries that name, and the result is such an entry's definition |
| DefinitionTypes.LookupUnique | pipeline/DefinitionTypes.hpp:52-55 | with names unique, as map keys are, looking up an entry's name finds that entry's definition |
| JobQueue.LockedQueue.constructor | util/queue.hpp:53 | the deque starts empty |
| JobQueue.LockedQueue.Push | util/queue.hpp:26-33 | the value joins the back of the queue |
| JobQueue.LockedQueue.TryPop | util/queue.hpp:44-51 | false exactly on an empty queue, which leaves the queue and `val` untouched; otherwise the front element is removed and returned |
| JobQueue.LockedQueue.WaitPop | util/queue.hpp:35-42 | on a non-empty queue, removes and returns the front element |
| JobQueue.QueueItem.constructor | util/queue.hpp:60-65 | a new node's `next` is null |
| JobQueue.LocklessQueue.constructor | util/queue.hpp:70 | a fresh queue is one sentinel node whose `next` is null, so it holds nothing |
| JobQueue.LocklessQueue.CompareAndSwapNext | util/atomic.hpp:26 | the swap succeeds exactly when the sentinel's `next` still holds the expected pointer, and only then stores the new one |
| JobQueue.LocklessQueue.Push | util/queue.hpp:72-78 | the value is linked directly after the sentinel: it becomes the first element and the rest is unchanged |
| JobQueue.LocklessQueue.TryPop | util/queue.hpp:97-107 | false exactly on an empty queue, which leaves the list and `t` untouched; otherwise the node after the sentinel is unlinked and its value returned |
| JobQueue.LocklessQueue.WaitPop | util/queue.hpp:80-95 | on a non-empty list, unlinks the node after the sentinel and returns its value |
| JobQueue.LocklessOrder | util/queue.hpp:72-107 | pushing a, b, c and popping three times returns c, b, a: the lock-free queue is last in, first out |
| JobQueue.LockedOrder | util/queue.hpp:26-51 | the same pushes and pops on the locked queue return a, b, c: first in, first out |
| JobQueue.PushThenPop | util/queue.hpp:72-107 | `push(x)` followed by `try_pop` succeeds, returns x and restores the previous contents |
| JobQueue.WaitPopAgreesWithTryPop | util/queue.hpp:80-107 | on a non-empty lock-free queue `wait_pop` and `try_pop` return the same element, the first one |
| World.EmptyShaderNamesExactly | world/DataManager.cpp:175-177 | the character test accepts exactly ".vs", ".fs" and ".gs", the names an empty base name produces |
| World.ShaderText | world/DataManager.cpp:173-191 | `loadShaderString` throws exactly for a name that is not empty, not cached and not in the shader directory, and the error names that file |
| World.Remember | world/DataManager.cpp:178-190 | the cache keeps every entry it had, and the only entry it can gain is the name read from the directory, with the file's text |
| World.ShaderCacheTransparent | world/DataManager.cpp:173-191 | after any load, every name reads as it did before: the cache never changes what `loadShaderString` returns |
| World.ShaderNamesDistinct | world/DataManager.cpp:127-129 | the vertex, fragment and geometry file names always differ, whatever the definition says |
| World.ShaderSources | world/DataManager.cpp:127-129 | the three sources are obtained exactly when all three loads succeed, and they are those loads' texts |
| World.CachedTextureUniform | world/DataManager.cpp:138-150 | as written, a texture already requested by another material yields a uniform whose `any_cast<Image*>` throws; with `j->second` it yields the cached image |
| World.FirstUncastable | world/DataManager.cpp:133-137 | the uniform loop runs to the first texture entry whose value is not a string: every entry before it casts and that entry does not |
| World.ResolveAllTexturesCast | world/DataManager.cpp:132-156 | (corrected) when every cast succeeds, each texture uniform the loop produces casts to an `Image*` that exists in the image table |
| World.CastableTail | world/DataManager.cpp:133-137 | dropping the first entry keeps every entry castable |
| World.ResolveAllKeeps | world/DataManager.cpp:132-156 | one uniform per entry is appended, handles only grow, and every image, name and queued job that existed before is kept |
| World.ResolveAllUniforms | world/DataManager.cpp:132-156 | (corrected at line 149) entry i becomes uniform i: its kind, the location the loader reports for its name, and for a texture the image registered under its name |
| World.TextureNamesCons | world/DataManager.cpp:136-137 | the texture names of a list are those of its first entry and of the rest |
| World.ResolveAllImageNames | world/DataManager.cpp:138-147 | the names that gain an image are exactly the entries' texture names |
| World.ResolveAllNewImages | world/DataManager.cpp:140-146 | each name that gains an image gets a fresh handle holding an unloaded placeholder image |
| World.ResolveUniformImages | world/DataManager.cpp:136-153 | one iteration adds an image exactly for a texture name not seen before, a placeholder under the next handle |
| World.QueuedCons | world/DataManager.cpp:139-147 | prepending a name to the duplicate-free list of names new relative to one more name gives the duplicate-free list of new names |
| World.ResolveAllQueued | world/DataManager.cpp:139-147 | the loop queues one `LOAD_TEXTURE` job for exactly each name that gained an image, and no name twice |
| World.TextureJobs | world/DataManager.cpp:147 | the jobs the lock-free queue holds after the loop pushed the names, newest first |
| World.BuiltinMeshesMatchTables | world/DataManager.cpp:287-338 | both built-in mesh descriptors match the tables of pipeline/Builtins.cpp: byte sizes, strides and index count agree, every index names a vertex, and both attributes lie inside one vertex without overlapping |
| World.DataManager.constructor | world/DataManager.cpp:36-40 | empty tables and queues, then the two built-in meshes registered, handed to the loader and queued for the main thread |
| World.DataManager.RegisterBuiltin | world/DataManager.cpp:295-314 | a new mesh under a fresh handle, registered unless the name is taken, handed to the loader and queued as `FINISH_MESH_LOAD`; nothing else changes |
| World.DataManager.LoadBuiltinData | world/DataManager.cpp:287-338 | `__quad__` then `__missing__` are each registered as `RegisterBuiltin` states |
| World.DataManager.LoadMaterial | world/DataManager.cpp:85-99 | a known name returns its material with the count raised by one and queues nothing; a new name gets an unbuilt material with count 0 and exactly one `BUILD_MATERIAL` job |
| World.DataManager.AddMaterial | world/DataManager.cpp:101-111 | the definition is stored either way; only a redefinition of a name that has a material queues one `BUILD_MATERIAL` |
| World.DataManager.LoadMesh | world/DataManager.cpp:113-121 | a known name returns its mesh with the count raised by one; an unknown one returns null and changes nothing |
| World.DataManager.LoadShaderString | world/DataManager.cpp:173-191 | the result is `ShaderText` of the old cache and the cache becomes `Remember` of it; nothing else changes |
| World.DataManager.LoadShaderSources | world/DataManager.cpp:127-129 | the sources are `ShaderSources` of the cache before the first call, and the cache remembers what was read |
| World.DataManager.StoreMaterial | world/DataManager.cpp:158-170 | an existing material gets the new program and uniforms after its old program is released; a missing one is created with count 0 |
| World.DataManager.BuildMaterial | world/DataManager.cpp:123-171 | (corrected at line 149) an unknown name gets an empty definition; a missing shader file aborts before the loader is called; otherwise as `LinkMaterial` |
| World.DataManager.LinkMaterial | world/DataManager.cpp:131-170 | (corrected at line 149) the program is linked, the uniform loop runs as `ResolveAll` up to the first failing cast, and only when no cast throws is the material stored |
| World.DataManager.LoadTexture | world/DataManager.cpp:200-285 | (corrected: the layout of `DecodedLayout` and sizes without 32-bit wrap-around) the checks in the source's order (file exists, is a PNG, image created); the size is recorded before the bit-depth check; on success the buffer holds `height` rows of `width * channels` bytes, mipmaps are requested, the format follows the channel count and the image goes to the loader |
| World.DataManager.AddPlaceholderImage | world/DataManager.cpp:140-145 | a new unloaded image under a fresh handle, registered under the name; nothing else changes |
| World.DataManager.ResolveEntry | world/DataManager.cpp:134-155 | (corrected at line 149) one iteration does what `ResolveUniform` states to the image table, image store, next handle and job queue, and returns the uniform |
| World.DataManager.ResolveUniforms | world/DataManager.cpp:132-156 | (corrected at line 149) the result and the tables and job queue afterwards are those of `ResolveAll`; it stops at the first texture entry whose value is not a string |
| World.ResolveAllSnoc | world/DataManager.cpp:132-156 | extending the processed prefix by one entry is one more `ResolveUniform` step |
| PngLayout.StoredChannels | world/DataManager.cpp:237 | `png_get_channels`: every colour type stores between 1 and 4 channels per pixel |
| PngLayout.LayoutAsWritten | world/DataManager.cpp:242-263 | as written: the only failure is the bit-depth rejection of lines 260-263 |
| PngLayout.DecodedLayout | world/DataManager.cpp:242-263 | (corrected) the only failure is the bit-depth rejection, and 16 bits are stripped exactly when the file has 16-bit samples |
| PngLayout.FormatOf | world/DataManager.cpp:277-282 | a pixel format is chosen exactly for 1 to 4 channels |
| PngLayout.FormatMatchesChannels | world/DataManager.cpp:277-282 | the format chosen for n channels stores exactly n bytes per pixel |
| PngLayout.DecodedLayoutMatchesLibpng | world/DataManager.cpp:240-268 | for every conforming PNG the corrected layout is accepted, names a pixel format and reserves exactly the bytes per row libpng writes |
| PngLayout.AsWrittenAgreesElsewhere | world/DataManager.cpp:242-263 | apart from 16-bit grey and palette images below 8 bits, the code as written computes the corrected layout |
| PngLayout.AsWrittenGray16Overflows | world/DataManager.cpp:246-268 | as written, a 16-bit grey image is not stripped: rows are `width` bytes apart but libpng writes `2 * width` bytes into each |
| PngLayout.BufferSizeAsWritten | world/DataManager.cpp:266 | as written, the buffer size is a 32-bit value, and it equals `width * height * channels` whenever that product is below 2^32 |
| PngLayout.AsWrittenExactBelow2p32 | world/DataManager.cpp:266-269 | while `width * height * channels` is below 2^32 the 32-bit buffer size and row offsets are the exact ones |
| PngLayout.AsWrittenBufferWraps | world/DataManager.cpp:266-271 | as written, a conforming 65536x65536 8-bit grey PNG gets a 0-byte buffer although libpng writes 65536 bytes into each of its rows |
| PngLayout.AsWrittenRejectsLowDepthPalette | world/DataManager.cpp:243-263 | as written, a 4-bit palette image, which libpng expands to 8-bit RGB, is rejected |
| PngLayout.RowsFlippedInBuffer | world/DataManager.cpp:268-272 | (corrected: offsets without 32-bit wrap-around) rows are stored bottom-up: each in its own stride-sized slot of the buffer, later rows before earlier ones, the first at the top end and the last at offset 0 |
| PngLayout.BufferHoldsEveryRow | world/DataManager.cpp:265-273 | (corrected: sizes and offsets in 64-bit `size_t`) for a conforming PNG the `width * height * channels` buffer is below 2^64, so the 64-bit arithmetic is exact, and it holds exactly `height` rows of what libpng writes, and each row pointer leaves room for a full row |
| PngLayout.RowPointers | world/DataManager.cpp:265-272 | (corrected: offsets without 32-bit wrap-around) the row pointer array has one entry per row, entry i at row i's bottom-up offset |
| Builtins.VertexCount | world/DataManager.cpp:298-320 | the number of whole vertices in a table without a partial vertex at its end, times five floats, is the table's length |
| Builtins.MissingDataSize | pipeline/Builtins.cpp:17-54 | the cube table holds 24 whole vertices, 480 bytes at the stride of 20 that `loadBuiltinData` gives it (world/DataManager.cpp:319-320) |
| Builtins.QuadDataSize | pipeline/Builtins.cpp:73-82 | the quad table holds 6 whole vertices, the 120 bytes `loadBuiltinData` uploads (world/DataManager.cpp:298) |
| Builtins.MissingIndexLayout | pipeline/Builtins.cpp:56-71 | the index table has `builtin_missing_idx_count` (36) entries, and face f is drawn as the triangles (4f, 4f+1, 4f+2) and (4f, 4f+2, 4f+3) |
| Builtins.FaceIndices | pipeline/Builtins.cpp:56-71 | index c of face f's six indices is `4f` plus entry c of the corner pattern (0, 1, 2, 0, 2, 3) |
| Builtins.MissingIndicesInRange | pipeline/Builtins.cpp:56-69 | every index names one of the 24 cube vertices and fits the `unsigned short` index type declared at world/DataManager.cpp:323 |
| Builtins.FacePlanesDistinct | pipeline/Builtins.cpp:17-54 | the six face planes are six distinct faces of the cube [-1, 1]^3 |
| Builtins.FaceTableShape | pipeline/Builtins.cpp:17-54 | each of the four vertices of face f lies on its face's plane, with position coordinates ±1 and texcoords 0 or 1 |
| Builtins.FaceSlice | pipeline/Builtins.cpp:17-54 | face f occupies floats 20f to 20f + 20 of the cube table |
| Builtins.CubeFaces | pipeline/Builtins.cpp:17-54 | each group of four cube vertices lies on one face of the cube; every position coordinate is ±1 and every texcoord 0 or 1 |
| Builtins.ShapeInSlice | pipeline/Builtins.cpp:17-54 | a vertex keeps its shape when its face is placed at floats 20f to 20f + 20 of a larger table, where it becomes vertex 4f + k |
| Builtins.CubeVertex | pipeline/Builtins.cpp:17-54 | vertex 4f + k of the cube table lies on the plane of face f |
| Builtins.QuadShape | pipeline/Builtins.cpp:73-82 | the quad lies in the z = 0 plane with corners (±1, ±1) and texcoords 0 or 1 |
| OglLoader.ShaderLoad | pipeline/ogl/Loader.cpp:165-211 | the loader's tables stay consistent; a successful load is null exactly for the empty path and otherwise names a stored shader; the program and shader tables and the texture and material parts of the state are unchanged; stores and id counters only grow |
| OglLoader.ShaderLoadCases | pipeline/ogl/Loader.cpp:165-211 | an empty path yields null and changes nothing; a cached path returns its shader with the count one higher; a new shader is a new object with count 1; a missing file or a failed compile throws and adds no shader; `shaders` never gains an entry |
| OglLoader.AttachShaders | pipeline/ogl/Loader.cpp:233-240 | attaching raises the counts of the geometry (when present), vertex and fragment shaders by one (32-bit) and leaves every other shader unchanged |
| OglLoader.ProgramLoad | pipeline/ogl/Loader.cpp:213-255 | a cached key returns its cached program; a success leaves the key mapped to the returned program; a throw leaves the program cache and program store unchanged; textures, materials and the shader cache are kept |
| OglLoader.ShadersLoad | pipeline/ogl/Loader.cpp:223-232 | a success names stored fragment, vertex and (when present) geometry shaders; programs and the shader cache are unchanged |
| OglLoader.ProgramCreate | pipeline/ogl/Loader.cpp:220-254 | an uncached key that succeeds is cached under the returned program; a failure leaves the program tables as they were |
| OglLoader.ProgramLink | pipeline/ogl/Loader.cpp:233-254 | linking succeeds exactly when GL links the key; a success stores a new program with count 1 under the next handle and caches it under the key; a failure throws `LinkFailed` and leaves the program tables alone; the shader counts are those of `AttachShaders` |
| OglLoader.ProgramCacheHit | pipeline/ogl/Loader.cpp:214-218 | a cached key returns its program one count higher and changes nothing else |
| OglLoader.ProgramCheckOrder | pipeline/ogl/Loader.cpp:223-230 | for an uncached key an empty fragment name throws whatever the vertex name is; an empty vertex name throws only after the fragment shader has loaded |
| OglLoader.ProgramFreshlyLinked | pipeline/ogl/Loader.cpp:213-255 | with no shader cached, a new program links exactly when GL links the key, is cached with count 1 in a new object, and its vertex, fragment and (exactly when named) geometry shaders are new objects with count 2 |
| OglLoader.ProgramLinkFresh | pipeline/ogl/Loader.cpp:233-254 | linking from shaders of count 1 records them in a program of count 1 and leaves each shader at count 2 |
| OglLoader.ProgramLoadMiss | pipeline/ogl/Loader.cpp:219-222 | an uncached key takes the next GL id and proceeds to create the program |
| OglLoader.ProgramLoadLinks | pipeline/ogl/Loader.cpp:220-241 | an uncached key whose shaders load is linked from those shaders with the GL id taken before they were loaded |
| OglLoader.ShadersLoadFresh | pipeline/ogl/Loader.cpp:223-232 | with nothing cached and every file present and compiling, the fragment, vertex and (when named) geometry shaders become the next new objects in that order, each with count 1 |
| OglLoader.TextureLoad | pipeline/ogl/Loader.cpp:133-157 | the result is a stored texture; programs and materials are kept; stores and counters only grow |
| OglLoader.TextureCacheHit | pipeline/ogl/Loader.cpp:134-138 | a cached path returns the same texture one count higher |
| OglLoader.MissingTextureCreated | pipeline/ogl/Loader.cpp:140-154 | the first request for `__MISSING__` creates a new 2x2 texture with count 1 and mip level 0, cached under that name |
| OglLoader.OtherPathsFallBack | pipeline/ogl/Loader.cpp:156 | an uncached path other than `__MISSING__` gets exactly what `__MISSING__` gets and is never cached under its own name |
| OglLoader.WebviewLoad | pipeline/ogl/Loader.cpp:159-163 | every call stores a new 800x600 webview under a fresh handle, caches nothing and leaves programs and materials alone |
| OglLoader.AppendUniform | pipeline/ogl/Loader.cpp:129 | only the material's uniform list changes, by one uniform at its end |
| OglLoader.AddTextureUniform | pipeline/ogl/Loader.cpp:119-121 | the material gains, at the end, a texture uniform bound to the texture `loadTexture` returns for the path |
| OglLoader.AddWebviewUniform | pipeline/ogl/Loader.cpp:122-125 | the material gains, at the end, a texture uniform bound to the newly created webview |
| OglLoader.UniformStep | pipeline/ogl/Loader.cpp:113-129 | one pass keeps the material and definition tables, the program cache and the material's program |
| OglLoader.UniformStepEffect | pipeline/ogl/Loader.cpp:113-129 | one pass throws, changing nothing, exactly when a used texture or webview uniform holds no string; an unused uniform changes nothing; a used one appends one uniform with its location and stored kind and keeps the earlier ones |
| OglLoader.UniformsBuild | pipeline/ogl/Loader.cpp:112-130 | the loop keeps the material and definition tables, the program cache and the material's program |
| OglLoader.UniformsBuildSnoc | pipeline/ogl/Loader.cpp:112-130 | the loop over one more entry is one more pass after the loop over the earlier entries, unless that already threw |
| OglLoader.UniformsBuildStops | pipeline/ogl/Loader.cpp:120-124 | once the loop throws, later entries are never reached |
| OglLoader.Used | pipeline/ogl/Loader.cpp:114-116 | the kept entries are entries of the definition that the program has a location for |
| OglLoader.UniformsBuildAppends | pipeline/ogl/Loader.cpp:112-130 | without a throw, the loop appends to the existing uniforms exactly one uniform per entry with a location, in definition order, each with that location and its stored kind |
| OglLoader.MaterialBuild | pipeline/ogl/Loader.cpp:109-131 | when the program throws the material is unchanged; otherwise the material's program is the one now cached under its key; the material tables are kept |
| OglLoader.SetProgram | pipeline/ogl/Loader.cpp:110 | only the material's program changes |
| OglLoader.BumpShader | pipeline/ogl/Loader.cpp:171 | the shader's count goes up by one with 32-bit wrap-around; everything else is unchanged |
| OglLoader.BumpTexture | pipeline/ogl/Loader.cpp:136 | the texture's count goes up by one with 32-bit wrap-around; everything else is unchanged |
| OglLoader.DropTexture | pipeline/ogl/Loader.cpp:264 | the texture's count goes down by one with 32-bit wrap-around; everything else is unchanged |
| OglLoader.ReleaseTextures | pipeline/ogl/Loader.cpp:262-265 | releasing keeps the set of textures |
| OglLoader.ReleaseCountsUses | pipeline/ogl/Loader.cpp:262-265 | clean-up takes exactly one count per binding off each texture, with 32-bit wrap-around, leaves the other fields alone and frees nothing |
| OglLoader.MaterialCleanup | pipeline/ogl/Loader.cpp:257-266 | only the program and texture stores change, and neither gains or loses an object |
| OglLoader.MaterialAdd | pipeline/ogl/Loader.cpp:72-80 | the definition table is updated with insert semantics (an existing definition is kept); without a material of that name nothing else changes |
| OglLoader.LoaderRegistersMissing | pipeline/ogl/Loader.cpp:55-66 | the constructor's registration of `__MISSING__` on an empty loader only stores the definition |
| OglLoader.Loader.constructor | pipeline/ogl/Loader.cpp:31-67 | empty caches and the `__MISSING__` definition stored, as `MaterialAdd` on an empty loader gives |
| OglLoader.Loader.LoadShader | pipeline/ogl/Loader.cpp:165-211 | the result and new state are those of `ShaderLoad` |
| OglLoader.Loader.LoadProgram | pipeline/ogl/Loader.cpp:213-255 | the result and new state are those of `ProgramLoad` |
| OglLoader.Loader.ReuseProgram | pipeline/ogl/Loader.cpp:214-218 | a cached key: the cached program, with one more reference |
| OglLoader.Loader.CreateProgram | pipeline/ogl/Loader.cpp:220-254 | the result and new state are those of `ProgramCreate` |
| OglLoader.Loader.LoadShaders | pipeline/ogl/Loader.cpp:223-232 | the result and new state are those of `ShadersLoad` |
| OglLoader.Loader.LinkProgram | pipeline/ogl/Loader.cpp:233-254 | the result and new state are those of `ProgramLink` |
| OglLoader.Loader.LoadTexture | pipeline/ogl/Loader.cpp:133-157 | the result and new state are those of `TextureLoad` |
| OglLoader.Loader.LoadWebview | pipeline/ogl/Loader.cpp:159-163 | the result and new state are those of `WebviewLoad` |
| OglLoader.Loader.BuildMaterial | pipeline/ogl/Loader.cpp:109-131 | the outcome and new state are those of `MaterialBuild` |
| OglLoader.Loader.BuildUniforms | pipeline/ogl/Loader.cpp:112-130 | the outcome and new state are those of `UniformsBuild` over all entries |
| OglLoader.Loader.AddUniform | pipeline/ogl/Loader.cpp:113-129 | the outcome and new state are those of `UniformStep` |
| OglLoader.Loader.CleanupMaterial | pipeline/ogl/Loader.cpp:257-266 | the new state is that of `MaterialCleanup` |
| OglLoader.Loader.AddMaterial | pipeline/ogl/Loader.cpp:72-80 | the outcome and new state are those of `MaterialAdd` |
| WeakLoader.Cached | pipeline/Loader.cpp:16-18 | a lookup yields an object exactly when the name has an entry whose object is still owned, and then it is that entry's object |
| WeakLoader.LinkCheck | pipeline/Loader.cpp:86-102 | an empty fragment name throws first, then an empty vertex name; the checks pass exactly when fragment, vertex and geometry names are all non-empty, all three shaders are live in the cache and GL links the key, and then they yield those three shaders |
| WeakLoader.ProgramLoad | pipeline/Loader.cpp:80-113 | the loader state stays valid; a success returns a live stored program; materials are untouched |
| WeakLoader.ProgramLoadSpec | pipeline/Loader.cpp:80-113 | a live cached program is returned and nothing changes; otherwise one GL id is used, the load succeeds exactly when `LinkCheck` passes (with its error otherwise), a success returns a program no one owned before linked from the checked shaders, and the key is cached only when it had no entry at all; no other table changes |
| WeakLoader.ExpiredProgramStaysExpired | pipeline/Loader.cpp:81-111 | a key whose entry has expired keeps that expired entry after a successful load, so the next load misses again and creates another program |
| WeakLoader.UniformsFor | pipeline/Loader.cpp:46-55 | no more uniforms than entries, none with location -1, and the only error is `bad_any_cast` |
| WeakLoader.UniformsForFrom | pipeline/Loader.cpp:46-55 | the loop over the entries from position i is one pass on entry i followed by the loop from i + 1 |
| WeakLoader.Located | pipeline/Loader.cpp:48-50 | the located entries are at most the entries |
| WeakLoader.UniformsForLocated | pipeline/Loader.cpp:46-55 | when every texture entry carries a string the loop passes and appends exactly one uniform per located entry, in definition order, with its location and kind, and for a texture the live cached texture of its path |
| WeakLoader.MaterialBuild | pipeline/Loader.cpp:43-56 | the state stays valid and no material is added or removed |
| WeakLoader.MaterialBuildSpec | pipeline/Loader.cpp:43-56 | a program that cannot load fails the build with its error and leaves the material untouched; otherwise the program is set, old uniforms stay in front of the new ones, the build passes and adds one uniform per located entry when every texture entry carries a string; no other material changes |
| WeakLoader.MaterialLoad | pipeline/Loader.cpp:15-27 | the loader state stays valid |
| WeakLoader.MaterialLoadSpec | pipeline/Loader.cpp:15-27 | a live cached material is returned and nothing changes; a name without a definition gives null and nothing changes; a defined name gets a material no one owned before with its program set; a throwing build leaves the same objects owned as before; the material cache is never written |
| WeakLoader.MaterialLoadOwnsOnlyNew | pipeline/Loader.cpp:15-27 | the next handle never goes down, and every object owned afterwards but not before is new |
| WeakLoader.MaterialLoadNeverCaches | pipeline/Loader.cpp:20-26 | a defined material not live in the cache is built afresh on every call: still not cached afterwards, and two loads in a row return two different materials |
| WeakLoader.MaterialAdd | pipeline/Loader.cpp:36-41 | the loader state stays valid |
| WeakLoader.MaterialAddDefs | pipeline/Loader.cpp:37 | after `addMaterial` the definitions are those `insert` leaves, however the rebuild ends |
| WeakLoader.SecondAddKeepsFirstDefinition | pipeline/Loader.cpp:37-40 | a second `addMaterial` of a name changes no definition, and a live material is rebuilt from the first one |
| WeakLoader.DefsAfterAdd | pipeline/Loader.cpp:37 | the name maps to the existing definition if there was one and to the new one otherwise; every other name is unchanged |
| WeakLoader.Loader.LoadMesh | pipeline/Loader.cpp:29-34 | the result is the cached mesh exactly when it is still owned, otherwise null |
| WeakLoader.Loader.LoadTexture | pipeline/Loader.cpp:58-63 | the result is the cached texture exactly when it is still owned, otherwise null |
| WeakLoader.Loader.LoadShader | pipeline/Loader.cpp:65-78 | the result is the cached shader exactly when it is still owned, otherwise null |
| WeakLoader.Loader.LoadProgram | pipeline/Loader.cpp:80-113 | the result and new state are those of `ProgramLoad` |
| WeakLoader.Loader.CreateProgram | pipeline/Loader.cpp:84-112 | for a key without a live entry, the result and new state are those of `ProgramLoad` |
| WeakLoader.Loader.AddProgram | pipeline/Loader.cpp:84-112 | the program is stored under the next handle and owned; the key is cached only if it had no entry |
| WeakLoader.Loader.CheckShaders | pipeline/Loader.cpp:86-102 | the result is `LinkCheck` |
| WeakLoader.Loader.BuildMaterial | pipeline/Loader.cpp:43-56 | the outcome and new state are those of `MaterialBuild` |
| WeakLoader.Loader.AppendUniforms | pipeline/Loader.cpp:46-55 | the material's uniforms grow by what `UniformsFor` computes and nothing else changes |
| WeakLoader.Loader.LoadMaterial | pipeline/Loader.cpp:15-27 | the result and new state are those of `MaterialLoad` |
| WeakLoader.Loader.NewMaterial | pipeline/Loader.cpp:23 | an empty material under a new handle, owned by the caller |
| WeakLoader.Loader.AddMaterial | pipeline/Loader.cpp:36-41 | the outcome and new state are those of `MaterialAdd` |
| WeakLoader.Loader.constructor | pipeline/Loader.hpp:26 | a defaulted constructor: every cache and store empty, nothing live, handle and GL-id counters at 0 |
| Pipeline.Halve | pipeline/Pipeline.cpp:85 | integer halving truncates toward zero: for a non-negative level, twice the result is at most the level and within 1 of it |
| Pipeline.FsaaHalvings | pipeline/Pipeline.cpp:78-86 | the current level is the smaller of the two sample limits, and the level set is its halvings |
| Pipeline.HalvingLevelsBounds | pipeline/Pipeline.cpp:81-86 | the limit itself is a level; every other level is above 1 and at most half the limit |
| Pipeline.HalvingLevelsClosed | pipeline/Pipeline.cpp:83-86 | halving a level gives a level again unless the result is 1 or less |
| Pipeline.HalvingLevelsLeast | pipeline/Pipeline.cpp:83-86 | the level set is the least set holding the limit and closed under halving above 1 |
| Pipeline.TargetsSetUpSpec | pipeline/Pipeline.cpp:131-166 | with either target missing nothing changes; otherwise four fresh textures at the given sample count and size, the default target's list replaced by [depth, main plane] and the g-buffer's by [depth, colour, normals] sharing the depth texture; no other target and no earlier allocation changes |
| Pipeline.Diag | pipeline/Pipeline.cpp:261-264 | the panel matrix has x and y scales and 1, 1 on the diagonal and zeros elsewhere |
| Pipeline.MaterialUse | pipeline/Pipeline.cpp:277-290 | the loop binds the projection at no more locations than there are uniforms |
| Pipeline.MaterialUseThrowsIff | pipeline/Pipeline.cpp:277-290 | the loop throws exactly when some uniform with a location has a kind other than ModelView and Projection, and then with the unimplemented-type error |
| Pipeline.MaterialUseFailSticks | pipeline/Pipeline.cpp:287-288 | once the loop has thrown, later uniforms change nothing |
| Pipeline.MaterialUseModelView | pipeline/Pipeline.cpp:280-291 | the returned ModelView location is that of the last ModelView uniform with a location, and absent when there is none |
| Pipeline.ProjectionSlots | pipeline/Pipeline.cpp:284-286 | there are no more projection slots than uniforms |
| Pipeline.ProjectionSlotsAppend | pipeline/Pipeline.cpp:284-286 | one more uniform adds its location to the slots exactly when it is a located Projection uniform |
| Pipeline.MaterialUseProjections | pipeline/Pipeline.cpp:284-286 | when no uniform is unsupported, the projection is bound at the location of every located Projection uniform, in order |
| Pipeline.Pipeline.constructor | pipeline/Pipeline.cpp:63-118 | FSAA levels as `FsaaHalvings`; 800x600; default and g-buffer targets distinct, mipmaps off, with 2 and 3 textures sharing the depth texture; default target current; the CSM array and shadow map allocated as R32F 512x512 |
| Pipeline.Pipeline.CreateRenderTarget | pipeline/Pipeline.cpp:57-61 | a new target on a new framebuffer with no textures and mipmaps on; no other target changes |
| Pipeline.Pipeline.BuildRenderTarget | pipeline/Pipeline.cpp:215-231 | a new target holding exactly one new RGBA16F texture of the given size, mipmapped filtering iff asked; the target keeps mipmaps on |
| Pipeline.Pipeline.SetupRenderTargets | pipeline/Pipeline.cpp:131-166 | the targets and allocations afterwards are `TargetsSetUp` of those before, at the current level and size |
| Pipeline.Pipeline.SetFsaa | pipeline/Pipeline.hpp:122 | a level outside the set changes nothing; a level in the set becomes current and the targets are set up again at it |
| Pipeline.Pipeline.FsaaLevels | pipeline/Pipeline.hpp:121 | the level set, which holds the current level |
| Pipeline.Pipeline.SetRenderTarget | pipeline/Pipeline.cpp:209-213 | no target means the default one; the chosen target becomes current |
| Pipeline.Pipeline.Render | pipeline/Pipeline.cpp:175-189 | the textures whose mipmaps are generated are every texture bound to the current target when it builds mipmaps, and none otherwise |
| Pipeline.Pipeline.CreatePanel | pipeline/Pipeline.cpp:257-268 | the loader's state is that of its `loadMaterial`; a throw propagates and adds no panel; otherwise a new panel with that material, the live `__quad__` mesh and the scaling matrix joins the set |
| Pipeline.Pipeline.DestroyPanel | pipeline/Pipeline.cpp:270-272 | the panel leaves the set |
| Pipeline.UseMaterial | pipeline/Pipeline.cpp:274-292 | the current program is the material's, and the loop's result is `MaterialUse` of its uniforms |
| OglPipeline.FsaaLevels | pipeline/ogl/Pipeline.cpp:28-36 | the current level is the smaller sample limit (wrapped to 32 bits); the level set holds it and exactly the values above 1 that lie an even distance below it |
| OglPipeline.DestroyAsWrittenLeaksMatprop | pipeline/ogl/Pipeline.cpp:172-185 | creating a target on fresh names and deleting the four textures the source deletes leaves the material-property texture allocated, so the texture table is not restored |
| OglPipeline.ReleasingAllTexturesRestores | pipeline/ogl/Pipeline.cpp:122-170 | deleting all five textures of a target created on fresh names restores the texture table exactly |
| OglPipeline.TextureBindings | pipeline/ogl/Pipeline.cpp:84-97 | no more bindings than uniforms, and the only error is `bad_any_cast` |
| OglPipeline.Uploaded | pipeline/ogl/Pipeline.cpp:86-91 | the uploaded uniforms are texture uniforms of the material holding an image that has a texture |
| OglPipeline.BindingsAreUploadedTextures | pipeline/ogl/Pipeline.cpp:84-97 | when every texture uniform holds an image the loop does not throw and binds exactly the uploaded textures, in order, to consecutive units, each at its own uniform's location |
| OglPipeline.TextureBindingsFrom | pipeline/ogl/Pipeline.cpp:84-97 | the loop over the uniforms from position i is one step on uniform i followed by the loop from i + 1 |
| OglPipeline.DrawOf | pipeline/ogl/Pipeline.cpp:99-103 | a mesh is drawn as arrays exactly when it has no index data |
| OglPipeline.FrameDraws | pipeline/ogl/Pipeline.cpp:75-104 | no more draws than tasks |
| OglPipeline.DrawnTasks | pipeline/ogl/Pipeline.cpp:76-79 | the drawn tasks are tasks whose mesh has a vertex array and whose material has a linked program |
| OglPipeline.FrameDrawsDrawnTasks | pipeline/ogl/Pipeline.cpp:75-104 | when the drawn materials' texture uniforms all hold images, the frame passes and issues one draw per drawn task, in order, with its vertex array, program, uploaded textures from unit 1 and its mesh's draw call |
| OglPipeline.FrameDrawsFrom | pipeline/ogl/Pipeline.cpp:75-104 | the loop over the tasks from position i is one step on task i followed by the loop from i + 1 |
| OglPipeline.Pipeline.constructor | pipeline/ogl/Pipeline.cpp:24-44 | the FSAA fields as `FsaaLevels` states; no current framebuffer, no target, no task, no texture and no framebuffer |
| OglPipeline.Pipeline.AddDrawTask | pipeline/ogl/Pipeline.cpp:49-55 | the task list gains the one task at its end |
| OglPipeline.Pipeline.Render | pipeline/ogl/Pipeline.cpp:58-69 | without a current framebuffer nothing changes; otherwise only that target becomes dirty |
| OglPipeline.Pipeline.BindTextures | pipeline/ogl/Pipeline.cpp:84-97 | the bindings and outcome are `TextureBindings` from unit 1 |
| OglPipeline.Pipeline.EndFrame | pipeline/ogl/Pipeline.cpp:71-108 | the draws and outcome are those `FrameDraws` gives for the task list; a frame that passes empties the list and one that throws keeps it |
| OglPipeline.Pipeline.CreateRenderTarget | pipeline/ogl/Pipeline.cpp:122-170 | two new framebuffers and five distinct new textures allocated at the current sample count and requested size; the target is dirty and builds mipmaps as asked; no other target changes |
| OglPipeline.Pipeline.DestroyRenderTarget | pipeline/ogl/Pipeline.cpp:172-185 | (corrected) all five textures and both framebuffers are deleted and the target is freed |
| OglPipeline.Pipeline.SetRenderTarget | pipeline/ogl/Pipeline.cpp:187-190 | the given pointer, null included, becomes current |
| OglPipeline.Pipeline.SetViewport | pipeline/ogl/Pipeline.cpp:192-198 | the window size is recorded |
| Drawbuffer.AttribGlType | pipeline/Drawbuffer.cpp:44-64 | every element type maps to a GL type enumerant between `GL_BYTE` and `GL_HALF_FLOAT` |
| Drawbuffer.AttribGlTypeInjective | pipeline/Drawbuffer.cpp:44-64 | two element types share a GL type exactly when they are the same type |
| Drawbuffer.IntAttribGlTypeSpec | pipeline/Drawbuffer.cpp:70-86 | `intAttribute` accepts exactly the six integer types, with the GL type `attribute` gives them, and throws `logic_error` for the floating-point types |
| Drawbuffer.UIntIndicesNeverDrawAsWritten | pipeline/Drawbuffer.cpp:102-118 | as written, `setIndices` accepts `UInt` indices (4 bytes each) but `draw` always throws for them |
| Drawbuffer.IndexTablesAgree | pipeline/Drawbuffer.cpp:102-118 | with the `break` restored, `draw` handles exactly the index types `setIndices` accepts, with the GL type `attribute` gives them, and each index takes 1, 2 or 4 bytes |
| Drawbuffer.DrawBuffer.constructor | pipeline/Drawbuffer.cpp:6 | no vertices, stride 0, nothing uploaded, no attribute array enabled |
| Drawbuffer.DrawBuffer.SetData | pipeline/Drawbuffer.cpp:36-41 | uploads `vert_count * stride` bytes, the product taken modulo 2^64, and records the stride and vertex count |
| Drawbuffer.DrawBuffer.Attribute | pipeline/Drawbuffer.cpp:43-67 | attribute array `idx` is enabled with the element type's GL type and the current stride; no other array changes |
| Drawbuffer.DrawBuffer.IntAttribute | pipeline/Drawbuffer.cpp:69-89 | a floating-point type throws and enables nothing; an integer type enables array `idx` as an integer attribute with its GL type and the current stride |
| Drawbuffer.DrawBuffer.Draw | pipeline/Drawbuffer.cpp:32-34 | an instanced arrays draw of all vertices |
| Drawbuffer.IndexedDrawBuffer.constructor | pipeline/Drawbuffer.cpp:91-94 | a fresh empty vertex buffer and no index type or index data |
| Drawbuffer.IndexedDrawBuffer.SetIndices | pipeline/Drawbuffer.cpp:111-127 | an index type other than UByte, UShort and UInt throws and changes nothing; otherwise `count` indices of 1, 2 or 4 bytes are uploaded and the type and count recorded |
| Drawbuffer.IndexedDrawBuffer.Draw | pipeline/Drawbuffer.cpp:100-109 | (corrected) once `setIndices` has succeeded, an instanced elements draw of all indices with the GL type of the index type |
| Webview.Packed | pipeline/Webview.cpp:72-74 | the packed rows take `height * width * 4` bytes |
| Webview.PackedRow | pipeline/Webview.cpp:72-74 | row jj of a copy rectangle lies at bytes `jj * width * 4` to `(jj + 1) * width * 4` of the packed buffer and holds the `width * 4` bitmap bytes from `(left + (jj + top) * bitmap width) * 4` on |
| Webview.CopyUploads | pipeline/Webview.cpp:67-76 | one upload per copy rectangle |
| Webview.CopyUploadsPlacement | pipeline/Webview.cpp:67-76 | upload i is a sub-image upload at rectangle i's position and size, of `height * width * 4` bytes |
| Webview.CopyUploadsStep | pipeline/Webview.cpp:67-76 | one more copy rectangle adds its own packed upload at the end |
| Webview.Webview.constructor | pipeline/Webview.cpp:27-45 | records the size, asks for a full refresh and allocates `w * (h + 1) * 4` bytes of scroll buffer |
| Webview.Webview.CopyBytes | pipeline/Webview.cpp:73 | the destination range holds the source bytes and the rest of the buffer is unchanged |
| Webview.Webview.PackRect | pipeline/Webview.cpp:72-74 | afterwards the buffer starts with the rectangle's rows, packed as `Packed` |
| Webview.Webview.OnPaint | pipeline/Webview.cpp:52-78 | while a full refresh is pending, a bitmap not covering the view uploads nothing and keeps the flag, and one covering it is uploaded whole and clears the flag; otherwise the uploads are `CopyUploads` of the copy rectangles |
| Webview.Webview.OnCreatedWindow | pipeline/Webview.cpp:80-84 | a new window is resized to the view's size exactly when its initial width or height is below 1 |
| Entities.InsertKeepsFirst | entity/Entity.cpp:48 | `insert` adds exactly the key, keeps the value of a key already present and leaves every other entry alone |
| Entities.FindAfterErase | entity/Entity.cpp:53-72 | after `destroyEntity(id)`, `findEntity(id)` is null and every other id finds what it found before |
| Entities.FindAfterInsert | entity/Entity.cpp:48-72 | after registering `e` under `id`, `findEntity(id)` returns `e` unless another entity already held the id; other ids are unaffected |
| Entities.ChosenUuid | entity/Entity.cpp:44-47 | the new entity's uuid is the caller's when one is given and the generated one otherwise |
| Entities.Entity.constructor | entity/Entity.hpp:32-47 | a factory's fresh entity: empty class name and name, no component, and so trivially valid |
| Entities.Component.constructor | entity/Entity.cpp:18-22 | the component records its owner and joins the owner's component set, which stays owned by the owner |
| Entities.Component.Destroy | entity/Entity.cpp:24-27 | the component leaves its owner's component set and nothing else leaves it |
| Entities.Component.SendMessage | entity/Entity.cpp:29-34 | every other component of the owner receives the message exactly once, and the sender never does |
| Entities.EntityManager.constructor | entity/Entity.hpp:81-82 | no entity and no factory registered |
| Entities.EntityManager.CreateEntity | entity/Entity.cpp:39-51 | a null result registers nothing; otherwise the entity gets the class name and the chosen uuid and is registered with `insert`, so an id already registered keeps its older entity |
| Entities.EntityManager.DestroyEntity | entity/Entity.cpp:53-63 | the id is unregistered (an unknown id changes nothing) and the destroyed entity is left with no component |
| Entities.EntityManager.FindEntity | entity/Entity.cpp:65-72 | the registered entity exactly when the id is registered, and null otherwise |
| Entities.EntityManager.AddFactory | entity/Entity.cpp:74-77 | registers with `insert`: the first factory given for a class name is kept |
| ExtensionSearch.Strstr | client/Client_x11_ogl.cpp:42 | `strstr(start, extension)`: the first occurrence at or after the start, or none when there is no occurrence from there on |
| ExtensionSearch.InsideOccurrenceNoToken | client/Client_x11_ogl.cpp:37-50 | an occurrence starting strictly inside an earlier occurrence of a name without spaces is not a word of the list |
| ExtensionSearch.NoTokenUpTo | client/Client_x11_ogl.cpp:40-53 | when the first occurrence from the resume point fails the word test, no word starts before its end, so resuming there misses none |
| ExtensionSearch.ScanAsWrittenStep | client/Client_x11_ogl.cpp:40-53 | one round of the search as written: no occurrence gives false, an accepted occurrence true, a rejected one resumes at its end |
| ExtensionSearch.SearchRound | client/Client_x11_ogl.cpp:41-52 | a finished round returns the search's answer from the resume point; an unfinished one moves the resume point forward without changing that answer |
| ExtensionSearch.IsExtensionSupportedAsWritten | client/Client_x11_ogl.cpp:28-56 | as written: false for an empty name or one with a space, and otherwise the answer of the search whose word-start test also accepts the resume point |
| ExtensionSearch.AsWrittenAcceptsRunTogetherNames | client/Client_x11_ogl.cpp:48-52 | as written, `"a"` is reported supported in the list `"aa"`, of which it is not a word |
| ExtensionSearch.AsWrittenFindsEveryToken | pipeline/Pipeline_x11.cpp:40-53 | as written, the search never misses a name that is a word of the list |
| ExtensionSearch.IsExtensionSupported | pipeline/Pipeline_x11.cpp:28-56 | (corrected) true exactly when the name is non-empty, has no space and is one of the space-separated words of the list |

## Left out

- Window, context and event handling (GLX, WGL, X11, Win32), buffer swaps, and the loader-thread start, join and busy-waits are left out. They are calls into the operating system.
- Concurrency is left out. The queues are modelled sequentially: a compare-and-swap succeeds exactly when the pointer still holds the expected value, so each retry loop runs once. The image-table lock of world/DataManager.cpp is left out for the same reason.
- `DataManager::exec`, `finish` and `mainThreadTick` are left out. They are dispatch loops that yield to the scheduler; the jobs they dispatch are modelled as the operations they call.
- The `queue<T>` alias is modelled as the lock-free queue (`JobQueue.Queue`), the class it names by default; the `USE_LOCKED_QUEUE` switch that would select the locked queue is not modelled. This is why `World.TextureJobs` lists the newest job first.
- OpenGL is modelled as an oracle. Object ids come from counters. The oracle decides which files exist, which shaders compile and which keys link. Uniform locations come from a location function. `FBO_CHECK` completeness, `queryAvailableMem` and the GL error tables are not modelled.
- libpng is not modelled beyond its documented channel, expansion and stripping rules, and neither is the file-system read of `loadTexture` and `loadShaderString`. Berkelium's window calls are out, and so is the scrolling branch of `onPaint`, which only logs.
- Floating-point values (the built-in tables, panel scales, matrices) are reals. glm matrix arithmetic is left out, and matrices are opaque sequences.
- C strings are sequences without a terminating NUL.
- Freeing memory is not modelled: no `delete`, no `shared_ptr` deallocation, and no reclaiming of objects leaked when an operation throws. Only the reference counts are tracked.
- In several places the model substitutes a definite value where the source is undefined:
  - `OglPipeline.Pipeline.constructor`: the current framebuffer and the viewport, which the source leaves uninitialised, start as null and 0 by 0.
  - `Pipeline.MaterialUseModelView`: the ModelView location `useMaterial` returns is `None` when no uniform sets it; the source returns an uninitialised value.
  - `Drawbuffer.IndexedDrawBuffer.Draw` requires `setIndices` to have succeeded, since the source reads an uninitialised index type otherwise.
  - `WeakLoader.LinkCheck` returns `Failure(NullShader)` where pipeline/Loader.cpp:96-98 dereferences a null `shared_ptr`. That happens for every key without a geometry shader, and whenever a shader is not live in the cache, since `loadShader` (pipeline/Loader.cpp:65-78) then returns null. The source crashes there; it does not throw.
  - `OglLoader.ShaderProgram`'s `geom` is `None` for a key without a geometry shader. `new ShaderProgram` (pipeline/ogl/Loader.cpp:220) leaves that pointer indeterminate, and line 234 tests it.
  - `OglLoader.WebviewLoad` gives the new webview the reference count 0. The `Webview` constructor never sets it.
- Some preconditions state demands the source makes of its callers through undefined behaviour:
  - `Entities.EntityManager.CreateEntity` requires a non-null factory for the class name, since `m_factories[classname]->create()` dereferences whatever `operator[]` yields.
  - `Entities.Component.Destroy` requires the component to be in its owner's set.
  - `Entities.EntityManager.DestroyEntity` destroys every component of the entity. The source's loop erases from the set it is iterating, which is undefined.
  - `Webview.Webview.OnPaint` requires every copy rectangle to lie inside the bitmap and fit the scroll buffer, since `memcpy` beyond either is undefined.
  - `Webview.Webview.constructor` requires `w * (h + 1) * 4` to fit an `int`.
  - `OglPipeline.Pipeline.EndFrame` requires a current framebuffer, since it is dereferenced first. Through `OglPipeline.Resolves` it also requires every drawn task's texture uniforms to name existing images, since `img->tex` is dereferenced (pipeline/ogl/Pipeline.cpp:90), and a non-zero `data_stride` for a mesh drawn without indices, since line 100 divides by it.
  - `Pipeline.UseMaterial` and `OglLoader.Loader.CleanupMaterial` require the material to have a program, since it is dereferenced first.
  - `JobQueue.LockedQueue.WaitPop` and `JobQueue.LocklessQueue.WaitPop` require a non-empty queue, since on an empty one they wait for another thread forever.
- `Resources.Uniform`'s `pipeId` and the location `World.PipelineLoader.queryUniform` returns are `int`, where the source holds a `boost::any` (pipeline/interface.hpp:49). So the `boost::any_cast<int>(u.pipe_id)` of pipeline/ogl/Pipeline.cpp:86, which runs on every uniform, never throws in the model.
- `Entities.Component.SendMessage` returns the receivers in an unspecified order. `std::set` orders them by pointer value, which the model does not fix.
- Some entity state is not modelled. `Entity`'s `m_coord`, `m_draw`, `m_phys` and `m_datamgr` fields are left out; no modelled operation reads them. A factory's `create` is a parameter, and so is the uuid the random generator would draw.
- Several mismatches between the headers and the .cpp files are modelled as the .cpp files use the types:
  - the OpenGL pipeline's uniform enum has no `Webview` kind, yet pipeline/ogl/Loader.cpp uses one;
  - `DrawableMesh` has no `refcnt` in the header;
  - `RenderTarget` has no `matprop_id` in the header;
  - the webview's `hres` and `vres` are undeclared.
- `OglLoader.ShaderLoad` never enters a compiled shader in `shaders`, as written. So the shader cache is never filled, and `OglLoader.ProgramFreshlyLinked` assumes an empty shader cache.
- `WeakLoader`: the material, mesh, texture and shader caches are read but never written by pipeline/Loader.cpp, so they stay as the caller gives them.
- ResolveAllUniforms (`World.ResolveAllUniforms`) states the uniforms with line 149 corrected to store the cached `Image*`. As written, a texture name already in `m_images` gets its `UniformDef` as the value; `World.CachedTextureUniform` shows that case.
- ResolveEntry (`World.DataManager.ResolveEntry`) performs the loop body with line 149 corrected, as `ResolveAllUniforms` states it.
- ResolveUniforms (`World.DataManager.ResolveUniforms`) runs the uniform loop with line 149 corrected.
- LinkMaterial (`World.DataManager.LinkMaterial`) stores uniforms built with line 149 corrected.
- BuildMaterial (`World.DataManager.BuildMaterial`) stores uniforms built with line 149 corrected.
- LoadTexture (`World.DataManager.LoadTexture`) follows the corrected `PngLayout.DecodedLayout`. So a 16-bit grey PNG is stripped, and a palette PNG below 8 bits succeeds with 3 channels, where world/DataManager.cpp:260-263 throws. Its buffer size is `width * height * channels` without the 32-bit wrap-around of line 266; `PngLayout.BufferSizeAsWritten` is the size as written.
- RowsFlippedInBuffer (`PngLayout.RowsFlippedInBuffer`) states offsets computed without wrap-around. The `png_uint_32` offset of line 269 wraps modulo 2^32 (`PngLayout.RowOffsetAsWritten`), and agrees with the exact offset below 2^32 (`PngLayout.AsWrittenExactBelow2p32`).
- BufferHoldsEveryRow (`PngLayout.BufferHoldsEveryRow`) holds for the 64-bit arithmetic, not for the 32-bit arithmetic as written; `PngLayout.AsWrittenBufferWraps` is a conforming image for which the buffer as written is empty.
- RowPointers (`PngLayout.RowPointers`) stores offsets computed without the 32-bit wrap-around of line 269.
- `Pipeline.TargetsSetUpSpec` states the result only when the default and g-buffer targets differ. When they are the same target, `TargetsSetUp` gives it both lists one after the other, as the source's clear-then-push sequence does; no lemma states that case.
- `Pipeline.Pipeline.BuildRenderTarget` keeps the target's mipmap flag on whatever `mip` is, as written; only the texture's filter follows `mip`.
- The old root-level snapshot (Pipeline.cpp, Pipeline.hpp, DefinitionTypes.hpp, Texture.cpp, RenderTarget.cpp) duplicates logic modelled from pipeline/. The Python bindings, the entity components and the drawable dispatch are not part of this model.

## Findings

| source | as written | input that shows it | evidently intended | confidence | as-written member | corrected member |
|---|---|---|---|---|---|---|
| world/DataManager.cpp:149 | `u.value = i->second` stores the `UniformDef`, not the cached `Image*` | a material whose texture name another material already requested | `u.value = j->second`, the cached image, as the allocation branch stores its new image | high; not executed | World.CachedTextureUniform | World.ResolveAllTexturesCast |
| world/DataManager.cpp:246-258 | a grey image's depth is forced to 8 before the 16-bit test, so a 16-bit grey image is never stripped | a 4x4 16-bit grey PNG: rows 4 bytes apart, 8 bytes written per row | strip 16-bit samples for every colour type, and accept sub-8-bit palette images that `png_set_expand` widens | high; not executed | PngLayout.AsWrittenGray16Overflows | PngLayout.DecodedLayoutMatchesLibpng |
| world/DataManager.cpp:243-263 | a palette image keeps the file's bit depth, so a palette image below 8 bits is rejected although libpng expands it to 8-bit RGB | a 4x4 4-bit palette PNG | accept it with 3 channels at 8 bits | medium; not executed | PngLayout.AsWrittenRejectsLowDepthPalette | PngLayout.DecodedLayoutMatchesLibpng |
| world/DataManager.cpp:266-269 | `img->width*img->height*channels` and the row offset `q` are computed in 32-bit unsigned arithmetic, so both wrap modulo 2^32 | a 65536x65536 8-bit grey PNG: a 0-byte buffer, 65536 bytes written into each row | compute the size and the offsets in `size_t`, which the PNG limit of 2^31 - 1 on width and height keeps exact | high; not executed | PngLayout.AsWrittenBufferWraps | PngLayout.BufferHoldsEveryRow |
| pipeline/Drawbuffer.cpp:105-106 | the `UInt` case of `IndexedDrawBuffer::draw` has no `break` and falls into the throwing default | `setIndices(n, UInt)` then `draw` | draw with `GL_UNSIGNED_INT` | high; not executed | Drawbuffer.UIntIndicesNeverDrawAsWritten | Drawbuffer.IndexTablesAgree |
| pipeline/ogl/Pipeline.cpp:172-185 | `destroyRenderTarget` deletes four of the five textures `createRenderTarget` allocates; `matprop_id` is never deleted | create a target, then destroy it | delete all five textures | high; not executed | OglPipeline.DestroyAsWrittenLeaksMatprop | OglPipeline.ReleasingAllTexturesRestores |
| client/Client_x11_ogl.cpp:48 | an occurrence at the resume point `start` counts as starting a word, even when `start` follows a rejected occurrence rather than a space | list `"aa"`, name `"a"` | an occurrence starts a word at the start of the whole list or after a space | high; not executed | ExtensionSearch.AsWrittenAcceptsRunTogetherNames | ExtensionSearch.IsExtensionSupported |
| pipeline/Pipeline_x11.cpp:48 | the same word-start test as client/Client_x11_ogl.cpp:48 | list `"aa"`, name `"a"` | as above | high; not executed | ExtensionSearch.IsExtensionSupportedAsWritten | ExtensionSearch.IsExtensionSupported |
