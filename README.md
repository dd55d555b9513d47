# A verified model of a PyOpenGL scene renderer

This project models the deterministic core of a small PyOpenGL renderer in
Dafny: the two model classes that lay out vertex buffers and issue a frame's
draw calls, the light and material descriptors, the constant primitive
tables, and the scene that renders its objects one after another.

Every OpenGL call, and every call into the shader and texture loaders, is an
abstract command appended to a log held by a `Gl.Context` object. `Emit`
appends one command. `GenName` hands out the next unused object name. An
operation's contract states the exact commands it appends and the fields it
sets. Lemmas then prove properties of those command sequences:

- how many draws a render issues;
- which uniforms it writes and which it skips;
- which texture units it binds;
- the byte ranges each vertex pointer reads.

Modules, one per file:

- `Gl` (gl.dfy): the command log, vectors, symbolic matrices, and counting functions over the log. The file also holds `Wrappers` (`Option`, `Result`).
- `UniformNames` (names.dfy): uniform names as values and as the strings the program passes, for example `pointlights[3].linear`. It proves that different names give different strings.
- `Transforms` (transforms.dfy): the model-matrix chain of `translate`, `scale` and `rotate`.
- `Structures` (structures.dfy): `Material`, the three light kinds, their `set_uniforms`, and the enumeration loop over a light list.
- `ObjData` (obj.dfy): what the OBJ reader returns, grouping flat lists into vec3s and vec2s, and concatenating shape indices.
- `Figures` (figures.dfy): the `Square` and `Cube` tables and their invariants.
- `BufferLayout` (layout.dfy): attribute blocks in an array buffer, and the bytes a vertex pointer reads.
- `Renderable` (model.dfy): the `Model` class of `src/modules/model.py`.
- `LegacyModels` (models.dfy): `BaseModel`, `Figure` and `Model` of `src/modules/models.py`.
- `Scenes` (scene.dfy): `Scene`.

Exceptions on the core's paths are modelled as `Result` values. The scene
catches the render-time one: a legacy model whose index count was never set
fails after issuing its first calls, and the scene records the failure and
goes on. The construction-time ones, a reshape or grouping loop given a
length that does not divide, propagate to the caller; no scene holds the
object yet.

## Model

| member | source | states |
|---|---|---|
| UniformNames.DecimalRoundTrip | src/modules/structures.py:20 | the decimal text an f-string gives a list index reads back as that index |
| UniformNames.IndexedInjective | src/modules/structures.py:62 | two `array[index].field` strings over the same array name are equal only when index and field are equal |
| UniformNames.TextInjective | src/modules/structures.py:119-162 | two well-formed uniform names with the same string are the same name, so distinct slots never reach the same uniform |
| Structures.NewMaterial | src/modules/structures.py:166-178 | a material keeps name, ambient, diffuse and specular as given and stores shininess × 128 |
| Structures.NewDirLight | src/modules/structures.py:6-16 | a directional light stores direction, ambient, diffuse and specular exactly as given |
| Structures.NewPointLight | src/modules/structures.py:42-58 | a point light stores position, the three colours and the constant, linear and quadratic attenuation exactly as given |
| Structures.NewSpotLight | src/modules/structures.py:95-117 | both cutoffs are stored as cos(radians(angle)); every other argument is stored unchanged |
| Structures.LightDefaults | src/modules/structures.py:6-106 | default colours 0.2/0.8/1.0, point attenuation 1.0/0.35/0.45, spot attenuation 1.0/0.045/0.0075, and spot cutoffs of 35 and 45 degrees |
| Structures.Light.DirUniforms | src/modules/structures.py:18-38 | a directional light writes exactly direction, ambient, diffuse and specular under `dirlights[i]`, in that order |
| Structures.Light.PointUniforms | src/modules/structures.py:60-91 | a point light writes exactly its seven fields under `pointlights[i]`, in source order |
| Structures.Light.SpotUniforms | src/modules/structures.py:119-162 | a spot light writes exactly its ten fields under `spotlights[i]`, cutoffs last |
| Structures.Light.SetUniforms | src/modules/structures.py:18-162 | `set_uniforms` appends exactly the light kind's writes and issues no new name |
| Structures.Light.SetDirUniforms | src/modules/structures.py:18-38 | appends the four directional writes |
| Structures.Light.SetPointUniforms | src/modules/structures.py:60-91 | appends the seven point-light writes |
| Structures.Light.SetSpotUniforms | src/modules/structures.py:119-162 | appends the ten spot-light writes |
| Structures.UniformsDistinct | src/modules/structures.py:119-162 | one `set_uniforms` call writes only uniforms, each name once |
| Structures.UniformsDisjoint | src/modules/structures.py:20 | lights written under different indices never share a name, whatever their kinds |
| Structures.SetLightUniforms | src/modules/model.py:171-173 | the `enumerate` loop appends light 0's writes under index 0, then light 1's under index 1, and so on |
| Structures.EnumerateInOrder | src/modules/model.py:172-173 | light k's writes under index k follow the writes of lights 0..k-1 |
| Structures.EnumerateDistinct | src/modules/model.py:172-173 | enumerating a list writes only uniforms, and never the same name twice |
| Structures.EnumerateUnder | src/modules/model.py:172-173 | every name written lies in the writing light's array, at an index below the list length |
| Structures.EnumerateOnlyElements | src/modules/model.py:171-181 | light writes draw nothing, bind no texture, and never write a plain name such as `material.diffuse` |
| Transforms.ApplyIsProduct | src/modules/model.py:218-223 | `rotate` right-multiplies Rx, then Ry, then Rz; `translate` and `scale` each multiply one factor |
| Transforms.ChainIsProduct | src/modules/model.py:210-223 | any chain of calls leaves the start matrix right-multiplied by every factor, in call order |
| Transforms.ChainsCompose | src/modules/models.py:76-89 | running two chains one after the other equals running their concatenation |
| ObjData.ShapeIndices | src/modules/model.py:133 | one entry per corner of the shape: corner k's `vertex_index` |
| ObjData.VertexIndicesAppend | src/modules/model.py:133 | the indices of two shape lists concatenate |
| ObjData.VertexIndicesLength | src/modules/model.py:133 | the index list has one entry per corner of every shape |
| ObjData.VertexIndicesAt | src/modules/model.py:133 | shape k's indices sit right after those of shapes 0..k-1 |
| ObjData.Triples | src/modules/model.py:129 | `reshape(-1, 3)` succeeds iff the length is a multiple of 3; vec3 k is (v[3k], v[3k+1], v[3k+2]) and the count is len/3 |
| ObjData.Pairs | src/modules/model.py:131 | `reshape(-1, 2)` succeeds iff the length is even; vec2 k is (t[2k], t[2k+1]) |
| ObjData.TriplesRoundTrip | src/modules/model.py:129 | grouping the flattening of vec3s gives the vec3s back |
| ObjData.TriplesFlatten | src/modules/model.py:129 | flattening the grouping of a list gives the list back |
| ObjData.PairsRoundTrip | src/modules/model.py:131 | grouping the flattening of vec2s gives the vec2s back |
| ObjData.PairsFlatten | src/modules/model.py:131 | flattening the grouping of a list gives the list back |
| Figures.TilesWellFormed | src/modules/figures.py:61-70 | faces with four distinct in-range corners tile into in-range, non-degenerate triangles |
| Figures.SquareTable | src/modules/figures.py:12-43 | the square has 4 vertices, 4 normals and 4 texcoords, and 6 indices, all below 4, with no repeated vertex in a triangle |
| Figures.CubeIndicesAreFaces | src/modules/figures.py:61-71 | the cube's index table is six faces of two triangles each |
| Figures.CubeTable | src/modules/figures.py:46-71 | the cube has 8 vertices and 36 indices, all below 8, with no repeated vertex in a triangle |
| Figures.CubeAttributeCounts | src/modules/figures.py:73-141 | the cube has 24 normals and 24 texcoords against 8 vertices, so they are not one per vertex |
| Figures.CubeCorners | src/modules/figures.py:47-59 | every cube vertex coordinate is ±1 |
| Figures.CubeNormalsPerFace | src/modules/figures.py:73-106 | each face's outward normal is written four times, in face order |
| Figures.CubeFacesOnPlanes | src/modules/figures.py:61-68 | each of the six faces lies in the plane its normals point out of |
| BufferLayout.PackedDisjointInBounds | src/modules/model.py:44-60 | packed blocks are pairwise disjoint and lie inside a buffer of the total size |
| BufferLayout.ReadsInsideBlock | src/modules/model.py:48-59 | a block of `count` tightly packed elements is read inside itself for every element below `count` |
| Renderable.BufferSize | src/modules/model.py:38-44 | the allocation size is the layout's total size |
| Renderable.AttributesPacked | src/modules/model.py:38-60 | the blocks are packed from byte 0, and the buffer size is 12·vertices + 12·normals + 8·texcoords, an absent array counting 0 |
| Renderable.AttributesSlots | src/modules/model.py:48-60 | positions use slot 0 at offset 0 with stride 12; slot 1 exists iff normals are given and sits at `vertices_size`; slot 2 exists iff texcoords are given and sits at `vertices_size + normals_size` with 2 components |
| Renderable.AttributesReadOwnBlock | src/modules/model.py:48-60 | every pointer reads, for each element of its array, only bytes of that array's own block, never past the buffer |
| Renderable.AttributesReadPerVertex | src/modules/model.py:48-60 | when normals and texcoords are at least as many as positions, every pointer reads only its own block at every vertex a draw can reference |
| Renderable.ShortArraysOverrun | src/modules/model.py:129-131 | with 3 positions, 1 normal and 1 texcoord the buffer is 56 bytes, but the texcoord pointer reads vertex 2 up to byte 72 |
| Renderable.UploadsAt | src/modules/model.py:48-60 | attribute k is written at its offset and size, then pointed at, then enabled |
| Renderable.GenerateNames | src/modules/model.py:25-33 | the vertex array, two buffers and then the shader program get four fresh names, in that order |
| Renderable.AllocateArrayBuffer | src/modules/model.py:42-46 | binds the vertex array and array buffer and allocates the buffer unfilled |
| Renderable.UploadArrays | src/modules/model.py:48-60 | appends the uploads of exactly the layout's blocks |
| Renderable.UploadIndices | src/modules/model.py:62-65 | fills the element buffer with the indices themselves, 4 bytes each, and unbinds the vertex array |
| Renderable.LoadTextureIf | src/modules/model.py:73-77 | a texture is loaded iff it is enabled and a filename is given; a loaded texture takes the next fresh name, and otherwise no name is issued |
| Renderable.Model.constructor | src/modules/model.py:15-79 | four fresh names; the counts; an identity matrix; the setup commands for `Attributes(...)` with the given indices in the element buffer; each texture loaded iff texcoords and its filename are given, under the next fresh names, diffuse first |
| Renderable.FromFigure | src/modules/model.py:81-99 | a figure gives positions only: no normal or texcoord block, the figure's own indices in the element buffer, never a texture, so exactly four names |
| Renderable.FromModel | src/modules/model.py:101-144 | succeeds iff all three reshapes do, and then gives vertices/3 positions, all three blocks, the element buffer holding the shapes' indices concatenated in shape order, textures iff named, and four names plus one per texture; on failure no call is issued and no name taken |
| Renderable.EmitLights | src/modules/model.py:171-181 | a None collection writes nothing; otherwise it writes the enumeration |
| Renderable.EmitPreamble | src/modules/model.py:164-181 | program, resolution, time and viewPos, then dir, point and spot lights |
| Renderable.EmitMaterial | src/modules/model.py:183-188 | the material channels, skipping those a texture supplies |
| Renderable.EmitMatrices | src/modules/model.py:190-192 | projection, view and model matrices |
| Renderable.EmitTextureBinds | src/modules/model.py:194-199 | unit 0 with the diffuse texture and unit 1 with the specular texture, each when present |
| Renderable.EmitDraw | src/modules/model.py:201-207 | binds, one indexed draw, then the unbinds |
| Renderable.Model.Render | src/modules/model.py:146-208 | appends exactly `RenderCommands` of the model's state; returns the model; changes no field and issues no name |
| Renderable.PreambleQuiet | src/modules/model.py:164-181 | before the material nothing is drawn, no texture is bound, and no plain name other than the frame's is written |
| Renderable.RenderDrawsOnce | src/modules/model.py:201-207 | a render issues exactly one draw, with the model's index count, followed only by the three unbinds; it starts by selecting the program |
| Renderable.RenderTextureUnits | src/modules/model.py:194-199 | the only texture commands are unit 0 with the diffuse texture, then unit 1 with the specular texture, each iff present |
| Renderable.RenderMaterialChannels | src/modules/model.py:183-188 | ambient and shininess are always written; diffuse iff there is no diffuse texture; specular iff there is no specular texture |
| Renderable.Model.Translate | src/modules/model.py:210-212 | the matrix becomes old · T(pos), nothing else changes, and it returns self |
| Renderable.Model.Scale | src/modules/model.py:214-216 | the matrix becomes old · S(scalers), nothing else changes, and it returns self |
| Renderable.Model.Rotate | src/modules/model.py:218-223 | the matrix becomes old · Rx · Ry · Rz, nothing else changes, and it returns self |
| LegacyModels.BaseModel.constructor | src/modules/models.py:12-31 | the shader program is loaded before the three names are generated; identity matrix; the material's channels copied; no counts yet |
| LegacyModels.BaseModel.SetUpFigure | src/modules/models.py:99-123 | sets both counts; one filled buffer of the positions; pointers at 0, 12 and 24; the figure's indices uploaded to the element buffer |
| LegacyModels.BaseModel.SetUpObj | src/modules/models.py:183-206 | sets both counts; allocates positions plus normals and writes each; pointers at 0, `vertices.nbytes` and 24; the given indices uploaded to the element buffer |
| LegacyModels.EmitLegacyPointers | src/modules/models.py:111-118 | slots 0, 1, 2 with strides 12, 12, 8, each enabled |
| LegacyModels.EmitLegacyIndices | src/modules/models.py:120-123 | fills the element buffer with the indices, 4 bytes each, and unbinds the vertex array |
| LegacyModels.EmitLegacyUniforms | src/modules/models.py:54-65 | the fixed light, the bare-named material and the three matrices, in order |
| LegacyModels.EmitLegacyPrefix | src/modules/models.py:50-68 | program, uniforms, then the vertex-array and element-buffer binds |
| LegacyModels.BaseModel.Render | src/modules/models.py:33-74 | fails iff no index count was set, after issuing the calls up to the element-buffer bind; otherwise draws and unbinds and returns self |
| LegacyModels.LegacyPrefixQuiet | src/modules/models.py:41-68 | lightPos 0.5 and lightColor 1.0 whatever the caller passes; only plain names; no draw or texture before the draw |
| LegacyModels.LegacyRenderDrawsOnce | src/modules/models.py:50-73 | with an index count: exactly one draw, with that count, after every uniform, and no texture command |
| LegacyModels.BaseModel.Translate | src/modules/models.py:76-78 | the matrix becomes old · T(pos); returns self |
| LegacyModels.BaseModel.Scale | src/modules/models.py:80-82 | the matrix becomes old · S(scalers); returns self |
| LegacyModels.BaseModel.Rotate | src/modules/models.py:84-89 | the matrix becomes old · Rx · Ry · Rz; returns self |
| LegacyModels.GroupTriples | src/modules/models.py:153-165 | the `range(0, len, 3)` loop gives exactly the reshape grouping, failing iff the length is not a multiple of 3 |
| LegacyModels.GroupPairs | src/modules/models.py:167-171 | the `range(0, len, 2)` loop gives exactly the pair grouping, failing iff the length is odd |
| LegacyModels.CollectIndices | src/modules/models.py:177-181 | the nested loop collects every shape's position indices, in shape order |
| LegacyModels.NewFigure | src/modules/models.py:91-123 | base setup, then the figure layout with the figure's indices; counts set from the primitive; four names |
| LegacyModels.NewObjModel | src/modules/models.py:125-206 | fails iff a grouping loop fails, leaving only the base setup's calls; otherwise base setup, then the OBJ layout with the shapes' indices in shape order, with counts set; four names either way |
| LegacyModels.FigureNormalsOverrun | src/modules/models.py:114 | for every figure, the normal pointer reads past the end of the buffer for the last vertex |
| LegacyModels.SquareNormalsOverrun | src/modules/models.py:114 | for the square, vertex 3's normal is read from bytes 48..60 of a 48-byte buffer |
| LegacyModels.FigureTexcoordsOverrun | src/modules/models.py:117 | the figure's texcoord pointer at byte 24, stride 8, reads the last vertex up to byte 8·n+24, past the 12·n-byte buffer exactly when n < 6 |
| LegacyModels.SquareTexcoordsOverrun | src/modules/models.py:117 | for the square, vertex 3's texcoord is read from bytes 48..56 of a 48-byte buffer |
| LegacyModels.ObjTexcoordsReadPositions | src/modules/models.py:200 | the texcoord pointer reads vertex 0's texcoord from inside the positions, and no upload writes texcoords |
| Scenes.Scene.constructor | src/modules/scene.py:5-14 | no objects and no light sources, black background, the given aspect, a 90° perspective with planes 0.01 and 100, camera at (0,0,2) looking at the origin |
| Scenes.RenderObject | src/modules/scene.py:18-26 | one object renders with the scene's matrices; `ok` is false exactly when that render fails |
| Scenes.Scene.Render | src/modules/scene.py:16-26 | every object renders once, in list order; a failed render keeps its calls and the loop continues; the failures returned are exactly the failing positions; nothing but the log changes; no objects means no commands |
| Scenes.ObjectDraws | src/modules/scene.py:19-23 | one object's render draws once, or not at all when it fails |
| Scenes.SceneDrawCount | src/modules/scene.py:17-26 | draws plus failures equal the number of objects |
| Scenes.FailuresExact | src/modules/scene.py:24-26 | the reported positions are exactly the failing objects, in increasing order |
| Scenes.Scene.SetLight | src/modules/scene.py:28-31 | appends the object iff one is given; otherwise the list is unchanged |

## Left out

- `load_shaders` and `load_texture` are modelled as one logged command each, returning a fresh name. Their file reading, compilation, image decoding and failure modes are not part of this model.
- OBJ parsing by tinyobjloader is not modelled. The model starts from the arrays the reader returns. A failed `ParseFromFile` only prints in the source, so the model takes the reader's arrays as they are.
- Printing is left out: `print` in `__init__` and `from_model`, and the scene's error report. The scene's report is modelled as the list of failing positions `Scene.Render` returns.
- `glGetUniformLocation` is folded into the `Uniform` command, which carries the name. Location lookup, and the -1 location of a uniform the shader lacks, are not modelled.
- What GL does with the calls is not modelled: only their order and arguments are. Object names come out of `GenName` as consecutive integers. A driver may return any unused names.
- Single-precision floats are modelled as reals. `glm.radians`, cosines and the matrices behind rotation, perspective and lookAt stay symbolic, so matrix equalities are proved term by term.
- The default material `white_rubber` cannot be built: materials.py passes eight arguments to a five-parameter `Material`. Every constructor here therefore takes the material as a required argument.
- Renderable.Model.Render: a `resolution` of None is logged as a write of `ResolutionValue(None)`. Whether PyOpenGL raises on it is outside this model, so the render is taken to succeed.
- Scenes.Scene.Render: keyword arguments are the fields of `RenderArgs`. A caller passing `projection_matrix` or `view_matrix` makes Python raise a duplicate-keyword error inside the `try`, and that path is not modelled.
- The only render failure modelled is the legacy `BaseModel` without an index count. GL errors and loader exceptions are not modelled.
- Scenes.Scene.constructor: window.py later overwrites `aspect` without recomputing the projection. window.py is not part of this model.
- `light_sources`, `background_color` and `background_texture` are stored by the scene and never read, and no operation here reads them.
- LegacyModels.NewObjModel: `np.array` of a list of `glm.vec3` is taken to be float32, 12 bytes per vector, as in the Figure path.
- Renderable.AttributesReadPerVertex: in-bounds reads are promised only when normals and texcoords are at least as many as positions. model.py:129-131 does not compare the lengths, and OBJ files index normals and texcoords separately, so shorter arrays occur; Renderable.ShortArraysOverrun exhibits such an overrun. De-indexing the OBJ attributes is not modelled.
- Index values are not range-checked against the vertex count, as in the source, and the 32-bit widths of names and indices are not modelled.
- src/main.py, window.py, funcs.py, light.py, config.py and materials.py are not part of this model.

## Findings

| source | as written | input that shows it | evidently intended | confidence | as-written member | corrected member |
|---|---|---|---|---|---|---|
| src/modules/models.py:114 | the figure's normal pointer reads 12 bytes per vertex from byte 12 of a buffer holding only the 12·n bytes of positions | the square: 48-byte buffer, vertex 3's normal is read from bytes 48..60 | normals uploaded to their own block and pointed at it, as model.py:52-55 does, so that every read at every vertex stays inside its block when there are as many normals as positions | not executed | LegacyModels.FigureNormalsOverrun | Renderable.AttributesReadPerVertex |
| src/modules/models.py:117 | the figure's texcoord pointer reads 8 bytes per vertex from byte 24 of a buffer holding only the 12·n bytes of positions | the square: 48-byte buffer, vertex 3's texcoord is read from bytes 48..56 | texcoords uploaded to their own block and pointed at it, as model.py:57-60 does, so that every read at every vertex stays inside its block when there are as many texcoords as positions | not executed | LegacyModels.FigureTexcoordsOverrun | Renderable.AttributesReadPerVertex |
| src/modules/models.py:200 | the texcoord pointer starts at byte 24, stride 8, but no texcoords are uploaded, so it reads the positions | any OBJ with at least 3 vertices: vertex 0's texcoord is bytes 24..32, the third position's x and y | texcoords uploaded after the normals and pointed there, as model.py:57-60 does, so that every read stays inside the texcoord block when there are as many texcoords as positions | not executed | LegacyModels.ObjTexcoordsReadPositions | Renderable.AttributesReadPerVertex |
