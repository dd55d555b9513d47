/**
 * The current renderable object (src/modules/model.py): its construction,
 * which lays out one array buffer holding positions, then normals, then
 * texture coordinates, and loads textures only when texture coordinates
 * exist; its per-frame `render`, which writes the frame, light, material
 * and matrix uniforms, binds textures and issues one indexed draw; and the
 * `translate` / `scale` / `rotate` chain on its model matrix.
 */
module Renderable {
  import opened Wrappers
  import opened Gl
  import opened UniformNames
  import opened Structures
  import opened Transforms
  import opened BufferLayout
  import opened ObjData
  import opened Figures

  /** The keyword arguments a frame hands to every object's `render`, with their defaults. */
  datatype RenderArgs = RenderArgs(
    viewPosition: Vec3 := Splat(0.0),
    resolution: Option<Size> := None,
    time: real := 0.0,
    animationMode: bool := false,
    lightColor: Vec3 := Splat(0.5),
    dirLights: Option<seq<Light>> := None,
    pointLights: Option<seq<Light>> := None,
    spotLights: Option<seq<Light>> := None)

  /** The length of an optional array; None when the array is absent. */
  function Count<T>(xs: Option<seq<T>>): (r: Option<nat>)
    ensures r.Some? <==> xs.Some?
    ensures r.Some? ==> r.value == |xs.value|
  {
    match xs
    case None => None
    case Some(s) => Some(|s|)
  }

  /**
   * The attributes `__init__` lays out for `vertexCount` positions and,
   * when present, `normalCount` normals and `texcoordCount` texture
   * coordinates (float32 arrays: 12 bytes a vec3, 8 bytes a vec2).
   */
  function Attributes(vertexCount: nat, normalCount: Option<nat>, texcoordCount: Option<nat>): seq<Attribute> {
    var verticesSize := 3 * SizeOfFloat * vertexCount;
    var normalsSize := if normalCount.Some? then 3 * SizeOfFloat * normalCount.value else 0;
    [Attribute(0, 3, 0, verticesSize)]
    + (if normalCount.Some? then [Attribute(1, 3, verticesSize, normalsSize)] else [])
    + (if texcoordCount.Some? then [Attribute(2, 2, verticesSize + normalsSize, 2 * SizeOfFloat * texcoordCount.value)] else [])
  }

  /** Number of elements of the array read through `slot`. */
  function ElementCount(slot: nat, vertexCount: nat, normalCount: Option<nat>, texcoordCount: Option<nat>): nat {
    if slot == 0 then vertexCount
    else if slot == 1 then (if normalCount.Some? then normalCount.value else 0)
    else if texcoordCount.Some? then texcoordCount.value else 0
  }

  /** The normals block, present exactly when normals are. */
  function NormalsBlock(v: nat, n: Option<nat>): seq<Attribute> {
    if n.Some? then [Attribute(1, 3, 12 * v, 12 * n.value)] else []
  }

  /** The texture-coordinate block, present exactly when texture coordinates are. */
  function TexcoordsBlock(v: nat, n: Option<nat>, t: Option<nat>): seq<Attribute> {
    if t.Some? then [Attribute(2, 2, 12 * v + (if n.Some? then 12 * n.value else 0), 8 * t.value)] else []
  }

  lemma AttributesBlocks(v: nat, n: Option<nat>, t: Option<nat>)
    ensures Attributes(v, n, t) == [Attribute(0, 3, 0, 12 * v)] + NormalsBlock(v, n) + TexcoordsBlock(v, n, t)
  {
  }

  /**
   * The array buffer's size is the sum of the three arrays' byte sizes
   * (an absent array counts 0), and its blocks are packed end to end from
   * byte 0, so they are disjoint and inside the buffer.
   */
  lemma AttributesPacked(v: nat, n: Option<nat>, t: Option<nat>)
    ensures Packed(Attributes(v, n, t))
    ensures TotalSize(Attributes(v, n, t)) == 12 * v + (if n.Some? then 12 * n.value else 0) + (if t.Some? then 8 * t.value else 0)
  {
    var attrs := Attributes(v, n, t);
    var a0 := Attribute(0, 3, 0, 12 * v);
    if n.Some? && t.Some? {
      var a1 := Attribute(1, 3, 12 * v, 12 * n.value);
      var a2 := Attribute(2, 2, 12 * v + 12 * n.value, 8 * t.value);
      assert attrs == [a0, a1, a2];
      PackedThree(a0, a1, a2);
    } else if n.Some? {
      var a1 := Attribute(1, 3, 12 * v, 12 * n.value);
      assert attrs == [a0, a1];
      PackedTwo(a0, a1);
    } else if t.Some? {
      var a2 := Attribute(2, 2, 12 * v, 8 * t.value);
      assert attrs == [a0, a2];
      PackedTwo(a0, a2);
    } else {
      assert attrs == [a0];
      PackedOne(a0);
    }
  }

  /**
   * Positions sit at offset 0 in slot 0 as 3 floats with stride 12;
   * normals, exactly when given, right after the positions in slot 1;
   * texture coordinates, exactly when given, after the normals in slot 2 as
   * 2 floats.
   */
  lemma AttributesSlots(v: nat, n: Option<nat>, t: Option<nat>)
    ensures var attrs := Attributes(v, n, t);
      && attrs[0] == Attribute(0, 3, 0, 12 * v) && attrs[0].Stride() == 12
      && ((exists k :: 0 <= k < |attrs| && attrs[k].slot == 1) <==> n.Some?)
      && ((exists k :: 0 <= k < |attrs| && attrs[k].slot == 2) <==> t.Some?)
      && (forall k :: 0 <= k < |attrs| && attrs[k].slot == 1 ==> attrs[k] == Attribute(1, 3, 12 * v, 12 * n.value))
      && (forall k :: 0 <= k < |attrs| && attrs[k].slot == 2 ==>
            attrs[k] == Attribute(2, 2, 12 * v + (if n.Some? then 12 * n.value else 0), 8 * t.value))
  {
    AttributesBlocks(v, n, t);
    var attrs := Attributes(v, n, t);
    var mid, last := NormalsBlock(v, n), TexcoordsBlock(v, n, t);
    if n.Some? {
      assert attrs[1] == mid[0];
    }
    if t.Some? {
      assert attrs[|attrs| - 1] == last[0];
    }
  }

  /**
   * Every pointer of the layout reads, for each element its array holds,
   * only bytes of the block that array was written to, and so never past
   * the end of the buffer.
   */
  lemma AttributesReadOwnBlock(v: nat, n: Option<nat>, t: Option<nat>, k: nat, e: nat)
    requires k < |Attributes(v, n, t)|
    requires e < ElementCount(Attributes(v, n, t)[k].slot, v, n, t)
    ensures Attributes(v, n, t)[k].offset <= ReadStart(Attributes(v, n, t)[k].Pointer(), e)
    ensures ReadEnd(Attributes(v, n, t)[k].Pointer(), e) <= Attributes(v, n, t)[k].End()
    ensures Attributes(v, n, t)[k].End() <= TotalSize(Attributes(v, n, t))
  {
    var attrs := Attributes(v, n, t);
    var a := attrs[k];
    assert a.End() <= TotalSize(attrs) by {
      AttributesPacked(v, n, t);
      PackedDisjointInBounds(attrs);
    }
    var count := ElementCount(a.slot, v, n, t);
    assert a.size == count * a.Stride() by {
      AttributesBlocks(v, n, t);
      var mid, last := NormalsBlock(v, n), TexcoordsBlock(v, n, t);
      if k == 0 {
        assert a == Attribute(0, 3, 0, 12 * v);
      } else if k == 1 && n.Some? {
        assert a == mid[0];
      } else {
        assert t.Some? && a == last[0];
      }
    }
    ReadsInsideBlock(a, count, e);
  }

  /**
   * GL reads every enabled attribute at every vertex a draw references.
   * When normals and texture coordinates are at least as many as the
   * positions, every pointer reads, at every vertex, only bytes of its own
   * block, and so never past the end of the buffer.
   */
  lemma AttributesReadPerVertex(v: nat, n: Option<nat>, t: Option<nat>, k: nat, vertex: nat)
    requires n.Some? ==> n.value >= v
    requires t.Some? ==> t.value >= v
    requires k < |Attributes(v, n, t)| && vertex < v
    ensures Attributes(v, n, t)[k].offset <= ReadStart(Attributes(v, n, t)[k].Pointer(), vertex)
    ensures ReadEnd(Attributes(v, n, t)[k].Pointer(), vertex) <= Attributes(v, n, t)[k].End()
    ensures Attributes(v, n, t)[k].End() <= TotalSize(Attributes(v, n, t))
  {
    var attrs := Attributes(v, n, t);
    assert v <= ElementCount(attrs[k].slot, v, n, t) by {
      AttributesSlots(v, n, t);
    }
    AttributesReadOwnBlock(v, n, t, k, vertex);
  }

  /**
   * Nothing checks the array lengths against each other: three positions
   * with one normal and one texture coordinate give a 56-byte buffer, and
   * the texture-coordinate pointer reads vertex 2 up to byte 72.
   */
  lemma ShortArraysOverrun()
    ensures var attrs := Attributes(3, Some(1), Some(1));
      && |attrs| == 3 && TotalSize(attrs) == 56
      && attrs[2].slot == 2 && ReadEnd(attrs[2].Pointer(), 2) == 72
  {
    AttributesPacked(3, Some(1), Some(1));
  }

  /** glBufferSubData, glVertexAttribPointer and glEnableVertexAttribArray for each attribute in turn. */
  function Uploads(attrs: seq<Attribute>): seq<Command>
    decreases |attrs|
  {
    if attrs == [] then []
    else
      [BufferSubData(ArrayBuffer, attrs[0].offset, attrs[0].size), attrs[0].Pointer(), EnableAttrib(attrs[0].slot)]
      + Uploads(attrs[1..])
  }

  /**
   * Attribute k is uploaded by commands 3k, 3k+1 and 3k+2: its block is
   * written at its offset with its size, its pointer set up, its slot enabled.
   */
  lemma {:induction false} UploadsAt(attrs: seq<Attribute>)
    ensures |Uploads(attrs)| == 3 * |attrs|
    ensures forall k :: 0 <= k < |attrs| ==>
      Uploads(attrs)[3 * k] == BufferSubData(ArrayBuffer, attrs[k].offset, attrs[k].size) &&
      Uploads(attrs)[3 * k + 1] == attrs[k].Pointer() && Uploads(attrs)[3 * k + 2] == EnableAttrib(attrs[k].slot)
    decreases |attrs|
  {
    if attrs != [] {
      var cs := Uploads(attrs);
      UploadsAt(attrs[1..]);
      forall k | 0 < k < |attrs|
        ensures cs[3 * k] == BufferSubData(ArrayBuffer, attrs[k].offset, attrs[k].size) &&
          cs[3 * k + 1] == attrs[k].Pointer() && cs[3 * k + 2] == EnableAttrib(attrs[k].slot)
      {
        assert attrs[1..][k - 1] == attrs[k];
        assert 3 * k == 3 + 3 * (k - 1);
      }
    }
  }

  /** The three generated names and the shader program, in the order `__init__` obtains them. */
  function Generated(vao: Handle, vbo: Handle, ebo: Handle, program: Handle,
                     vertexShader: string, fragmentShader: string): seq<Command> {
    [GenVertexArray(vao), GenBuffer(vbo), GenBuffer(ebo), LoadShaders(program, vertexShader, fragmentShader)]
  }

  /** The array buffer bound under the vertex array and allocated, unfilled, at `size` bytes. */
  function Allocation(vao: Handle, vbo: Handle, size: nat): seq<Command> {
    [BindVertexArray(vao), BindBuffer(ArrayBuffer, vbo), BufferData(ArrayBuffer, size, false)]
  }

  /** The element buffer filled with the indices, 4 bytes each, then the vertex array unbound. */
  function IndexUpload(ebo: Handle, indices: seq<nat>): seq<Command> {
    [BindBuffer(ElementArrayBuffer, ebo), BufferIndices(SizeOfUint * |indices|, indices), BindVertexArray(0)]
  }

  /** Everything `__init__` issues up to and including the final vertex-array unbind. */
  function SetupCommands(vao: Handle, vbo: Handle, ebo: Handle, program: Handle,
                         vertexShader: string, fragmentShader: string,
                         attrs: seq<Attribute>, indices: seq<nat>): seq<Command>
  {
    Generated(vao, vbo, ebo, program, vertexShader, fragmentShader)
    + Allocation(vao, vbo, TotalSize(attrs))
    + Uploads(attrs)
    + IndexUpload(ebo, indices)
  }

  /** How many names loading a texture took: one when it was loaded. */
  function Loaded(texture: Option<Handle>): nat {
    if texture.Some? then 1 else 0
  }

  /** The loader call for one texture, when it was loaded. */
  function TextureLoad(texture: Option<Handle>, filename: Option<string>): seq<Command> {
    if texture.Some? && filename.Some? then [LoadTexture(texture.value, filename.value)] else []
  }

  /** What `render` reads of a model. */
  datatype ModelState = ModelState(program: Handle, vao: Handle, ebo: Handle, indexCount: nat,
                                   modelMatrix: Mat4, material: Material,
                                   diffuseTexture: Option<Handle>, specularTexture: Option<Handle>)

  /** resolution, time and viewPos, as passed in. */
  function FrameUniforms(program: Handle, args: RenderArgs): seq<Command> {
    [Uniform(program, Named("resolution"), ResolutionValue(args.resolution)),
     Uniform(program, Named("time"), FloatValue(args.time)),
     Uniform(program, Named("viewPos"), Vec3Value(args.viewPosition))]
  }

  /** One light collection: nothing when it is None, else every light under its list index. */
  function LightUniforms(lights: Option<seq<Light>>, program: Handle): seq<Command> {
    if lights.None? then [] else Enumerate(lights.value, program)
  }

  /** The material channels; a channel a texture supplies is not written. */
  function MaterialUniforms(s: ModelState): seq<Command> {
    [Uniform(s.program, Named("material.ambient"), Vec3Value(s.material.ambient))]
    + (if s.diffuseTexture.None? then [Uniform(s.program, Named("material.diffuse"), Vec3Value(s.material.diffuse))] else [])
    + (if s.specularTexture.None? then [Uniform(s.program, Named("material.specular"), Vec3Value(s.material.specular))] else [])
    + [Uniform(s.program, Named("material.shininess"), FloatValue(s.material.shininess))]
  }

  function MatrixUniforms(program: Handle, projection: Mat4, view: Mat4, model: Mat4): seq<Command> {
    [Uniform(program, Named("projection"), MatrixValue(projection)),
     Uniform(program, Named("view"), MatrixValue(view)),
     Uniform(program, Named("model"), MatrixValue(model))]
  }

  /** The diffuse texture on unit 0 and the specular texture on unit 1, each when present. */
  function TextureBinds(s: ModelState): seq<Command> {
    (if s.diffuseTexture.Some? then [ActiveTexture(0), BindTexture(s.diffuseTexture.value)] else [])
    + (if s.specularTexture.Some? then [ActiveTexture(1), BindTexture(s.specularTexture.value)] else [])
  }

  /** The indexed draw and the unbinds after it. */
  function DrawAndUnbind(s: ModelState): seq<Command> {
    [BindVertexArray(s.vao), BindBuffer(ElementArrayBuffer, s.ebo), DrawElements(s.indexCount),
     BindBuffer(ElementArrayBuffer, 0), BindVertexArray(0), UseProgram(0)]
  }

  /** The program selection, the frame uniforms and the three light collections. */
  function Preamble(program: Handle, args: RenderArgs): seq<Command> {
    [UseProgram(program)]
    + FrameUniforms(program, args)
    + LightUniforms(args.dirLights, program)
    + LightUniforms(args.pointLights, program)
    + LightUniforms(args.spotLights, program)
  }

  /** Everything one `render` call issues, in order. */
  function RenderCommands(s: ModelState, projection: Mat4, view: Mat4, args: RenderArgs): seq<Command> {
    Preamble(s.program, args)
    + MaterialUniforms(s)
    + MatrixUniforms(s.program, projection, view, s.modelMatrix)
    + TextureBinds(s)
    + DrawAndUnbind(s)
  }

  lemma QuietAppend(a: seq<Command>, b: seq<Command>)
    requires Quiet(a) && Quiet(b)
    ensures Quiet(a + b)
  {
  }

  /** A light collection issues only uniform writes into light arrays. */
  lemma LightUniformsQuiet(lights: Option<seq<Light>>, program: Handle, name: string)
    ensures Quiet(LightUniforms(lights, program))
    ensures !WritesUniform(LightUniforms(lights, program), Named(name))
  {
    if lights.Some? {
      EnumerateOnlyElements(lights.value, program, name);
    }
  }

  /** Before the material, a render draws nothing, binds no texture and writes no plain name but the frame's. */
  lemma PreambleQuiet(program: Handle, args: RenderArgs, name: string)
    requires name != "resolution" && name != "time" && name != "viewPos"
    ensures Quiet(Preamble(program, args))
    ensures !WritesUniform(Preamble(program, args), Named(name))
  {
    var a := [UseProgram(program)] + FrameUniforms(program, args);
    var d, q, r := LightUniforms(args.dirLights, program), LightUniforms(args.pointLights, program), LightUniforms(args.spotLights, program);
    LightUniformsQuiet(args.dirLights, program, name);
    LightUniformsQuiet(args.pointLights, program, name);
    LightUniformsQuiet(args.spotLights, program, name);
    assert Quiet(a) && !WritesUniform(a, Named(name));
    QuietAppend(a, d);
    QuietAppend(a + d, q);
    QuietAppend(a + d + q, r);
    WritesUniformAppend(a, d, Named(name));
    WritesUniformAppend(a + d, q, Named(name));
    WritesUniformAppend(a + d + q, r, Named(name));
  }

  /** The uniforms up to and including the matrices: quiet, like the preamble. */
  lemma UniformsQuiet(s: ModelState, projection: Mat4, view: Mat4, args: RenderArgs)
    ensures Quiet(Preamble(s.program, args) + MaterialUniforms(s) + MatrixUniforms(s.program, projection, view, s.modelMatrix))
  {
    var pre := Preamble(s.program, args);
    var m := MaterialUniforms(s);
    PreambleQuiet(s.program, args, "model");
    assert Quiet(m);
    QuietAppend(pre, m);
    QuietAppend(pre + m, MatrixUniforms(s.program, projection, view, s.modelMatrix));
  }

  /** The tail of a render holds its one draw and no texture command. */
  lemma DrawAndUnbindCounts(s: ModelState)
    ensures DrawCount(DrawAndUnbind(s)) == 1 && TextureCommands(DrawAndUnbind(s)) == []
  {
    var before := [BindVertexArray(s.vao), BindBuffer(ElementArrayBuffer, s.ebo)];
    var draw := [DrawElements(s.indexCount)];
    var after := [BindBuffer(ElementArrayBuffer, 0), BindVertexArray(0), UseProgram(0)];
    assert DrawAndUnbind(s) == before + draw + after;
    QuietCounts(before);
    QuietCounts(after);
    assert draw[1..] == [];
    DrawCountAppend(before, draw);
    DrawCountAppend(before + draw, after);
    TextureCommandsAppend(before, draw);
    TextureCommandsAppend(before + draw, after);
  }

  /** The texture bindings are texture commands only. */
  lemma TextureBindsOnly(s: ModelState)
    ensures DrawCount(TextureBinds(s)) == 0 && TextureCommands(TextureBinds(s)) == TextureBinds(s)
  {
    TextureOnly(TextureBinds(s));
  }

  /**
   * A render issues exactly one draw, glDrawElements with the model's index
   * count, followed only by the element-buffer, vertex-array and program
   * unbinds; it starts by selecting the model's program.
   */
  lemma RenderDrawsOnce(s: ModelState, projection: Mat4, view: Mat4, args: RenderArgs)
    ensures var cs := RenderCommands(s, projection, view, args);
      && DrawCount(cs) == 1
      && cs[0] == UseProgram(s.program)
      && |cs| >= 4 && cs[|cs| - 4] == DrawElements(s.indexCount)
      && cs[|cs| - 3..] == [BindBuffer(ElementArrayBuffer, 0), BindVertexArray(0), UseProgram(0)]
  {
    var u := Preamble(s.program, args) + MaterialUniforms(s) + MatrixUniforms(s.program, projection, view, s.modelMatrix);
    var t := TextureBinds(s);
    var d := DrawAndUnbind(s);
    UniformsQuiet(s, projection, view, args);
    QuietCounts(u);
    TextureBindsOnly(s);
    DrawAndUnbindCounts(s);
    DrawCountAppend(u, t);
    DrawCountAppend(u + t, d);
    var cs := u + t + d;
    assert cs[|cs| - 4] == d[2];
    assert cs[|cs| - 3..] == d[3..];
  }

  /**
   * Texture units: the only unit selections and bindings a render makes are
   * unit 0 with the diffuse texture, then unit 1 with the specular texture,
   * each exactly when that texture is present.
   */
  lemma RenderTextureUnits(s: ModelState, projection: Mat4, view: Mat4, args: RenderArgs)
    ensures TextureCommands(RenderCommands(s, projection, view, args)) ==
      (if s.diffuseTexture.Some? then [ActiveTexture(0), BindTexture(s.diffuseTexture.value)] else [])
      + (if s.specularTexture.Some? then [ActiveTexture(1), BindTexture(s.specularTexture.value)] else [])
  {
    var u := Preamble(s.program, args) + MaterialUniforms(s) + MatrixUniforms(s.program, projection, view, s.modelMatrix);
    var t := TextureBinds(s);
    var d := DrawAndUnbind(s);
    UniformsQuiet(s, projection, view, args);
    QuietCounts(u);
    TextureBindsOnly(s);
    DrawAndUnbindCounts(s);
    TextureCommandsAppend(u, t);
    TextureCommandsAppend(u + t, d);
  }

  lemma MaterialChannels(s: ModelState)
    ensures WritesUniform(MaterialUniforms(s), Named("material.ambient"))
    ensures WritesUniform(MaterialUniforms(s), Named("material.shininess"))
    ensures WritesUniform(MaterialUniforms(s), Named("material.diffuse")) <==> s.diffuseTexture.None?
    ensures WritesUniform(MaterialUniforms(s), Named("material.specular")) <==> s.specularTexture.None?
  {
    var m := MaterialUniforms(s);
    assert m[0].name == Named("material.ambient");
    assert m[|m| - 1].name == Named("material.shininess");
    if s.diffuseTexture.None? {
      assert m[1].name == Named("material.diffuse");
    }
    if s.specularTexture.None? {
      assert m[|m| - 2].name == Named("material.specular");
    }
  }

  /** Nothing after the material writes a material channel. */
  lemma AfterMaterialSilent(s: ModelState, projection: Mat4, view: Mat4, name: string)
    requires name != "projection" && name != "view" && name != "model"
    ensures !WritesUniform(MatrixUniforms(s.program, projection, view, s.modelMatrix) + TextureBinds(s) + DrawAndUnbind(s), Named(name))
  {
  }

  lemma ChannelOnlyInMaterial(s: ModelState, projection: Mat4, view: Mat4, args: RenderArgs, name: string)
    requires name in ["material.ambient", "material.shininess", "material.diffuse", "material.specular"]
    ensures WritesUniform(RenderCommands(s, projection, view, args), Named(name)) <==> WritesUniform(MaterialUniforms(s), Named(name))
  {
    var pre := Preamble(s.program, args);
    var m := MaterialUniforms(s);
    var x := MatrixUniforms(s.program, projection, view, s.modelMatrix);
    var t := TextureBinds(s);
    var d := DrawAndUnbind(s);
    PreambleQuiet(s.program, args, name);
    AfterMaterialSilent(s, projection, view, name);
    AppendAssoc(x, t, d);
    assert RenderCommands(s, projection, view, args) == pre + m + (x + t + d) by {
      AppendAssoc(pre + m, x, t);
      AppendAssoc(pre + m, x + t, d);
    }
    WritesUniformAppend(pre, m, Named(name));
    WritesUniformAppend(pre + m, x + t + d, Named(name));
  }

  /**
   * Material channels: ambient and shininess are always written; diffuse
   * exactly when there is no diffuse texture, specular exactly when there is
   * no specular texture.
   */
  lemma RenderMaterialChannels(s: ModelState, projection: Mat4, view: Mat4, args: RenderArgs)
    ensures WritesUniform(RenderCommands(s, projection, view, args), Named("material.ambient"))
    ensures WritesUniform(RenderCommands(s, projection, view, args), Named("material.shininess"))
    ensures WritesUniform(RenderCommands(s, projection, view, args), Named("material.diffuse")) <==> s.diffuseTexture.None?
    ensures WritesUniform(RenderCommands(s, projection, view, args), Named("material.specular")) <==> s.specularTexture.None?
  {
    ChannelOnlyInMaterial(s, projection, view, args, "material.ambient");
    ChannelOnlyInMaterial(s, projection, view, args, "material.shininess");
    ChannelOnlyInMaterial(s, projection, view, args, "material.diffuse");
    ChannelOnlyInMaterial(s, projection, view, args, "material.specular");
    MaterialChannels(s);
  }

  class Model {
    var vao: Handle
    var vbo: Handle
    var ebo: Handle
    var shaderProgram: Handle
    var vertexCount: nat
    var indexCount: nat
    var modelMatrix: Mat4
    var material: Material
    var diffuseTexture: Option<Handle>
    var specularTexture: Option<Handle>

    function State(): ModelState
      reads this
    {
      ModelState(shaderProgram, vao, ebo, indexCount, modelMatrix, material, diffuseTexture, specularTexture)
    }

    /**
     * Model.__init__: three fresh GL names and a shader program; the
     * packed array buffer of Attributes, uploaded array by array; the
     * element buffer of 4-byte indices; an identity model matrix; and a
     * texture for each given filename, but only when texture coordinates
     * were given.
     */
    constructor (gl: Context, vertices: seq<Vec3>, vertexIndices: seq<nat>,
                 normals: Option<seq<Vec3>> := None, texcoords: Option<seq<Vec2>> := None,
                 material: Material,
                 diffuseTextureName: Option<string> := None, specularTextureName: Option<string> := None,
                 vertexShader: string := "vs.glsl", fragmentShader: string := "fs.glsl")
      modifies gl
      ensures vao == old(gl.issued) + 1 && vbo == vao + 1 && ebo == vao + 2 && shaderProgram == vao + 3
      ensures vertexCount == |vertices| && indexCount == |vertexIndices|
      ensures modelMatrix == Identity && this.material == material
      ensures diffuseTexture.Some? <==> texcoords.Some? && diffuseTextureName.Some?
      ensures specularTexture.Some? <==> texcoords.Some? && specularTextureName.Some?
      ensures diffuseTexture.Some? ==> diffuseTexture.value == shaderProgram + 1
      ensures specularTexture.Some? ==> specularTexture.value == shaderProgram + 1 + Loaded(diffuseTexture)
      ensures gl.issued == shaderProgram + Loaded(diffuseTexture) + Loaded(specularTexture)
      ensures gl.log == old(gl.log)
        + SetupCommands(vao, vbo, ebo, shaderProgram, vertexShader, fragmentShader,
                        Attributes(|vertices|, Count(normals), Count(texcoords)), vertexIndices)
        + TextureLoad(diffuseTexture, diffuseTextureName)
        + TextureLoad(specularTexture, specularTextureName)
    {
      ghost var start := gl.log;
      var vaoName, vboName, eboName, program := GenerateNames(gl, vertexShader, fragmentShader);
      ghost var done := Generated(vaoName, vboName, eboName, program, vertexShader, fragmentShader);
      var normalCount, texcoordCount := Count(normals), Count(texcoords);
      ghost var attrs := Attributes(|vertices|, normalCount, texcoordCount);
      var bufferSize := BufferSize(|vertices|, normalCount, texcoordCount);
      AllocateArrayBuffer(gl, vaoName, vboName, bufferSize);
      AppendAssoc(start, done, Allocation(vaoName, vboName, bufferSize));
      done := done + Allocation(vaoName, vboName, bufferSize);
      UploadArrays(gl, |vertices|, normalCount, texcoordCount);
      AppendAssoc(start, done, Uploads(attrs));
      done := done + Uploads(attrs);
      UploadIndices(gl, eboName, vertexIndices);
      AppendAssoc(start, done, IndexUpload(eboName, vertexIndices));
      ghost var built := gl.log;

      var diffuse := LoadTextureIf(gl, texcoords.Some?, diffuseTextureName);
      var specular := LoadTextureIf(gl, texcoords.Some?, specularTextureName);

      vao, vbo, ebo, shaderProgram := vaoName, vboName, eboName, program;
      vertexCount := |vertices|;
      indexCount := |vertexIndices|;
      modelMatrix := Identity;
      this.material := material;
      diffuseTexture, specularTexture := diffuse, specular;
    }

    /**
     * render: the model's commands for one frame (see RenderCommands); it
     * returns the model itself and changes none of its fields.
     */
    method Render(gl: Context, projection: Mat4 := Identity, view: Mat4 := Identity, args: RenderArgs := RenderArgs())
      returns (self: Model)
      modifies gl
      ensures self == this
      ensures gl.log == old(gl.log) + RenderCommands(State(), projection, view, args)
      ensures gl.issued == old(gl.issued)
    {
      ghost var start := gl.log;
      var st := State();
      EmitPreamble(gl, shaderProgram, args);
      EmitMaterial(gl, st);
      AppendAssoc(start, Preamble(st.program, args), MaterialUniforms(st));
      ghost var upTo := Preamble(st.program, args) + MaterialUniforms(st);
      EmitMatrices(gl, shaderProgram, projection, view, modelMatrix);
      AppendAssoc(start, upTo, MatrixUniforms(st.program, projection, view, st.modelMatrix));
      upTo := upTo + MatrixUniforms(st.program, projection, view, st.modelMatrix);
      EmitTextureBinds(gl, st);
      AppendAssoc(start, upTo, TextureBinds(st));
      upTo := upTo + TextureBinds(st);
      EmitDraw(gl, st);
      AppendAssoc(start, upTo, DrawAndUnbind(st));
      self := this;
    }

    /** translate: the model matrix becomes old · T(pos); only the matrix changes. */
    method Translate(pos: Vec3) returns (self: Model)
      modifies this`modelMatrix
      ensures self == this
      ensures modelMatrix == Apply(old(modelMatrix), Transform.Translate(pos))
    {
      modelMatrix := Times(modelMatrix, Translation(pos));
      self := this;
    }

    /** scale: the model matrix becomes old · S(scalers); only the matrix changes. */
    method Scale(scalers: Vec3) returns (self: Model)
      modifies this`modelMatrix
      ensures self == this
      ensures modelMatrix == Apply(old(modelMatrix), Transform.Scale(scalers))
    {
      modelMatrix := Times(modelMatrix, Scaling(scalers));
      self := this;
    }

    /** rotate: old · Rx · Ry · Rz for the angles in degrees; only the matrix changes. */
    method Rotate(angles: Vec3) returns (self: Model)
      modifies this`modelMatrix
      ensures self == this
      ensures modelMatrix == Apply(old(modelMatrix), Transform.Rotate(angles))
    {
      modelMatrix := Times(modelMatrix, Rotation(XAxis, angles.x));
      modelMatrix := Times(modelMatrix, Rotation(YAxis, angles.y));
      modelMatrix := Times(modelMatrix, Rotation(ZAxis, angles.z));
      self := this;
    }
  }

  lemma {:induction false} UploadsAppend(attrs: seq<Attribute>, a: Attribute)
    ensures Uploads(attrs + [a]) == Uploads(attrs) + Uploads([a])
    decreases |attrs|
  {
    if attrs == [] {
      assert attrs + [a] == [a];
    } else {
      assert (attrs + [a])[1..] == attrs[1..] + [a];
      UploadsAppend(attrs[1..], a);
    }
  }

  /** Bytes of the array buffer: the three arrays' sizes added up. */
  function BufferSize(v: nat, n: Option<nat>, t: Option<nat>): (size: nat)
    ensures size == TotalSize(Attributes(v, n, t))
  {
    AttributesPacked(v, n, t);
    3 * SizeOfFloat * v + (if n.Some? then 3 * SizeOfFloat * n.value else 0) + (if t.Some? then 2 * SizeOfFloat * t.value else 0)
  }

  method GenerateNames(gl: Context, vertexShader: string, fragmentShader: string)
    returns (vao: Handle, vbo: Handle, ebo: Handle, program: Handle)
    modifies gl
    ensures vao == old(gl.issued) + 1 && vbo == vao + 1 && ebo == vao + 2 && program == vao + 3
    ensures gl.issued == old(gl.issued) + 4
    ensures gl.log == old(gl.log) + Generated(vao, vbo, ebo, program, vertexShader, fragmentShader)
  {
    vao := gl.GenName();
    gl.Emit(GenVertexArray(vao));
    vbo := gl.GenName();
    gl.Emit(GenBuffer(vbo));
    ebo := gl.GenName();
    gl.Emit(GenBuffer(ebo));
    program := gl.GenName();
    gl.Emit(LoadShaders(program, vertexShader, fragmentShader));
  }

  method AllocateArrayBuffer(gl: Context, vao: Handle, vbo: Handle, size: nat)
    modifies gl
    ensures gl.log == old(gl.log) + Allocation(vao, vbo, size) && gl.issued == old(gl.issued)
  {
    gl.Emit(BindVertexArray(vao));
    gl.Emit(BindBuffer(ArrayBuffer, vbo));
    gl.Emit(BufferData(ArrayBuffer, size, false));
  }

  /** One array's glBufferSubData, its pointer and its enable. */
  method UploadAttribute(gl: Context, a: Attribute)
    modifies gl
    ensures gl.log == old(gl.log) + Uploads([a]) && gl.issued == old(gl.issued)
  {
    gl.Emit(BufferSubData(ArrayBuffer, a.offset, a.size));
    gl.Emit(AttribPointer(a.slot, a.components, a.components * SizeOfFloat, a.offset));
    gl.Emit(EnableAttrib(a.slot));
    assert [a][1..] == [];
  }

  /**
   * The positions, then the normals when present, then the texture
   * coordinates when present, each written to its block and given its
   * pointer.
   */
  method UploadArrays(gl: Context, v: nat, n: Option<nat>, t: Option<nat>)
    modifies gl
    ensures gl.log == old(gl.log) + Uploads(Attributes(v, n, t)) && gl.issued == old(gl.issued)
  {
    ghost var head := gl.log;
    var verticesSize := 3 * SizeOfFloat * v;
    var normalsSize := if n.Some? then 3 * SizeOfFloat * n.value else 0;
    UploadAttribute(gl, Attribute(0, 3, 0, verticesSize));
    ghost var uploaded := [Attribute(0, 3, 0, verticesSize)];
    if n.Some? {
      var a := Attribute(1, 3, verticesSize, normalsSize);
      UploadAttribute(gl, a);
      UploadsAppend(uploaded, a);
      AppendAssoc(head, Uploads(uploaded), Uploads([a]));
      uploaded := uploaded + [a];
    }
    if t.Some? {
      var a := Attribute(2, 2, verticesSize + normalsSize, 2 * SizeOfFloat * t.value);
      UploadAttribute(gl, a);
      UploadsAppend(uploaded, a);
      AppendAssoc(head, Uploads(uploaded), Uploads([a]));
      uploaded := uploaded + [a];
    }
    AttributesBlocks(v, n, t);
  }

  method UploadIndices(gl: Context, ebo: Handle, indices: seq<nat>)
    modifies gl
    ensures gl.log == old(gl.log) + IndexUpload(ebo, indices) && gl.issued == old(gl.issued)
  {
    gl.Emit(BindBuffer(ElementArrayBuffer, ebo));
    gl.Emit(BufferIndices(SizeOfUint * |indices|, indices));
    gl.Emit(BindVertexArray(0));
  }

  /** load_texture for a named file when `enabled`; otherwise nothing. */
  method LoadTextureIf(gl: Context, enabled: bool, filename: Option<string>) returns (texture: Option<Handle>)
    modifies gl
    ensures texture.Some? <==> enabled && filename.Some?
    ensures texture.Some? ==> texture.value == old(gl.issued) + 1
    ensures gl.issued == old(gl.issued) + Loaded(texture)
    ensures gl.log == old(gl.log) + TextureLoad(texture, filename)
  {
    texture := None;
    if enabled && filename.Some? {
      var name := gl.GenName();
      gl.Emit(LoadTexture(name, filename.value));
      texture := Some(name);
    }
  }

  /** set_light_uniforms for one optional collection. */
  method EmitLights(gl: Context, lights: Option<seq<Light>>, program: Handle)
    modifies gl
    ensures gl.log == old(gl.log) + LightUniforms(lights, program) && gl.issued == old(gl.issued)
  {
    if lights.Some? {
      SetLightUniforms(gl, lights.value, program);
    } else {
      assert gl.log == gl.log + [];
    }
  }

  method EmitPreamble(gl: Context, program: Handle, args: RenderArgs)
    modifies gl
    ensures gl.log == old(gl.log) + Preamble(program, args) && gl.issued == old(gl.issued)
  {
    ghost var start := gl.log;
    gl.Emit(UseProgram(program));
    gl.Emit(Uniform(program, Named("resolution"), ResolutionValue(args.resolution)));
    gl.Emit(Uniform(program, Named("time"), FloatValue(args.time)));
    gl.Emit(Uniform(program, Named("viewPos"), Vec3Value(args.viewPosition)));
    ghost var done := [UseProgram(program)] + FrameUniforms(program, args);
    assert gl.log == start + done;
    EmitLights(gl, args.dirLights, program);
    AppendAssoc(start, done, LightUniforms(args.dirLights, program));
    done := done + LightUniforms(args.dirLights, program);
    EmitLights(gl, args.pointLights, program);
    AppendAssoc(start, done, LightUniforms(args.pointLights, program));
    done := done + LightUniforms(args.pointLights, program);
    EmitLights(gl, args.spotLights, program);
    AppendAssoc(start, done, LightUniforms(args.spotLights, program));
  }

  method EmitMaterial(gl: Context, s: ModelState)
    modifies gl
    ensures gl.log == old(gl.log) + MaterialUniforms(s) && gl.issued == old(gl.issued)
  {
    gl.Emit(Uniform(s.program, Named("material.ambient"), Vec3Value(s.material.ambient)));
    if s.diffuseTexture.None? {
      gl.Emit(Uniform(s.program, Named("material.diffuse"), Vec3Value(s.material.diffuse)));
    }
    if s.specularTexture.None? {
      gl.Emit(Uniform(s.program, Named("material.specular"), Vec3Value(s.material.specular)));
    }
    gl.Emit(Uniform(s.program, Named("material.shininess"), FloatValue(s.material.shininess)));
  }

  method EmitMatrices(gl: Context, program: Handle, projection: Mat4, view: Mat4, model: Mat4)
    modifies gl
    ensures gl.log == old(gl.log) + MatrixUniforms(program, projection, view, model) && gl.issued == old(gl.issued)
  {
    gl.Emit(Uniform(program, Named("projection"), MatrixValue(projection)));
    gl.Emit(Uniform(program, Named("view"), MatrixValue(view)));
    gl.Emit(Uniform(program, Named("model"), MatrixValue(model)));
  }

  method EmitTextureBinds(gl: Context, s: ModelState)
    modifies gl
    ensures gl.log == old(gl.log) + TextureBinds(s) && gl.issued == old(gl.issued)
  {
    if s.diffuseTexture.Some? {
      gl.Emit(ActiveTexture(0));
      gl.Emit(BindTexture(s.diffuseTexture.value));
    }
    if s.specularTexture.Some? {
      gl.Emit(ActiveTexture(1));
      gl.Emit(BindTexture(s.specularTexture.value));
    }
  }

  method EmitDraw(gl: Context, s: ModelState)
    modifies gl
    ensures gl.log == old(gl.log) + DrawAndUnbind(s) && gl.issued == old(gl.issued)
  {
    gl.Emit(BindVertexArray(s.vao));
    gl.Emit(BindBuffer(ElementArrayBuffer, s.ebo));
    gl.Emit(DrawElements(s.indexCount));
    gl.Emit(BindBuffer(ElementArrayBuffer, 0));
    gl.Emit(BindVertexArray(0));
    gl.Emit(UseProgram(0));
  }

  /**
   * Model.from_figure: the primitive's positions and indices only, no
   * normals and no texture coordinates, so no texture is ever loaded.
   */
  method FromFigure(gl: Context, figure: Primitive, material: Material,
                    diffuseTextureName: Option<string> := None, specularTextureName: Option<string> := None,
                    vertexShader: string := "vs.glsl", fragmentShader: string := "fs.glsl")
    returns (m: Model)
    modifies gl
    ensures fresh(m)
    ensures m.diffuseTexture.None? && m.specularTexture.None?
    ensures m.vertexCount == |figure.vertices| && m.indexCount == |figure.indices|
    ensures m.modelMatrix == Identity && m.material == material
    ensures m.vao == old(gl.issued) + 1 && m.vbo == m.vao + 1 && m.ebo == m.vao + 2 && m.shaderProgram == m.vao + 3
    ensures gl.issued == old(gl.issued) + 4
    ensures gl.log == old(gl.log)
      + SetupCommands(m.vao, m.vbo, m.ebo, m.shaderProgram, vertexShader, fragmentShader,
                      Attributes(|figure.vertices|, None, None), figure.indices)
  {
    m := new Model(gl, figure.vertices, figure.indices, material := material,
                   diffuseTextureName := diffuseTextureName, specularTextureName := specularTextureName,
                   vertexShader := vertexShader, fragmentShader := fragmentShader);
  }

  /**
   * Model.from_model: the reader's flat arrays reshaped into vec3 positions
   * and normals and vec2 texture coordinates (a length that does not divide
   * makes reshape raise before any GL call), the shapes' position indices
   * concatenated in shape order; normals and texture coordinates are always
   * passed, so textures load whenever a filename is given.
   */
  method FromModel(gl: Context, obj: ObjFile, material: Material,
                   diffuseTextureName: Option<string> := None, specularTextureName: Option<string> := None,
                   vertexShader: string := "vs.glsl", fragmentShader: string := "fs.glsl")
    returns (r: Result<Model, string>)
    modifies gl
    ensures r.Ok? <==> |obj.attrib.vertices| % 3 == 0 && |obj.attrib.normals| % 3 == 0 && |obj.attrib.texcoords| % 2 == 0
    ensures r.Err? ==> gl.log == old(gl.log) && gl.issued == old(gl.issued)
    ensures r.Ok? ==> fresh(r.value)
    ensures r.Ok? ==> r.value.vertexCount * 3 == |obj.attrib.vertices|
    ensures r.Ok? ==> r.value.indexCount == |VertexIndices(obj.shapes)|
    ensures r.Ok? ==> (r.value.diffuseTexture.Some? <==> diffuseTextureName.Some?)
    ensures r.Ok? ==> (r.value.specularTexture.Some? <==> specularTextureName.Some?)
    ensures r.Ok? ==> r.value.vao == old(gl.issued) + 1 && r.value.vbo == r.value.vao + 1
                      && r.value.ebo == r.value.vao + 2 && r.value.shaderProgram == r.value.vao + 3
    ensures r.Ok? ==> r.value.diffuseTexture.Some? ==> r.value.diffuseTexture.value == r.value.shaderProgram + 1
    ensures r.Ok? ==> r.value.specularTexture.Some? ==>
                        r.value.specularTexture.value == r.value.shaderProgram + 1 + Loaded(r.value.diffuseTexture)
    ensures r.Ok? ==> gl.issued == old(gl.issued) + 4 + Loaded(r.value.diffuseTexture) + Loaded(r.value.specularTexture)
    ensures r.Ok? ==>
      gl.log == old(gl.log)
        + SetupCommands(r.value.vao, r.value.vbo, r.value.ebo, r.value.shaderProgram, vertexShader, fragmentShader,
                        Attributes(|obj.attrib.vertices| / 3, Some(|obj.attrib.normals| / 3), Some(|obj.attrib.texcoords| / 2)),
                        VertexIndices(obj.shapes))
        + TextureLoad(r.value.diffuseTexture, diffuseTextureName)
        + TextureLoad(r.value.specularTexture, specularTextureName)
  {
    var vertices := Triples(obj.attrib.vertices);
    var normals := Triples(obj.attrib.normals);
    var texcoords := Pairs(obj.attrib.texcoords);
    if vertices.None? || normals.None? || texcoords.None? {
      // the first reshape that fails raises
      var which := if vertices.None? then "vertices" else if normals.None? then "normals" else "texcoords";
      return Err("cannot reshape " + which);
    }
    var vertexIndices := VertexIndices(obj.shapes);
    var m := new Model(gl, vertices.value, vertexIndices, normals, texcoords, material,
                       diffuseTextureName, specularTextureName, vertexShader, fragmentShader);
    r := Ok(m);
  }
}
