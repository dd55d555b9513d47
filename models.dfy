/**
 * The older model classes (src/modules/models.py): a BaseModel that loads
 * its shaders and generates its names, a Figure that uploads a primitive's
 * positions, and a Model that groups an OBJ file's flat lists in loops and
 * uploads positions and normals. Their render writes a fixed light and the
 * material as plain uniforms. Both layouts set up vertex pointers that do
 * not match the data they upload.
 */
module LegacyModels {
  import opened Wrappers
  import opened Gl
  import opened UniformNames
  import opened Structures
  import opened Transforms
  import opened BufferLayout
  import opened ObjData
  import opened Figures
  import opened Renderable

  /** load_shaders, then the vertex array and the two buffers. */
  function BaseSetup(program: Handle, vao: Handle, vbo: Handle, ebo: Handle,
                     vertexShader: string, fragmentShader: string): seq<Command> {
    [LoadShaders(program, vertexShader, fragmentShader), GenVertexArray(vao), GenBuffer(vbo), GenBuffer(ebo)]
  }

  /**
   * The three pointers both subclasses set: positions at 0 (stride 12),
   * normals at `normalsOffset` (stride 12), texture coordinates at byte 24
   * (stride 8), each enabled.
   */
  function LegacyPointers(normalsOffset: nat): seq<Command> {
    [AttribPointer(0, 3, 3 * SizeOfFloat, 0), EnableAttrib(0),
     AttribPointer(1, 3, 3 * SizeOfFloat, normalsOffset), EnableAttrib(1),
     AttribPointer(2, 2, 2 * SizeOfFloat, 6 * SizeOfFloat), EnableAttrib(2)]
  }

  /** The element buffer filled with the uint32 indices, 4 bytes each, then the vertex array unbound. */
  function LegacyIndexUpload(ebo: Handle, indices: seq<nat>): seq<Command> {
    [BindBuffer(ElementArrayBuffer, ebo), BufferIndices(SizeOfUint * |indices|, indices), BindVertexArray(0)]
  }

  /** Figure.__init__ after the base: positions only, uploaded at allocation. */
  function FigureLayout(vao: Handle, vbo: Handle, ebo: Handle, vertexCount: nat, indices: seq<nat>): seq<Command> {
    [BindVertexArray(vao), BindBuffer(ArrayBuffer, vbo), BufferData(ArrayBuffer, 3 * SizeOfFloat * vertexCount, true)]
    + LegacyPointers(3 * SizeOfFloat)
    + LegacyIndexUpload(ebo, indices)
  }

  /** Model.__init__ after the base: positions then normals; texture coordinates are not uploaded. */
  function ObjLayout(vao: Handle, vbo: Handle, ebo: Handle, vertexCount: nat, normalCount: nat, indices: seq<nat>): seq<Command> {
    var verticesSize := 3 * SizeOfFloat * vertexCount;
    var normalsSize := 3 * SizeOfFloat * normalCount;
    [BindVertexArray(vao), BindBuffer(ArrayBuffer, vbo), BufferData(ArrayBuffer, verticesSize + normalsSize, false),
     BufferSubData(ArrayBuffer, 0, verticesSize), BufferSubData(ArrayBuffer, verticesSize, normalsSize)]
    + LegacyPointers(verticesSize)
    + LegacyIndexUpload(ebo, indices)
  }

  /** What the legacy render reads of a model; the counts are None on a bare BaseModel. */
  datatype LegacyState = LegacyState(program: Handle, vao: Handle, ebo: Handle, indexCount: Option<nat>,
                                     modelMatrix: Mat4, ambient: Vec3, diffuse: Vec3, specular: Vec3, shininess: real)

  /** The fixed light of the legacy render, whatever the caller passes. */
  const LightPosition := Splat(0.5)
  const ViewPosition := Splat(0.0)
  const LightColor := Splat(1.0)

  function LegacyUniforms(s: LegacyState, projection: Mat4, view: Mat4): seq<Command> {
    [Uniform(s.program, Named("lightPos"), Vec3Value(LightPosition)),
     Uniform(s.program, Named("viewPos"), Vec3Value(ViewPosition)),
     Uniform(s.program, Named("lightColor"), Vec3Value(LightColor)),
     Uniform(s.program, Named("ambient"), Vec3Value(s.ambient)),
     Uniform(s.program, Named("diffuse"), Vec3Value(s.diffuse)),
     Uniform(s.program, Named("specular"), Vec3Value(s.specular)),
     Uniform(s.program, Named("shininess"), FloatValue(s.shininess)),
     Uniform(s.program, Named("projection"), MatrixValue(projection)),
     Uniform(s.program, Named("view"), MatrixValue(view)),
     Uniform(s.program, Named("model"), MatrixValue(s.modelMatrix))]
  }

  /** Everything the legacy render issues before it reads the index count. */
  function LegacyPrefix(s: LegacyState, projection: Mat4, view: Mat4): seq<Command> {
    [UseProgram(s.program)] + LegacyUniforms(s, projection, view)
    + [BindVertexArray(s.vao), BindBuffer(ElementArrayBuffer, s.ebo)]
  }

  /** The draw with a known index count and the unbinds after it. */
  function LegacyDraw(indexCount: nat): seq<Command> {
    [DrawElements(indexCount), BindBuffer(ElementArrayBuffer, 0), BindVertexArray(0), UseProgram(0)]
  }

  /**
   * Up to the index count, the legacy render draws nothing and binds no
   * texture; it writes the fixed light and the plain material names, never
   * a light-array element and never a `material.` field.
   */
  lemma LegacyPrefixQuiet(s: LegacyState, projection: Mat4, view: Mat4)
    ensures var cs := LegacyPrefix(s, projection, view);
      && (forall k :: 0 <= k < |cs| ==> !cs[k].DrawElements? && !cs[k].ActiveTexture? && !cs[k].BindTexture?)
      && cs[1] == Uniform(s.program, Named("lightPos"), Vec3Value(LightPosition))
      && cs[3] == Uniform(s.program, Named("lightColor"), Vec3Value(LightColor))
      && (forall k :: 0 <= k < |cs| && cs[k].Uniform? ==> cs[k].name.Named?)
      && !WritesUniform(cs, Named("material.diffuse")) && !WritesUniform(cs, Named("material.specular"))
  {
  }

  /**
   * With an index count, the legacy render issues exactly one draw, with
   * that count, and no texture command; the draw comes after every uniform.
   */
  lemma LegacyRenderDrawsOnce(s: LegacyState, projection: Mat4, view: Mat4, indexCount: nat)
    ensures var cs := LegacyPrefix(s, projection, view) + LegacyDraw(indexCount);
      && DrawCount(cs) == 1 && TextureCommands(cs) == []
      && cs[|cs| - 4] == DrawElements(indexCount)
      && (forall k :: 0 <= k < |cs| && cs[k].Uniform? ==> k < |cs| - 4)
  {
    var pre := LegacyPrefix(s, projection, view);
    var draw := [DrawElements(indexCount)];
    var after := [BindBuffer(ElementArrayBuffer, 0), BindVertexArray(0), UseProgram(0)];
    assert Quiet(pre);
    QuietCounts(pre);
    QuietCounts(after);
    assert LegacyDraw(indexCount) == draw + after;
    assert draw[1..] == [];
    DrawCountAppend(draw, after);
    TextureCommandsAppend(draw, after);
    DrawCountAppend(pre, draw + after);
    TextureCommandsAppend(pre, draw + after);
  }

  /**
   * The base constructor's grouping loop: `range(0, len, 3)` reading
   * `flat[i]`, `flat[i + 1]`, `flat[i + 2]`; a length that is not a multiple
   * of 3 makes the last read fail (IndexError), which the model reports as
   * None. The result is the same grouping `reshape(-1, 3)` gives.
   */
  method GroupTriples(flat: seq<real>) returns (r: Option<seq<Vec3>>)
    ensures r == Triples(flat)
  {
    var out: seq<Vec3> := [];
    var i := 0;
    while i < |flat|
      invariant i <= |flat| && i == 3 * |out|
      invariant forall k :: 0 <= k < |out| ==> 3 * k + 2 < i && out[k] == Vec3(flat[3 * k], flat[3 * k + 1], flat[3 * k + 2])
      decreases |flat| - i
    {
      if i + 2 >= |flat| {
        assert |flat| % 3 != 0;
        return None;
      }
      out := out + [Vec3(flat[i], flat[i + 1], flat[i + 2])];
      i := i + 3;
    }
    ghost var grouped := Triples(flat).value;
    assert |grouped| == |out|;
    assert forall k :: 0 <= k < |out| ==> grouped[k] == out[k];
    assert grouped == out;
    return Some(out);
  }

  /** The same loop over pairs (`range(0, len, 2)`), as reshape(-1, 2) groups them. */
  method GroupPairs(flat: seq<real>) returns (r: Option<seq<Vec2>>)
    ensures r == Pairs(flat)
  {
    var out: seq<Vec2> := [];
    var i := 0;
    while i < |flat|
      invariant i <= |flat| && i == 2 * |out|
      invariant forall k :: 0 <= k < |out| ==> 2 * k + 1 < i && out[k] == Vec2(flat[2 * k], flat[2 * k + 1])
      decreases |flat| - i
    {
      if i + 1 >= |flat| {
        assert |flat| % 2 != 0;
        return None;
      }
      out := out + [Vec2(flat[i], flat[i + 1])];
      i := i + 2;
    }
    ghost var grouped := Pairs(flat).value;
    assert |grouped| == |out|;
    assert forall k :: 0 <= k < |out| ==> grouped[k] == out[k];
    assert grouped == out;
    return Some(out);
  }

  /** The nested loop over shapes and their corners, collecting position indices in order. */
  method CollectIndices(shapes: seq<Shape>) returns (r: seq<nat>)
    ensures r == VertexIndices(shapes)
  {
    r := [];
    for s := 0 to |shapes|
      invariant r == VertexIndices(shapes[..s])
    {
      var shape := shapes[s];
      ghost var before := r;
      for j := 0 to |shape.indices|
        invariant r == before + ShapeIndices(Shape(shape.name, shape.indices[..j]))
      {
        ShapeIndicesStep(shape, j);
        r := r + [shape.indices[j].vertexIndex];
      }
      assert shape.indices[..|shape.indices|] == shape.indices;
      VertexIndicesStep(shapes, s);
    }
    assert shapes[..|shapes|] == shapes;
  }

  lemma ShapeIndicesStep(shape: Shape, j: nat)
    requires j < |shape.indices|
    ensures ShapeIndices(Shape(shape.name, shape.indices[..j + 1]))
         == ShapeIndices(Shape(shape.name, shape.indices[..j])) + [shape.indices[j].vertexIndex]
  {
  }

  lemma VertexIndicesStep(shapes: seq<Shape>, s: nat)
    requires s < |shapes|
    ensures VertexIndices(shapes[..s + 1]) == VertexIndices(shapes[..s]) + ShapeIndices(shapes[s])
  {
    assert shapes[..s + 1] == shapes[..s] + [shapes[s]];
    VertexIndicesAppend(shapes[..s], [shapes[s]]);
    assert [shapes[s]][1..] == [];
  }

  class BaseModel {
    var vao: Handle
    var vbo: Handle
    var ebo: Handle
    var shaderProgram: Handle
    var modelMatrix: Mat4
    var ambient: Vec3
    var diffuse: Vec3
    var specular: Vec3
    var shininess: real
    /** Set only by the subclasses; None on a bare BaseModel. */
    var vertexCount: Option<nat>
    var indexCount: Option<nat>

    function State(): LegacyState
      reads this
    {
      LegacyState(shaderProgram, vao, ebo, indexCount, modelMatrix, ambient, diffuse, specular, shininess)
    }

    /**
     * BaseModel.__init__: the shader program first, then the three names;
     * an identity model matrix and the material's channels copied.
     */
    constructor (gl: Context, vertexShader: string, fragmentShader: string, material: Material)
      modifies gl
      ensures shaderProgram == old(gl.issued) + 1 && vao == shaderProgram + 1 && vbo == shaderProgram + 2 && ebo == shaderProgram + 3
      ensures gl.issued == old(gl.issued) + 4
      ensures gl.log == old(gl.log) + BaseSetup(shaderProgram, vao, vbo, ebo, vertexShader, fragmentShader)
      ensures modelMatrix == Identity
      ensures ambient == material.ambient && diffuse == material.diffuse
      ensures specular == material.specular && shininess == material.shininess
      ensures vertexCount.None? && indexCount.None?
    {
      var program := gl.GenName();
      gl.Emit(LoadShaders(program, vertexShader, fragmentShader));
      var vaoName := gl.GenName();
      gl.Emit(GenVertexArray(vaoName));
      var vboName := gl.GenName();
      gl.Emit(GenBuffer(vboName));
      var eboName := gl.GenName();
      gl.Emit(GenBuffer(eboName));
      shaderProgram, vao, vbo, ebo := program, vaoName, vboName, eboName;
      modelMatrix := Identity;
      ambient, diffuse, specular, shininess := material.ambient, material.diffuse, material.specular, material.shininess;
      vertexCount, indexCount := None, None;
    }

    /** Figure.__init__ after the base constructor. */
    method SetUpFigure(gl: Context, figure: Primitive)
      modifies gl, this`vertexCount, this`indexCount
      ensures vertexCount == Some(|figure.vertices|) && indexCount == Some(|figure.indices|)
      ensures gl.log == old(gl.log) + FigureLayout(vao, vbo, ebo, |figure.vertices|, figure.indices)
      ensures gl.issued == old(gl.issued)
    {
      vertexCount := Some(|figure.vertices|);
      indexCount := Some(|figure.indices|);
      gl.Emit(BindVertexArray(vao));
      gl.Emit(BindBuffer(ArrayBuffer, vbo));
      gl.Emit(BufferData(ArrayBuffer, 3 * SizeOfFloat * |figure.vertices|, true));
      EmitLegacyPointers(gl, 3 * SizeOfFloat);
      EmitLegacyIndices(gl, ebo, figure.indices);
    }

    /** Model.__init__ after the base constructor and the grouping loops. */
    method SetUpObj(gl: Context, vertices: seq<Vec3>, normals: seq<Vec3>, vertexIndices: seq<nat>)
      modifies gl, this`vertexCount, this`indexCount
      ensures vertexCount == Some(|vertices|) && indexCount == Some(|vertexIndices|)
      ensures gl.log == old(gl.log) + ObjLayout(vao, vbo, ebo, |vertices|, |normals|, vertexIndices)
      ensures gl.issued == old(gl.issued)
    {
      vertexCount := Some(|vertices|);
      indexCount := Some(|vertexIndices|);
      var verticesSize := 3 * SizeOfFloat * |vertices|;
      var normalsSize := 3 * SizeOfFloat * |normals|;
      gl.Emit(BindVertexArray(vao));
      gl.Emit(BindBuffer(ArrayBuffer, vbo));
      gl.Emit(BufferData(ArrayBuffer, verticesSize + normalsSize, false));
      gl.Emit(BufferSubData(ArrayBuffer, 0, verticesSize));
      gl.Emit(BufferSubData(ArrayBuffer, verticesSize, normalsSize));
      EmitLegacyPointers(gl, verticesSize);
      EmitLegacyIndices(gl, ebo, vertexIndices);
    }

    /**
     * BaseModel.render: the fixed light, the material and the matrices,
     * then the draw. The caller's resolution, time, light colour and
     * animation mode are not used. On a bare BaseModel the index count does
     * not exist: the calls up to the element-buffer bind are issued and the
     * render fails before drawing.
     */
    method Render(gl: Context, projection: Mat4 := Identity, view: Mat4 := Identity, args: RenderArgs := RenderArgs())
      returns (r: Result<BaseModel, string>)
      modifies gl
      ensures r.Ok? <==> indexCount.Some?
      ensures r.Ok? ==> r.value == this
      ensures r.Ok? ==> gl.log == old(gl.log) + LegacyPrefix(State(), projection, view) + LegacyDraw(indexCount.value)
      ensures r.Err? ==> gl.log == old(gl.log) + LegacyPrefix(State(), projection, view)
      ensures gl.issued == old(gl.issued)
    {
      EmitLegacyPrefix(gl, State(), projection, view);
      ghost var prefix := gl.log;
      if indexCount.None? {
        return Err("'BaseModel' object has no attribute 'index_count'");
      }
      gl.Emit(DrawElements(indexCount.value));
      gl.Emit(BindBuffer(ElementArrayBuffer, 0));
      gl.Emit(BindVertexArray(0));
      gl.Emit(UseProgram(0));
      assert gl.log == prefix + LegacyDraw(indexCount.value);
      return Ok(this);
    }

    /** translate: the model matrix becomes old · T(pos); only the matrix changes. */
    method Translate(pos: Vec3) returns (self: BaseModel)
      modifies this`modelMatrix
      ensures self == this
      ensures modelMatrix == Apply(old(modelMatrix), Transform.Translate(pos))
    {
      modelMatrix := Times(modelMatrix, Translation(pos));
      self := this;
    }

    /** scale: the model matrix becomes old · S(scalers); only the matrix changes. */
    method Scale(scalers: Vec3) returns (self: BaseModel)
      modifies this`modelMatrix
      ensures self == this
      ensures modelMatrix == Apply(old(modelMatrix), Transform.Scale(scalers))
    {
      modelMatrix := Times(modelMatrix, Scaling(scalers));
      self := this;
    }

    /** rotate: old · Rx · Ry · Rz for the angles in degrees; only the matrix changes. */
    method Rotate(angles: Vec3) returns (self: BaseModel)
      modifies this`modelMatrix
      ensures self == this
      ensures modelMatrix == Apply(old(modelMatrix), Transform.Rotate(angles))
    {
      modelMatrix := Times(modelMatrix, Rotation(XAxis, angles.x));
      modelMatrix := Times(modelMatrix, Rotation(YAxis, angles.y));
      modelMatrix := Times(modelMatrix, Rotation(ZAxis, angles.z));
      self := this;
    }
  }

  method EmitLegacyPrefix(gl: Context, s: LegacyState, projection: Mat4, view: Mat4)
    modifies gl
    ensures gl.log == old(gl.log) + LegacyPrefix(s, projection, view) && gl.issued == old(gl.issued)
  {
    ghost var start := gl.log;
    gl.Emit(UseProgram(s.program));
    EmitLegacyUniforms(gl, s, projection, view);
    AppendAssoc(start, [UseProgram(s.program)], LegacyUniforms(s, projection, view));
    ghost var mid := gl.log;
    gl.Emit(BindVertexArray(s.vao));
    gl.Emit(BindBuffer(ElementArrayBuffer, s.ebo));
    assert gl.log == mid + [BindVertexArray(s.vao), BindBuffer(ElementArrayBuffer, s.ebo)];
    AppendAssoc(start, [UseProgram(s.program)] + LegacyUniforms(s, projection, view), [BindVertexArray(s.vao), BindBuffer(ElementArrayBuffer, s.ebo)]);
  }

  method EmitLegacyUniforms(gl: Context, s: LegacyState, projection: Mat4, view: Mat4)
    modifies gl
    ensures gl.log == old(gl.log) + LegacyUniforms(s, projection, view) && gl.issued == old(gl.issued)
  {
    gl.Emit(Uniform(s.program, Named("lightPos"), Vec3Value(LightPosition)));
    gl.Emit(Uniform(s.program, Named("viewPos"), Vec3Value(ViewPosition)));
    gl.Emit(Uniform(s.program, Named("lightColor"), Vec3Value(LightColor)));
    gl.Emit(Uniform(s.program, Named("ambient"), Vec3Value(s.ambient)));
    gl.Emit(Uniform(s.program, Named("diffuse"), Vec3Value(s.diffuse)));
    gl.Emit(Uniform(s.program, Named("specular"), Vec3Value(s.specular)));
    gl.Emit(Uniform(s.program, Named("shininess"), FloatValue(s.shininess)));
    gl.Emit(Uniform(s.program, Named("projection"), MatrixValue(projection)));
    gl.Emit(Uniform(s.program, Named("view"), MatrixValue(view)));
    gl.Emit(Uniform(s.program, Named("model"), MatrixValue(s.modelMatrix)));
  }

  method EmitLegacyPointers(gl: Context, normalsOffset: nat)
    modifies gl
    ensures gl.log == old(gl.log) + LegacyPointers(normalsOffset) && gl.issued == old(gl.issued)
  {
    gl.Emit(AttribPointer(0, 3, 3 * SizeOfFloat, 0));
    gl.Emit(EnableAttrib(0));
    gl.Emit(AttribPointer(1, 3, 3 * SizeOfFloat, normalsOffset));
    gl.Emit(EnableAttrib(1));
    gl.Emit(AttribPointer(2, 2, 2 * SizeOfFloat, 6 * SizeOfFloat));
    gl.Emit(EnableAttrib(2));
  }

  method EmitLegacyIndices(gl: Context, ebo: Handle, indices: seq<nat>)
    modifies gl
    ensures gl.log == old(gl.log) + LegacyIndexUpload(ebo, indices) && gl.issued == old(gl.issued)
  {
    gl.Emit(BindBuffer(ElementArrayBuffer, ebo));
    gl.Emit(BufferIndices(SizeOfUint * |indices|, indices));
    gl.Emit(BindVertexArray(0));
  }

  /** Figure(figure, ...): the base constructor, then the figure's layout. */
  method NewFigure(gl: Context, figure: Primitive, vertexShader: string := "vs.glsl", fragmentShader: string := "fs.glsl",
                   material: Material)
    returns (m: BaseModel)
    modifies gl
    ensures fresh(m)
    ensures m.vertexCount == Some(|figure.vertices|) && m.indexCount == Some(|figure.indices|)
    ensures m.shaderProgram == old(gl.issued) + 1 && m.vao == m.shaderProgram + 1
    ensures m.vbo == m.shaderProgram + 2 && m.ebo == m.shaderProgram + 3
    ensures gl.issued == old(gl.issued) + 4
    ensures gl.log == old(gl.log) + BaseSetup(m.shaderProgram, m.vao, m.vbo, m.ebo, vertexShader, fragmentShader)
      + FigureLayout(m.vao, m.vbo, m.ebo, |figure.vertices|, figure.indices)
  {
    m := new BaseModel(gl, vertexShader, fragmentShader, material);
    m.SetUpFigure(gl, figure);
  }

  /**
   * Model(filename, ...): the base constructor runs first, so its calls are
   * issued even when a grouping loop then fails on a list whose length does
   * not divide; otherwise the positions and normals are uploaded and the
   * index count is the number of corners.
   */
  method NewObjModel(gl: Context, obj: ObjFile, vertexShader: string := "vs.glsl", fragmentShader: string := "fs.glsl",
                     material: Material)
    returns (r: Result<BaseModel, string>)
    modifies gl
    ensures r.Ok? <==> |obj.attrib.vertices| % 3 == 0 && |obj.attrib.normals| % 3 == 0 && |obj.attrib.texcoords| % 2 == 0
    ensures r.Err? ==> gl.log == old(gl.log) + BaseSetup(old(gl.issued) + 1, old(gl.issued) + 2, old(gl.issued) + 3,
                                                         old(gl.issued) + 4, vertexShader, fragmentShader)
    ensures r.Ok? ==> fresh(r.value)
    ensures r.Ok? ==> r.value.vertexCount == Some(|obj.attrib.vertices| / 3)
    ensures r.Ok? ==> r.value.indexCount == Some(|VertexIndices(obj.shapes)|)
    ensures r.Ok? ==> r.value.shaderProgram == old(gl.issued) + 1 && r.value.vao == old(gl.issued) + 2
    ensures r.Ok? ==> r.value.vbo == old(gl.issued) + 3 && r.value.ebo == old(gl.issued) + 4
    ensures gl.issued == old(gl.issued) + 4
    ensures r.Ok? ==>
      gl.log == old(gl.log) + BaseSetup(r.value.shaderProgram, r.value.vao, r.value.vbo, r.value.ebo, vertexShader, fragmentShader)
        + ObjLayout(r.value.vao, r.value.vbo, r.value.ebo, |obj.attrib.vertices| / 3, |obj.attrib.normals| / 3,
                    VertexIndices(obj.shapes))
  {
    var m := new BaseModel(gl, vertexShader, fragmentShader, material);
    var vertices := GroupTriples(obj.attrib.vertices);
    if vertices.None? {
      return Err("list index out of range");
    }
    var normals := GroupTriples(obj.attrib.normals);
    if normals.None? {
      return Err("list index out of range");
    }
    var texcoords := GroupPairs(obj.attrib.texcoords);
    if texcoords.None? {
      return Err("list index out of range");
    }
    var vertexIndices := CollectIndices(obj.shapes);
    m.SetUpObj(gl, vertices.value, normals.value, vertexIndices);
    return Ok(m);
  }

  /**
   * As written, the figure's normal pointer reads 12 bytes per vertex from
   * byte 12 of a buffer that holds only the positions: for the last vertex
   * it reads past the end of the allocation, for every figure.
   */
  lemma FigureNormalsOverrun(vao: Handle, vbo: Handle, ebo: Handle, vertexCount: nat, indices: seq<nat>)
    requires vertexCount >= 1
    ensures var cs := FigureLayout(vao, vbo, ebo, vertexCount, indices);
      && cs[2] == BufferData(ArrayBuffer, 12 * vertexCount, true)
      && cs[5] == AttribPointer(1, 3, 12, 12)
      && ReadEnd(cs[5], vertexCount - 1) == 12 * vertexCount + 12
      && ReadEnd(cs[5], vertexCount - 1) > cs[2].size
  {
  }

  /** The square primitive: vertex 3's normal is read from bytes 48..60 of a 48-byte buffer. */
  lemma SquareNormalsOverrun(vao: Handle, vbo: Handle, ebo: Handle)
    ensures var cs := FigureLayout(vao, vbo, ebo, |Square.vertices|, Square.indices);
      cs[2].size == 48 && ReadStart(cs[5], 3) == 48 && ReadEnd(cs[5], 3) == 60
  {
  }

  /**
   * The figure's texture-coordinate pointer (byte 24, stride 8) reads past the
   * 12·n-byte buffer at the last vertex exactly when there are fewer than six
   * vertices.
   */
  lemma FigureTexcoordsOverrun(vao: Handle, vbo: Handle, ebo: Handle, vertexCount: nat, indices: seq<nat>)
    requires vertexCount >= 1
    ensures var cs := FigureLayout(vao, vbo, ebo, vertexCount, indices);
      && cs[7] == AttribPointer(2, 2, 8, 24)
      && ReadEnd(cs[7], vertexCount - 1) == 8 * vertexCount + 24
      && (ReadEnd(cs[7], vertexCount - 1) > cs[2].size <==> vertexCount < 6)
  {
  }

  /** The square primitive: vertex 3's texture coordinate is read from bytes 48..56 of a 48-byte buffer. */
  lemma SquareTexcoordsOverrun(vao: Handle, vbo: Handle, ebo: Handle)
    ensures var cs := FigureLayout(vao, vbo, ebo, |Square.vertices|, Square.indices);
      cs[2].size == 48 && ReadStart(cs[7], 3) == 48 && ReadEnd(cs[7], 3) == 56
  {
    FigureTexcoordsOverrun(vao, vbo, ebo, |Square.vertices|, Square.indices);
  }

  /**
   * As written, the OBJ model's texture-coordinate pointer starts at byte 24
   * of the buffer, where the positions are, and no upload writes texture
   * coordinates at all: with at least three vertices, vertex 0's texture
   * coordinate is read from the third position.
   */
  lemma ObjTexcoordsReadPositions(vao: Handle, vbo: Handle, ebo: Handle, vertexCount: nat, normalCount: nat, indices: seq<nat>)
    requires vertexCount >= 3
    ensures var cs := ObjLayout(vao, vbo, ebo, vertexCount, normalCount, indices);
      && cs[9] == AttribPointer(2, 2, 8, 24)
      && cs[3] == BufferSubData(ArrayBuffer, 0, 12 * vertexCount)
      && cs[3].offset <= ReadStart(cs[9], 0) && ReadEnd(cs[9], 0) <= cs[3].offset + cs[3].size
      && (forall k :: 0 <= k < |cs| && cs[k].BufferSubData? ==> k == 3 || k == 4)
      && cs[4] == BufferSubData(ArrayBuffer, 12 * vertexCount, 12 * normalCount)
  {
  }
}
