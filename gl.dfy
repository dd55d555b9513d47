/** Option and Result, for absent arguments and for operations that raise. */
module Wrappers {
  datatype Option<+T> = None | Some(value: T)

  datatype Result<+T, +E> = Ok(value: T) | Err(error: E)
}

/**
 * The graphics driver as this model sees it: every OpenGL call the renderer
 * makes becomes one abstract command appended to a log, and object names
 * (vertex arrays, buffers, shader programs, textures) are handed out fresh.
 * What the GPU does with the commands is not modelled.
 */
module Gl {
  import opened Wrappers
  import opened UniformNames

  /** Byte size of a 32-bit float (ctypes.c_float) and of a uint32 index. */
  const SizeOfFloat: nat := 4
  const SizeOfUint: nat := 4

  /** An object name returned by glGen* or by a loader; 0 means "unbind". */
  type Handle = nat

  /** Single-precision values of the source are modelled as reals. */
  datatype Vec2 = Vec2(x: real, y: real)
  datatype Vec3 = Vec3(x: real, y: real, z: real)

  /** glm.vec3(s): all three components equal to s. */
  function Splat(s: real): Vec3 {
    Vec3(s, s, s)
  }

  datatype Axis = XAxis | YAxis | ZAxis

  /**
   * 4x4 matrices as terms: an elementary matrix or a product. glm's
   * translate/scale/rotate right-multiply, so `glm.translate(m, v)` is
   * `Times(m, Translation(v))`. Angles are kept in degrees; the glm.radians
   * conversion and the trigonometry behind Rotation, Perspective and LookAt
   * are not evaluated, so two terms are equal only when they are built the
   * same way.
   */
  datatype Mat4 =
    | Identity
    | Translation(offset: Vec3)
    | Scaling(factors: Vec3)
    | Rotation(axis: Axis, degrees: real)
    | Perspective(fovDegrees: real, aspect: real, near: real, far: real)
    | LookAt(eye: Vec3, center: Vec3, up: Vec3)
    | Times(left: Mat4, right: Mat4)

  /** The float cos(radians(degrees)), kept symbolic. */
  datatype Cosine = CosOfDegrees(degrees: real)

  /** A window size, as the windowing layer reports it. */
  datatype Size = Size(width: int, height: int)

  /** The value handed to a glUniform* call. */
  datatype UniformValue =
    | FloatValue(f: real)
    | CosineValue(c: Cosine)
    | Vec3Value(v: Vec3)
    | MatrixValue(m: Mat4)
    | ResolutionValue(size: Option<Size>)

  datatype BufferTarget = ArrayBuffer | ElementArrayBuffer

  /** One OpenGL call (or one loader call) as it appears in the log. */
  datatype Command =
    | GenVertexArray(vao: Handle)
    | GenBuffer(buffer: Handle)
    | LoadShaders(program: Handle, vertexShader: string, fragmentShader: string)
    | LoadTexture(texture: Handle, filename: string)
    | BindVertexArray(vao: Handle)
    | BindBuffer(target: BufferTarget, buffer: Handle)
      // glBufferData: `filled` is false when the data pointer is None
    | BufferData(target: BufferTarget, size: nat, filled: bool)
      // glBufferData on the bound element buffer with its uint32 index array
    | BufferIndices(size: nat, indices: seq<nat>)
    | BufferSubData(target: BufferTarget, offset: nat, size: nat)
      // glVertexAttribPointer with GL_FLOAT components; stride and offset in bytes
    | AttribPointer(slot: nat, components: nat, stride: nat, offset: nat)
    | EnableAttrib(slot: nat)
    | UseProgram(program: Handle)
      // glGetUniformLocation(program, Text(name)) followed by glUniform*
    | Uniform(program: Handle, name: UniformName, value: UniformValue)
    | ActiveTexture(unit: nat)
    | BindTexture(texture: Handle)
    | DrawElements(count: nat)

  /** Regrouping appended stretches of the log. */
  lemma AppendAssoc(a: seq<Command>, b: seq<Command>, c: seq<Command>)
    ensures a + b + c == a + (b + c)
  {
  }

  /** Number of glDrawElements calls in a stretch of the log. */
  function DrawCount(cs: seq<Command>): nat
    decreases |cs|
  {
    if cs == [] then 0 else (if cs[0].DrawElements? then 1 else 0) + DrawCount(cs[1..])
  }

  /** Draw calls of consecutive stretches add up. */
  lemma {:induction false} DrawCountAppend(a: seq<Command>, b: seq<Command>)
    ensures DrawCount(a + b) == DrawCount(a) + DrawCount(b)
    decreases |a|
  {
    if a == [] {
      assert a + b == b;
    } else {
      assert (a + b)[1..] == a[1..] + b;
      DrawCountAppend(a[1..], b);
    }
  }

  /** The texture-unit selections and texture bindings of a stretch of the log, in order. */
  function TextureCommands(cs: seq<Command>): seq<Command>
    decreases |cs|
  {
    if cs == [] then []
    else (if cs[0].ActiveTexture? || cs[0].BindTexture? then [cs[0]] else []) + TextureCommands(cs[1..])
  }

  lemma {:induction false} TextureCommandsAppend(a: seq<Command>, b: seq<Command>)
    ensures TextureCommands(a + b) == TextureCommands(a) + TextureCommands(b)
    decreases |a|
  {
    if a == [] {
      assert a + b == b;
    } else {
      var head := if a[0].ActiveTexture? || a[0].BindTexture? then [a[0]] else [];
      assert (a + b)[0] == a[0];
      assert (a + b)[1..] == a[1..] + b;
      assert TextureCommands(a + b) == head + TextureCommands(a[1..] + b);
      TextureCommandsAppend(a[1..], b);
      AppendAssoc(head, TextureCommands(a[1..]), TextureCommands(b));
    }
  }

  /** No draw call, texture-unit selection or texture binding in the stretch. */
  predicate Quiet(cs: seq<Command>) {
    forall k :: 0 <= k < |cs| ==> !cs[k].DrawElements? && !cs[k].ActiveTexture? && !cs[k].BindTexture?
  }

  /** A quiet stretch adds no draw and no texture command. */
  lemma {:induction false} QuietCounts(cs: seq<Command>)
    requires Quiet(cs)
    ensures DrawCount(cs) == 0 && TextureCommands(cs) == []
    decreases |cs|
  {
    if cs != [] {
      QuietCounts(cs[1..]);
    }
  }

  /** A stretch of texture commands only is its own texture commands, and draws nothing. */
  lemma {:induction false} TextureOnly(cs: seq<Command>)
    requires forall k :: 0 <= k < |cs| ==> cs[k].ActiveTexture? || cs[k].BindTexture?
    ensures DrawCount(cs) == 0 && TextureCommands(cs) == cs
    decreases |cs|
  {
    if cs != [] {
      TextureOnly(cs[1..]);
      assert cs == [cs[0]] + cs[1..];
    }
  }

  /** Some command of the stretch writes the uniform `name`. */
  predicate WritesUniform(cs: seq<Command>, name: UniformName) {
    exists k :: 0 <= k < |cs| && cs[k].Uniform? && cs[k].name == name
  }

  lemma WritesUniformAppend(a: seq<Command>, b: seq<Command>, name: UniformName)
    ensures WritesUniform(a + b, name) <==> WritesUniform(a, name) || WritesUniform(b, name)
  {
    if WritesUniform(a + b, name) {
      var k :| 0 <= k < |a + b| && (a + b)[k].Uniform? && (a + b)[k].name == name;
      if k >= |a| {
        assert b[k - |a|] == (a + b)[k];
      }
    }
    if WritesUniform(a, name) {
      var k :| 0 <= k < |a| && a[k].Uniform? && a[k].name == name;
      assert (a + b)[k] == a[k];
    }
    if WritesUniform(b, name) {
      var k :| 0 <= k < |b| && b[k].Uniform? && b[k].name == name;
      assert (a + b)[|a| + k] == b[k];
    }
  }

  /** The driver state the model keeps: the command log and how many names were issued. */
  class Context {
    var log: seq<Command>
    var issued: nat

    constructor ()
      ensures log == [] && issued == 0
    {
      log := [];
      issued := 0;
    }

    /** Issues one call. */
    method Emit(c: Command)
      modifies this
      ensures log == old(log) + [c]
      ensures issued == old(issued)
    {
      log := log + [c];
    }

    /** Reserves a fresh, non-zero object name without logging anything. */
    method GenName() returns (h: Handle)
      modifies this
      ensures h == old(issued) + 1
      ensures issued == old(issued) + 1
      ensures log == old(log)
    {
      issued := issued + 1;
      h := issued;
    }
  }
}
