/**
 * Material and light descriptors (src/modules/structures.py): values fixed
 * at construction, plus each light's `set_uniforms(program, index)`, which
 * writes the light's fields, in a fixed order, under `dirlights[index]`,
 * `pointlights[index]` or `spotlights[index]`.
 */
module Structures {
  import opened Gl
  import opened UniformNames

  datatype Material = Material(name: string, ambient: Vec3, diffuse: Vec3, specular: Vec3, shininess: real)

  /** Material.__init__: every argument is kept, shininess pre-multiplied by 128. */
  function NewMaterial(name: string, ambient: Vec3, diffuse: Vec3, specular: Vec3, shininess: real): (m: Material)
    ensures m.name == name && m.ambient == ambient && m.diffuse == diffuse && m.specular == specular
    ensures m.shininess == shininess * 128.0
  {
    Material(name, ambient, diffuse, specular, shininess * 128.0)
  }

  /**
   * The three light classes. Python's render loops call `set_uniforms` on
   * whatever they find in a list, so one datatype with a case per class
   * stands for all three.
   */
  datatype Light =
    | DirLight(direction: Vec3, ambient: Vec3, diffuse: Vec3, specular: Vec3)
    | PointLight(position: Vec3, ambient: Vec3, diffuse: Vec3, specular: Vec3,
                 constant: real, linear: real, quadratic: real)
    | SpotLight(position: Vec3, direction: Vec3, ambient: Vec3, diffuse: Vec3, specular: Vec3,
                constant: real, linear: real, quadratic: real, cutOff: Cosine, outerCutOff: Cosine)
  {
    /** The shader array this kind of light is written into. */
    function ArrayName(): string {
      match this
      case DirLight(_, _, _, _) => "dirlights"
      case PointLight(_, _, _, _, _, _, _) => "pointlights"
      case SpotLight(_, _, _, _, _, _, _, _, _, _) => "spotlights"
    }

    /** The fields `set_uniforms` writes, in the order it writes them. */
    function Fields(): seq<string> {
      match this
      case DirLight(_, _, _, _) => ["direction", "ambient", "diffuse", "specular"]
      case PointLight(_, _, _, _, _, _, _) =>
        ["position", "ambient", "diffuse", "specular", "constant", "linear", "quadratic"]
      case SpotLight(_, _, _, _, _, _, _, _, _, _) =>
        ["position", "direction", "ambient", "diffuse", "specular",
         "constant", "linear", "quadratic", "cutOff", "outerCutOff"]
    }

    /** The value written for each field, position by position. */
    function Values(): (vs: seq<UniformValue>)
      ensures |vs| == |Fields()|
    {
      match this
      case DirLight(direction, ambient, diffuse, specular) =>
        [Vec3Value(direction), Vec3Value(ambient), Vec3Value(diffuse), Vec3Value(specular)]
      case PointLight(position, ambient, diffuse, specular, constant, linear, quadratic) =>
        [Vec3Value(position), Vec3Value(ambient), Vec3Value(diffuse), Vec3Value(specular),
         FloatValue(constant), FloatValue(linear), FloatValue(quadratic)]
      case SpotLight(position, direction, ambient, diffuse, specular, constant, linear, quadratic, cutOff, outerCutOff) =>
        [Vec3Value(position), Vec3Value(direction), Vec3Value(ambient), Vec3Value(diffuse), Vec3Value(specular),
         FloatValue(constant), FloatValue(linear), FloatValue(quadratic),
         CosineValue(cutOff), CosineValue(outerCutOff)]
    }

    /** What `set_uniforms(program, index)` writes. */
    function Uniforms(program: Handle, index: nat): seq<Command> {
      Writes(program, ArrayName(), index, Fields(), Values())
    }

    lemma DirUniforms(program: Handle, index: nat)
      requires DirLight?
      ensures Uniforms(program, index) ==
        [Uniform(program, Element("dirlights", index, "direction"), Vec3Value(direction)),
         Uniform(program, Element("dirlights", index, "ambient"), Vec3Value(ambient)),
         Uniform(program, Element("dirlights", index, "diffuse"), Vec3Value(diffuse)),
         Uniform(program, Element("dirlights", index, "specular"), Vec3Value(specular))]
    {
    }

    lemma PointUniforms(program: Handle, index: nat)
      requires PointLight?
      ensures Uniforms(program, index) ==
        [Uniform(program, Element("pointlights", index, "position"), Vec3Value(position)),
         Uniform(program, Element("pointlights", index, "ambient"), Vec3Value(ambient)),
         Uniform(program, Element("pointlights", index, "diffuse"), Vec3Value(diffuse)),
         Uniform(program, Element("pointlights", index, "specular"), Vec3Value(specular)),
         Uniform(program, Element("pointlights", index, "constant"), FloatValue(constant)),
         Uniform(program, Element("pointlights", index, "linear"), FloatValue(linear)),
         Uniform(program, Element("pointlights", index, "quadratic"), FloatValue(quadratic))]
    {
    }

    lemma SpotUniforms(program: Handle, index: nat)
      requires SpotLight?
      ensures Uniforms(program, index) ==
        [Uniform(program, Element("spotlights", index, "position"), Vec3Value(position)),
         Uniform(program, Element("spotlights", index, "direction"), Vec3Value(direction)),
         Uniform(program, Element("spotlights", index, "ambient"), Vec3Value(ambient)),
         Uniform(program, Element("spotlights", index, "diffuse"), Vec3Value(diffuse)),
         Uniform(program, Element("spotlights", index, "specular"), Vec3Value(specular)),
         Uniform(program, Element("spotlights", index, "constant"), FloatValue(constant)),
         Uniform(program, Element("spotlights", index, "linear"), FloatValue(linear)),
         Uniform(program, Element("spotlights", index, "quadratic"), FloatValue(quadratic)),
         Uniform(program, Element("spotlights", index, "cutOff"), CosineValue(cutOff)),
         Uniform(program, Element("spotlights", index, "outerCutOff"), CosineValue(outerCutOff))]
    {
    }

    /** set_uniforms, dispatched on the light's class as Python's method lookup does. */
    method SetUniforms(gl: Context, program: Handle, index: nat)
      modifies gl
      ensures gl.log == old(gl.log) + Uniforms(program, index)
      ensures gl.issued == old(gl.issued)
    {
      match this
      case DirLight(_, _, _, _) => SetDirUniforms(gl, program, index);
      case PointLight(_, _, _, _, _, _, _) => SetPointUniforms(gl, program, index);
      case SpotLight(_, _, _, _, _, _, _, _, _, _) => SetSpotUniforms(gl, program, index);
    }

    /** DirLight.set_uniforms: direction and the three colours under `dirlights[index]`. */
    method SetDirUniforms(gl: Context, program: Handle, index: nat)
      requires DirLight?
      modifies gl
      ensures gl.log == old(gl.log) + Uniforms(program, index)
      ensures gl.issued == old(gl.issued)
    {
      DirUniforms(program, index);
      gl.Emit(Uniform(program, Element("dirlights", index, "direction"), Vec3Value(direction)));
      gl.Emit(Uniform(program, Element("dirlights", index, "ambient"), Vec3Value(ambient)));
      gl.Emit(Uniform(program, Element("dirlights", index, "diffuse"), Vec3Value(diffuse)));
      gl.Emit(Uniform(program, Element("dirlights", index, "specular"), Vec3Value(specular)));
    }

    /** PointLight.set_uniforms: position, colours and attenuation under `pointlights[index]`. */
    method SetPointUniforms(gl: Context, program: Handle, index: nat)
      requires PointLight?
      modifies gl
      ensures gl.log == old(gl.log) + Uniforms(program, index)
      ensures gl.issued == old(gl.issued)
    {
      PointUniforms(program, index);
      gl.Emit(Uniform(program, Element("pointlights", index, "position"), Vec3Value(position)));
      gl.Emit(Uniform(program, Element("pointlights", index, "ambient"), Vec3Value(ambient)));
      gl.Emit(Uniform(program, Element("pointlights", index, "diffuse"), Vec3Value(diffuse)));
      gl.Emit(Uniform(program, Element("pointlights", index, "specular"), Vec3Value(specular)));
      gl.Emit(Uniform(program, Element("pointlights", index, "constant"), FloatValue(constant)));
      gl.Emit(Uniform(program, Element("pointlights", index, "linear"), FloatValue(linear)));
      gl.Emit(Uniform(program, Element("pointlights", index, "quadratic"), FloatValue(quadratic)));
    }

    /** SpotLight.set_uniforms: every field, cutoffs last, under `spotlights[index]`. */
    method SetSpotUniforms(gl: Context, program: Handle, index: nat)
      requires SpotLight?
      modifies gl
      ensures gl.log == old(gl.log) + Uniforms(program, index)
      ensures gl.issued == old(gl.issued)
    {
      SpotUniforms(program, index);
      gl.Emit(Uniform(program, Element("spotlights", index, "position"), Vec3Value(position)));
      gl.Emit(Uniform(program, Element("spotlights", index, "direction"), Vec3Value(direction)));
      gl.Emit(Uniform(program, Element("spotlights", index, "ambient"), Vec3Value(ambient)));
      gl.Emit(Uniform(program, Element("spotlights", index, "diffuse"), Vec3Value(diffuse)));
      gl.Emit(Uniform(program, Element("spotlights", index, "specular"), Vec3Value(specular)));
      gl.Emit(Uniform(program, Element("spotlights", index, "constant"), FloatValue(constant)));
      gl.Emit(Uniform(program, Element("spotlights", index, "linear"), FloatValue(linear)));
      gl.Emit(Uniform(program, Element("spotlights", index, "quadratic"), FloatValue(quadratic)));
      gl.Emit(Uniform(program, Element("spotlights", index, "cutOff"), CosineValue(cutOff)));
      gl.Emit(Uniform(program, Element("spotlights", index, "outerCutOff"), CosineValue(outerCutOff)));
    }
  }

  /** DirLight.__init__ with its default colours: every argument is stored as given. */
  function NewDirLight(direction: Vec3, ambient: Vec3 := Splat(0.2), diffuse: Vec3 := Splat(0.8),
                       specular: Vec3 := Splat(1.0)): (l: Light)
    ensures l.DirLight?
    ensures l.direction == direction
    ensures l.ambient == ambient && l.diffuse == diffuse && l.specular == specular
  {
    DirLight(direction, ambient, diffuse, specular)
  }

  /** PointLight.__init__ with its default colours and attenuation: every argument is stored as given. */
  function NewPointLight(position: Vec3, ambient: Vec3 := Splat(0.2), diffuse: Vec3 := Splat(0.8),
                         specular: Vec3 := Splat(1.0), constant: real := 1.0, linear: real := 0.35,
                         quadratic: real := 0.45): (l: Light)
    ensures l.PointLight?
    ensures l.position == position
    ensures l.ambient == ambient && l.diffuse == diffuse && l.specular == specular
    ensures l.constant == constant && l.linear == linear && l.quadratic == quadratic
  {
    PointLight(position, ambient, diffuse, specular, constant, linear, quadratic)
  }

  /**
   * SpotLight.__init__: the two cutoff angles, given in degrees, are stored
   * as cos(radians(angle)); every other argument is stored as given.
   */
  function NewSpotLight(position: Vec3, direction: Vec3, ambient: Vec3 := Splat(0.2),
                        diffuse: Vec3 := Splat(0.8), specular: Vec3 := Splat(1.0),
                        constant: real := 1.0, linear: real := 0.045, quadratic: real := 0.0075,
                        cutOff: real := 35.0, outerCutOff: real := 45.0): (l: Light)
    ensures l.SpotLight?
    ensures l.cutOff == CosOfDegrees(cutOff) && l.outerCutOff == CosOfDegrees(outerCutOff)
    ensures l.position == position && l.direction == direction
    ensures l.ambient == ambient && l.diffuse == diffuse && l.specular == specular
    ensures l.constant == constant && l.linear == linear && l.quadratic == quadratic
  {
    SpotLight(position, direction, ambient, diffuse, specular, constant, linear, quadratic,
              CosOfDegrees(cutOff), CosOfDegrees(outerCutOff))
  }

  /** The defaults of the three light constructors. */
  lemma LightDefaults(p: Vec3, d: Vec3)
    ensures NewDirLight(d) == DirLight(d, Splat(0.2), Splat(0.8), Splat(1.0))
    ensures NewPointLight(p) == PointLight(p, Splat(0.2), Splat(0.8), Splat(1.0), 1.0, 0.35, 0.45)
    ensures NewSpotLight(p, d) == SpotLight(p, d, Splat(0.2), Splat(0.8), Splat(1.0), 1.0, 0.045, 0.0075,
                                            CosOfDegrees(35.0), CosOfDegrees(45.0))
  {
  }

  /** `<array>[index].<field>` for each field in turn, with its value. */
  function Writes(program: Handle, arrayName: string, index: nat, fields: seq<string>,
                  values: seq<UniformValue>): seq<Command>
    requires |fields| == |values|
  {
    seq(|fields|, k requires 0 <= k < |fields| => Uniform(program, Element(arrayName, index, fields[k]), values[k]))
  }

  /** The uniform a command writes (an empty name for commands that are not uniform writes). */
  function NameOf(c: Command): UniformName {
    if c.Uniform? then c.name else Named("")
  }

  predicate DistinctNames(cs: seq<Command>) {
    forall a, b :: 0 <= a < b < |cs| ==> NameOf(cs[a]) != NameOf(cs[b])
  }

  predicate DisjointNames(cs: seq<Command>, ds: seq<Command>) {
    forall a, b :: 0 <= a < |cs| && 0 <= b < |ds| ==> NameOf(cs[a]) != NameOf(ds[b])
  }

  predicate AllUniforms(cs: seq<Command>) {
    forall k :: 0 <= k < |cs| ==> cs[k].Uniform?
  }

  lemma DistinctConcat(cs: seq<Command>, ds: seq<Command>)
    requires DistinctNames(cs) && DistinctNames(ds) && DisjointNames(cs, ds)
    ensures DistinctNames(cs + ds)
  {
    var e := cs + ds;
    forall a, b | 0 <= a < b < |e| ensures NameOf(e[a]) != NameOf(e[b]) {
      if b < |cs| {
      } else if a < |cs| {
        assert e[b] == ds[b - |cs|];
      } else {
        assert e[a] == ds[a - |cs|] && e[b] == ds[b - |cs|];
      }
    }
  }

  lemma AllUniformsConcat(cs: seq<Command>, ds: seq<Command>)
    requires AllUniforms(cs) && AllUniforms(ds)
    ensures AllUniforms(cs + ds)
  {
    forall k | 0 <= k < |cs + ds| ensures (cs + ds)[k].Uniform? {
      if k >= |cs| {
        assert (cs + ds)[k] == ds[k - |cs|];
      }
    }
  }

  /** One `set_uniforms` call writes each of its names once: the fields of a kind are distinct. */
  lemma UniformsDistinct(l: Light, program: Handle, index: nat)
    ensures AllUniforms(l.Uniforms(program, index))
    ensures DistinctNames(l.Uniforms(program, index))
  {
    var cs := l.Uniforms(program, index);
    var fs := l.Fields();
    forall a, b | 0 <= a < b < |cs| ensures NameOf(cs[a]) != NameOf(cs[b]) {
      assert fs[a] != fs[b];
    }
  }

  /** Every name a light writes lies in its kind's array, at the given index. */
  lemma UniformsUnder(l: Light, program: Handle, index: nat)
    ensures forall k :: 0 <= k < |l.Uniforms(program, index)| ==>
      NameOf(l.Uniforms(program, index)[k]).Element? &&
      NameOf(l.Uniforms(program, index)[k]).arrayName == l.ArrayName() &&
      NameOf(l.Uniforms(program, index)[k]).index == index
  {
  }

  /** Lights written with different indices never write the same uniform, whatever their kinds. */
  lemma UniformsDisjoint(l1: Light, i: nat, l2: Light, j: nat, program: Handle)
    requires i != j
    ensures DisjointNames(l1.Uniforms(program, i), l2.Uniforms(program, j))
  {
    UniformsUnder(l1, program, i);
    UniformsUnder(l2, program, j);
  }

  /** The writes of `for i, light in enumerate(lights): light.set_uniforms(program, i)`. */
  function Enumerate(lights: seq<Light>, program: Handle): seq<Command>
    decreases |lights|
  {
    if lights == [] then []
    else Enumerate(lights[..|lights| - 1], program)
         + lights[|lights| - 1].Uniforms(program, |lights| - 1)
  }

  lemma PrefixExtend(a: seq<Command>, b: seq<Command>, c: seq<Command>)
    requires a <= b
    ensures a <= b + c
  {
    assert (b + c)[..|a|] == b[..|a|];
  }

  /** The writes for the first m lights are a prefix of the writes for the whole list. */
  lemma {:induction false} EnumeratePrefix(lights: seq<Light>, program: Handle, m: nat)
    requires m <= |lights|
    ensures Enumerate(lights[..m], program) <= Enumerate(lights, program)
    decreases |lights|
  {
    var n := |lights|;
    if m == n {
      assert lights[..m] == lights;
    } else {
      EnumeratePrefix(lights[..n - 1], program, m);
      assert lights[..n - 1][..m] == lights[..m];
      PrefixExtend(Enumerate(lights[..m], program), Enumerate(lights[..n - 1], program),
                   lights[n - 1].Uniforms(program, n - 1));
    }
  }

  /**
   * List order: the writes for lights 0..k-1, then light k's writes under
   * index k, form a prefix of the writes for the whole list.
   */
  lemma EnumerateInOrder(lights: seq<Light>, program: Handle, k: nat)
    requires k < |lights|
    ensures Enumerate(lights[..k], program) + lights[k].Uniforms(program, k) <= Enumerate(lights, program)
  {
    var upto := lights[..k + 1];
    EnumeratePrefix(lights, program, k + 1);
    assert upto[..k] == lights[..k];
    assert upto[k] == lights[k];
    assert Enumerate(upto, program) == Enumerate(lights[..k], program) + lights[k].Uniforms(program, k);
  }

  /** No light at index m or beyond writes a name the lights before it wrote. */
  lemma EnumerateAvoids(lights: seq<Light>, program: Handle, l: Light, m: nat)
    requires m >= |lights|
    ensures DisjointNames(Enumerate(lights, program), l.Uniforms(program, m))
  {
    EnumerateUnder(lights, program);
    UniformsUnder(l, program, m);
  }

  /**
   * Enumerating a list writes every name at most once: no two lights of the
   * list share a uniform slot, and no light writes a field twice.
   */
  lemma {:induction false} EnumerateDistinct(lights: seq<Light>, program: Handle)
    ensures AllUniforms(Enumerate(lights, program))
    ensures DistinctNames(Enumerate(lights, program))
    decreases |lights|
  {
    if lights != [] {
      var n := |lights|;
      var front := Enumerate(lights[..n - 1], program);
      var last := lights[n - 1].Uniforms(program, n - 1);
      assert Enumerate(lights, program) == front + last;
      EnumerateDistinct(lights[..n - 1], program);
      UniformsDistinct(lights[n - 1], program, n - 1);
      EnumerateAvoids(lights[..n - 1], program, lights[n - 1], n - 1);
      DistinctConcat(front, last);
      AllUniformsConcat(front, last);
    }
  }

  /**
   * Every name the enumeration writes lies in the array of the light that
   * wrote it, at an index below the list's length.
   */
  lemma {:induction false} EnumerateUnder(lights: seq<Light>, program: Handle)
    ensures forall k :: 0 <= k < |Enumerate(lights, program)| ==>
      NameOf(Enumerate(lights, program)[k]).Element? &&
      NameOf(Enumerate(lights, program)[k]).index < |lights| &&
      NameOf(Enumerate(lights, program)[k]).arrayName
        == lights[NameOf(Enumerate(lights, program)[k]).index].ArrayName()
    decreases |lights|
  {
    if lights != [] {
      var n := |lights|;
      var front := Enumerate(lights[..n - 1], program);
      var last := lights[n - 1].Uniforms(program, n - 1);
      assert Enumerate(lights, program) == front + last;
      EnumerateUnder(lights[..n - 1], program);
      UniformsUnder(lights[n - 1], program, n - 1);
      forall k | 0 <= k < |front + last|
        ensures NameOf((front + last)[k]).Element?
        ensures NameOf((front + last)[k]).index < n
        ensures NameOf((front + last)[k]).arrayName == lights[NameOf((front + last)[k]).index].ArrayName()
      {
        if k < |front| {
          assert (front + last)[k] == front[k];
          var i := NameOf(front[k]).index;
          assert lights[..n - 1][i] == lights[i];
        } else {
          assert (front + last)[k] == last[k - |front|];
          assert NameOf(last[k - |front|]).index == n - 1;
        }
      }
    }
  }

  /** `for i, light in enumerate(lights): light.set_uniforms(program, i)`. */
  method SetLightUniforms(gl: Context, lights: seq<Light>, program: Handle)
    modifies gl
    ensures gl.log == old(gl.log) + Enumerate(lights, program)
    ensures gl.issued == old(gl.issued)
  {
    for i := 0 to |lights|
      invariant gl.log == old(gl.log) + Enumerate(lights[..i], program)
      invariant gl.issued == old(gl.issued)
    {
      EnumerateStep(lights, program, i);
      lights[i].SetUniforms(gl, program, i);
      AppendAssoc(old(gl.log), Enumerate(lights[..i], program), lights[i].Uniforms(program, i));
    }
    assert lights[..|lights|] == lights;
  }

  /** One more turn of the enumeration loop appends light i's writes under index i. */
  lemma EnumerateStep(lights: seq<Light>, program: Handle, i: nat)
    requires i < |lights|
    ensures Enumerate(lights[..i + 1], program) == Enumerate(lights[..i], program) + lights[i].Uniforms(program, i)
  {
    assert lights[..i + 1][..i] == lights[..i];
  }

  /**
   * Enumerating lights writes only uniforms, and only light-array elements:
   * never a plain name such as `material.diffuse`.
   */
  lemma EnumerateOnlyElements(lights: seq<Light>, program: Handle, name: string)
    ensures AllUniforms(Enumerate(lights, program))
    ensures DrawCount(Enumerate(lights, program)) == 0
    ensures TextureCommands(Enumerate(lights, program)) == []
    ensures !WritesUniform(Enumerate(lights, program), Named(name))
  {
    EnumerateDistinct(lights, program);
    EnumerateUnder(lights, program);
    QuietCounts(Enumerate(lights, program));
  }
}
