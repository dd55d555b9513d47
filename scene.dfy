/**
 * The scene (src/modules/scene.py): a list of objects rendered in order
 * with the scene's projection and view, where an object whose render fails
 * is reported and skipped and the rest of the frame goes on.
 */
module Scenes {
  import opened Wrappers
  import opened Gl
  import opened Renderable
  import opened LegacyModels

  /** What `set_light` accepts: an object of either model class. */
  datatype SceneObject = Current(model: Model) | Legacy(legacy: BaseModel)
  {
    function Ref(): object {
      if Current? then model else legacy
    }
  }

  /** The part of an object its render reads. */
  datatype Snapshot = CurrentSnapshot(state: ModelState) | LegacySnapshot(legacyState: LegacyState)

  function Snap(o: SceneObject): Snapshot
    reads o.Ref()
  {
    match o
    case Current(m) => CurrentSnapshot(m.State())
    case Legacy(b) => LegacySnapshot(b.State())
  }

  function Refs(objects: seq<SceneObject>): set<object> {
    set k | 0 <= k < |objects| :: objects[k].Ref()
  }

  function Snapshots(objects: seq<SceneObject>): (r: seq<Snapshot>)
    reads Refs(objects)
    ensures |r| == |objects|
    ensures forall k :: 0 <= k < |objects| ==> r[k] == Snap(objects[k])
    decreases |objects|
  {
    if objects == [] then []
    else
      assert Refs(objects[1..]) <= Refs(objects) by {
        forall o | o in Refs(objects[1..]) ensures o in Refs(objects) {
          var k :| 0 <= k < |objects[1..]| && objects[1..][k].Ref() == o;
          assert objects[k + 1].Ref() == o;
        }
      }
      [Snap(objects[0])] + Snapshots(objects[1..])
  }

  /** An object whose fields are as they were still has the same snapshot. */
  twostate lemma SnapUnchanged(o: SceneObject)
    requires unchanged(o.Ref())
    ensures Snap(o) == old(Snap(o))
  {
  }

  /** A render that fails: a bare BaseModel, which has no index count. */
  predicate Fails(s: Snapshot) {
    s.LegacySnapshot? && s.legacyState.indexCount.None?
  }

  /** What one object's render issues, including the calls a failing render issues before it fails. */
  function ObjectCommands(s: Snapshot, projection: Mat4, view: Mat4, args: RenderArgs): seq<Command> {
    match s
    case CurrentSnapshot(st) => RenderCommands(st, projection, view, args)
    case LegacySnapshot(st) =>
      LegacyPrefix(st, projection, view) + (if st.indexCount.Some? then LegacyDraw(st.indexCount.value) else [])
  }

  /** The objects' commands one after the other. */
  function SceneCommands(snaps: seq<Snapshot>, projection: Mat4, view: Mat4, args: RenderArgs): seq<Command>
    decreases |snaps|
  {
    if snaps == [] then []
    else SceneCommands(snaps[..|snaps| - 1], projection, view, args) + ObjectCommands(snaps[|snaps| - 1], projection, view, args)
  }

  /** Positions of the objects whose render fails, in order. */
  function Failures(snaps: seq<Snapshot>): seq<nat>
    decreases |snaps|
  {
    if snaps == [] then []
    else Failures(snaps[..|snaps| - 1]) + (if Fails(snaps[|snaps| - 1]) then [|snaps| - 1] else [])
  }

  /** An object's render draws once, unless it fails, in which case it draws nothing. */
  lemma ObjectDraws(s: Snapshot, projection: Mat4, view: Mat4, args: RenderArgs)
    ensures DrawCount(ObjectCommands(s, projection, view, args)) == if Fails(s) then 0 else 1
  {
    match s
    case CurrentSnapshot(st) =>
      RenderDrawsOnce(st, projection, view, args);
    case LegacySnapshot(st) =>
      if st.indexCount.Some? {
        LegacyRenderDrawsOnce(st, projection, view, st.indexCount.value);
      } else {
        var pre := LegacyPrefix(st, projection, view);
        LegacyPrefixQuiet(st, projection, view);
        assert Quiet(pre);
        QuietCounts(pre);
        assert pre + [] == pre;
      }
  }

  /** Every object that does not fail is drawn exactly once: draws and failures add up to the objects. */
  lemma {:induction false} SceneDrawCount(snaps: seq<Snapshot>, projection: Mat4, view: Mat4, args: RenderArgs)
    ensures DrawCount(SceneCommands(snaps, projection, view, args)) + |Failures(snaps)| == |snaps|
    decreases |snaps|
  {
    if snaps != [] {
      var n := |snaps|;
      var front := SceneCommands(snaps[..n - 1], projection, view, args);
      var last := ObjectCommands(snaps[n - 1], projection, view, args);
      assert SceneCommands(snaps, projection, view, args) == front + last;
      assert |Failures(snaps)| == |Failures(snaps[..n - 1])| + if Fails(snaps[n - 1]) then 1 else 0;
      SceneDrawCount(snaps[..n - 1], projection, view, args);
      ObjectDraws(snaps[n - 1], projection, view, args);
      DrawCountAppend(front, last);
    }
  }

  /**
   * The reported positions are exactly the objects whose render fails, in
   * increasing order.
   */
  lemma {:induction false} FailuresExact(snaps: seq<Snapshot>)
    ensures forall k: nat :: k in Failures(snaps) <==> k < |snaps| && Fails(snaps[k])
    ensures forall a, b :: 0 <= a < b < |Failures(snaps)| ==> Failures(snaps)[a] < Failures(snaps)[b]
    decreases |snaps|
  {
    if snaps != [] {
      var n := |snaps|;
      var front := snaps[..n - 1];
      var last: seq<nat> := if Fails(snaps[n - 1]) then [n - 1] else [];
      FailuresExact(front);
      assert Failures(snaps) == Failures(front) + last;
      forall k: nat ensures k in Failures(snaps) <==> k < n && Fails(snaps[k]) {
        if k < n - 1 {
          assert front[k] == snaps[k];
        }
      }
      forall a, b | 0 <= a < b < |Failures(snaps)| ensures Failures(snaps)[a] < Failures(snaps)[b] {
        if b >= |Failures(front)| {
          assert Failures(snaps)[b] == n - 1;
          assert Failures(snaps)[a] == Failures(front)[a];
          assert Failures(front)[a] in Failures(front);
        }
      }
    }
  }

  /** One more object: its commands follow the earlier objects', and its position is reported when it fails. */
  lemma SceneStep(snaps: seq<Snapshot>, i: nat, projection: Mat4, view: Mat4, args: RenderArgs)
    requires i < |snaps|
    ensures SceneCommands(snaps[..i + 1], projection, view, args) == SceneCommands(snaps[..i], projection, view, args) + ObjectCommands(snaps[i], projection, view, args)
    ensures Failures(snaps[..i + 1]) == Failures(snaps[..i]) + (if Fails(snaps[i]) then [i] else [])
  {
    assert snaps[..i + 1][..i] == snaps[..i];
  }

  /** One turn of the scene's loop: the log and the failures grow by object i's share. */
  lemma LoopStep(start: seq<Command>, before: seq<Command>, after: seq<Command>, snaps: seq<Snapshot>, i: nat,
                 projection: Mat4, view: Mat4, args: RenderArgs)
    requires i < |snaps|
    requires before == start + SceneCommands(snaps[..i], projection, view, args)
    requires after == before + ObjectCommands(snaps[i], projection, view, args)
    ensures after == start + SceneCommands(snaps[..i + 1], projection, view, args)
    ensures Failures(snaps[..i + 1]) == Failures(snaps[..i]) + (if Fails(snaps[i]) then [i] else [])
  {
    SceneStep(snaps, i, projection, view, args);
    AppendAssoc(start, SceneCommands(snaps[..i], projection, view, args), ObjectCommands(snaps[i], projection, view, args));
  }

  class Scene {
    var objects: seq<SceneObject>
    var lightSources: seq<SceneObject>
    var backgroundColor: Vec3
    var backgroundTexture: Option<Handle>
    var aspect: real
    var projection: Mat4
    var view: Mat4

    /**
     * Scene(aspect): no objects and no light sources, a black background
     * without texture, a 90-degree perspective for the aspect with planes
     * at 0.01 and 100, and a camera at (0, 0, 2) looking at the origin
     * with +y up.
     */
    constructor (aspect: real)
      ensures objects == [] && lightSources == []
      ensures backgroundColor == Splat(0.0) && backgroundTexture.None?
      ensures this.aspect == aspect
      ensures projection == Perspective(90.0, aspect, 0.01, 100.0)
      ensures view == LookAt(Vec3(0.0, 0.0, 2.0), Splat(0.0), Vec3(0.0, 1.0, 0.0))
    {
      objects := [];
      lightSources := [];
      backgroundColor := Splat(0.0);
      backgroundTexture := None;
      this.aspect := aspect;
      projection := Perspective(90.0, aspect, 0.01, 100.0);
      view := LookAt(Vec3(0.0, 0.0, 2.0), Splat(0.0), Vec3(0.0, 1.0, 0.0));
    }

    /**
     * render: every object in order, with the scene's matrices and the
     * caller's arguments; a failing object leaves the calls it made, is
     * reported, and the next object is rendered. Neither the scene nor any
     * object changes.
     */
    method Render(gl: Context, args: RenderArgs := RenderArgs()) returns (failed: seq<nat>)
      requires gl !in Refs(objects)
      modifies gl
      ensures gl.log == old(gl.log) + SceneCommands(old(Snapshots(objects)), projection, view, args)
      ensures failed == Failures(old(Snapshots(objects)))
      ensures gl.issued == old(gl.issued)
    {
      ghost var snaps := Snapshots(objects);
      assert forall k :: 0 <= k < |objects| ==> objects[k].Ref() in Refs(objects);
      failed := [];
      for i := 0 to |objects|
        invariant gl.log == old(gl.log) + SceneCommands(snaps[..i], projection, view, args)
        invariant failed == Failures(snaps[..i])
        invariant gl.issued == old(gl.issued)
        invariant forall k :: 0 <= k < |objects| ==> objects[k].Ref() != gl
      {
        assert old(allocated(objects[i]));
        assert old(allocated(objects[i].Ref()));
        SnapUnchanged(objects[i]);
        ghost var before := gl.log;
        var ok := RenderObject(gl, objects[i], snaps[i], projection, view, args);
        LoopStep(old(gl.log), before, gl.log, snaps, i, projection, view, args);
        if !ok {
          failed := failed + [i];
        }
      }
      assert snaps[..|objects|] == snaps;
    }

    /** set_light: appends the object, when one is given, to the objects rendered. */
    method SetLight(model: Option<SceneObject> := None)
      modifies this`objects
      ensures objects == old(objects) + (if model.Some? then [model.value] else [])
    {
      if model.Some? {
        objects := objects + [model.value];
      }
    }
  }

  /** One object's render inside the scene's loop; `ok` is false exactly when it fails. */
  method RenderObject(gl: Context, o: SceneObject, ghost snap: Snapshot, projection: Mat4, view: Mat4, args: RenderArgs)
    returns (ok: bool)
    requires gl != o.Ref() && Snap(o) == snap
    modifies gl
    ensures ok == !Fails(snap)
    ensures gl.log == old(gl.log) + ObjectCommands(snap, projection, view, args)
    ensures gl.issued == old(gl.issued)
  {
    match o
    case Current(m) =>
      var _ := m.Render(gl, projection, view, args);
      ok := true;
    case Legacy(b) =>
      var r := b.Render(gl, projection, view, args);
      ok := r.Ok?;
      if r.Err? {
        assert LegacyPrefix(b.State(), projection, view) + [] == LegacyPrefix(b.State(), projection, view);
      }
  }
}
