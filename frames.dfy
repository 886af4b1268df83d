/**
 * What Game.on_update and Game.on_draw do in one frame, as the trace of
 * calls they make on the scenes, the game's own hooks, the camera and the
 * host's matrix stack.
 */
module Frames {
  import opened Scenes

  /** The window centre, width / 2.0 and height / 2.0. */
  datatype Point = Point(x: real, y: real)

  datatype Event =
    | SceneUpdate(scene: Scene, tick: real)   // scene.update(tick)
    | GameUpdate(tick: real)                  // self.update(tick), the overridable hook
    | CameraUpdate(tick: real)                // camera.update(tick)
    | Clear                                   // self.clear()
    | PushMatrix                              // glPushMatrix()
    | CameraReset(center: Point)              // camera.reset(center)
    | GameDraw                                // self.draw(), the overridable hook
    | SceneDraw(scene: Scene)                 // scene.draw()
    | CameraApply(center: Point)              // camera.apply(center)
    | PopMatrix                               // glPopMatrix()
    | FpsDraw                                 // the fps overlay's draw()

  /** One update call per scene, in list order. */
  function SceneUpdates(scenes: seq<Scene>, tick: real): (r: seq<Event>)
    ensures |r| == |scenes|
  {
    if scenes == [] then []
    else SceneUpdates(scenes[..|scenes| - 1], tick) + [SceneUpdate(scenes[|scenes| - 1], tick)]
  }

  /** One draw call per scene, in list order. */
  function SceneDraws(scenes: seq<Scene>): (r: seq<Event>)
    ensures |r| == |scenes|
  {
    if scenes == [] then []
    else SceneDraws(scenes[..|scenes| - 1]) + [SceneDraw(scenes[|scenes| - 1])]
  }

  /**
   * on_update: every scene, then the game's update hook, then the camera.
   * It updates exactly the scenes of the list, once each and in list order.
   */
  function UpdateTrace(scenes: seq<Scene>, tick: real): (r: seq<Event>)
    ensures Updated(r) == scenes
  {
    var hooks := [GameUpdate(tick), CameraUpdate(tick)];
    SceneUpdatesShape(scenes, tick);
    UpdatedAppend(SceneUpdates(scenes, tick), hooks);
    NoUpdates(hooks);
    SceneUpdates(scenes, tick) + hooks
  }

  /**
   * on_draw: an optional clear; then, inside a pushed matrix and the
   * camera's reset/apply, the game's draw hook and every scene; then an
   * optional fps overlay. It draws exactly the scenes of the list, once
   * each and in list order.
   */
  function DrawTrace(scenes: seq<Scene>, autoClear: bool, showFps: bool, center: Point): (r: seq<Event>)
    ensures Drawn(r) == scenes
  {
    var pre := (if autoClear then [Clear] else []) + [PushMatrix, CameraReset(center), GameDraw];
    var post := [CameraApply(center), PopMatrix] + (if showFps then [FpsDraw] else []);
    var draws := SceneDraws(scenes);
    SceneDrawsShape(scenes);
    DrawnBetween(pre, draws, post);
    pre + draws + post
  }

  /** Steps around a stretch of draws that draw no scene add nothing to what is drawn. */
  lemma DrawnBetween(pre: seq<Event>, mid: seq<Event>, post: seq<Event>)
    requires forall i :: 0 <= i < |pre| ==> !pre[i].SceneDraw?
    requires forall i :: 0 <= i < |post| ==> !post[i].SceneDraw?
    ensures Drawn(pre + mid + post) == Drawn(mid)
  {
    NoDraws(pre);
    NoDraws(post);
    DrawnAppend(pre, mid);
    DrawnAppend(pre + mid, post);
  }

  /** The scenes a trace updates, in the order it updates them. */
  function Updated(trace: seq<Event>): seq<Scene>
  {
    if trace == [] then []
    else Updated(trace[..|trace| - 1])
         + (if trace[|trace| - 1].SceneUpdate? then [trace[|trace| - 1].scene] else [])
  }

  /** The scenes a trace draws, in the order it draws them. */
  function Drawn(trace: seq<Event>): seq<Scene>
  {
    if trace == [] then []
    else Drawn(trace[..|trace| - 1])
         + (if trace[|trace| - 1].SceneDraw? then [trace[|trace| - 1].scene] else [])
  }

  lemma {:induction false} UpdatedAppend(s: seq<Event>, t: seq<Event>)
    ensures Updated(s + t) == Updated(s) + Updated(t)
  {
    if t != [] {
      var t' := t[..|t| - 1];
      assert (s + t)[..|s + t| - 1] == s + t';
      UpdatedAppend(s, t');
    } else {
      assert s + t == s;
    }
  }

  lemma {:induction false} DrawnAppend(s: seq<Event>, t: seq<Event>)
    ensures Drawn(s + t) == Drawn(s) + Drawn(t)
  {
    if t != [] {
      var t' := t[..|t| - 1];
      assert (s + t)[..|s + t| - 1] == s + t';
      DrawnAppend(s, t');
    } else {
      assert s + t == s;
    }
  }

  lemma {:induction false} SceneUpdatesShape(scenes: seq<Scene>, tick: real)
    ensures Updated(SceneUpdates(scenes, tick)) == scenes
    ensures forall i :: 0 <= i < |scenes| ==> SceneUpdates(scenes, tick)[i] == SceneUpdate(scenes[i], tick)
  {
    if scenes != [] {
      var init := scenes[..|scenes| - 1];
      SceneUpdatesShape(init, tick);
      UpdatedAppend(SceneUpdates(init, tick), [SceneUpdate(scenes[|scenes| - 1], tick)]);
      assert Updated([SceneUpdate(scenes[|scenes| - 1], tick)]) == [scenes[|scenes| - 1]] by {
        assert [SceneUpdate(scenes[|scenes| - 1], tick)][..0] == [];
      }
      assert init + [scenes[|scenes| - 1]] == scenes;
    }
  }

  lemma {:induction false} SceneDrawsShape(scenes: seq<Scene>)
    ensures Drawn(SceneDraws(scenes)) == scenes
    ensures forall i :: 0 <= i < |scenes| ==> SceneDraws(scenes)[i] == SceneDraw(scenes[i])
  {
    if scenes != [] {
      var init := scenes[..|scenes| - 1];
      SceneDrawsShape(init);
      DrawnAppend(SceneDraws(init), [SceneDraw(scenes[|scenes| - 1])]);
      assert Drawn([SceneDraw(scenes[|scenes| - 1])]) == [scenes[|scenes| - 1]] by {
        assert [SceneDraw(scenes[|scenes| - 1])][..0] == [];
      }
      assert init + [scenes[|scenes| - 1]] == scenes;
    }
  }

  /**
   * on_update makes one call per scene, then calls the game's hook, then
   * the camera.
   */
  lemma UpdateOrder(scenes: seq<Scene>, tick: real)
    ensures var tr := UpdateTrace(scenes, tick);
      && |tr| == |scenes| + 2
      && (forall i :: 0 <= i < |scenes| ==> tr[i].SceneUpdate?)
      && tr[|scenes|] == GameUpdate(tick)
      && tr[|scenes| + 1] == CameraUpdate(tick)
  {
    SceneUpdatesShape(scenes, tick);
  }

  /**
   * on_draw clears exactly when auto_clear is set, and then as its first
   * step; it shows the fps overlay exactly when show_fps is set, and then as
   * its last step.
   */
  lemma DrawOptionalSteps(scenes: seq<Scene>, autoClear: bool, showFps: bool, center: Point)
    ensures var tr := DrawTrace(scenes, autoClear, showFps, center);
      && (Clear in tr <==> autoClear)
      && (FpsDraw in tr <==> showFps)
      && (autoClear ==> tr[0] == Clear)
      && (showFps ==> tr[|tr| - 1] == FpsDraw)
  {
    var pre := (if autoClear then [Clear] else []) + [PushMatrix, CameraReset(center), GameDraw];
    var draws := SceneDraws(scenes);
    var post := [CameraApply(center), PopMatrix] + (if showFps then [FpsDraw] else []);
    assert DrawTrace(scenes, autoClear, showFps, center) == pre + draws + post;
    SceneDrawsShape(scenes);
    assert Clear !in draws && FpsDraw !in draws;
  }

  /**
   * In on_draw, the game's draw hook and every scene draw come strictly
   * inside the pushed matrix and the camera's reset/apply pair, the hook
   * first.
   */
  lemma DrawBracketing(scenes: seq<Scene>, autoClear: bool, showFps: bool, center: Point)
    ensures var tr := DrawTrace(scenes, autoClear, showFps, center);
      var k := if autoClear then 1 else 0;
      && |tr| == k + |scenes| + 5 + (if showFps then 1 else 0)
      && tr[k] == PushMatrix && tr[k + 1] == CameraReset(center) && tr[k + 2] == GameDraw
      && tr[k + 3 + |scenes|] == CameraApply(center) && tr[k + 4 + |scenes|] == PopMatrix
      && (forall i :: 0 <= i < |tr| && tr[i].SceneDraw? ==> k + 2 < i < k + 3 + |scenes|)
  {
    var pre := (if autoClear then [Clear] else []) + [PushMatrix, CameraReset(center), GameDraw];
    var draws := SceneDraws(scenes);
    var post := [CameraApply(center), PopMatrix] + (if showFps then [FpsDraw] else []);
    var tr := DrawTrace(scenes, autoClear, showFps, center);
    var k := if autoClear then 1 else 0;
    assert tr == pre + draws + post;
    assert |pre| == k + 3;
    forall i | 0 <= i < |tr|
      ensures tr[i].SceneDraw? ==> k + 2 < i < k + 3 + |scenes|
    {
      if i < |pre| {
        assert tr[i] == pre[i];
      } else if i >= |pre| + |draws| {
        assert tr[i] == post[i - |pre| - |draws|];
      }
    }
  }

  /** A trace with no scene update in it updates no scene. */
  lemma {:induction false} NoUpdates(tr: seq<Event>)
    requires forall i :: 0 <= i < |tr| ==> !tr[i].SceneUpdate?
    ensures Updated(tr) == []
  {
    if tr != [] {
      NoUpdates(tr[..|tr| - 1]);
    }
  }

  /** A trace with no scene draw in it draws no scene. */
  lemma {:induction false} NoDraws(tr: seq<Event>)
    requires forall i :: 0 <= i < |tr| ==> !tr[i].SceneDraw?
    ensures Drawn(tr) == []
  {
    if tr != [] {
      NoDraws(tr[..|tr| - 1]);
    }
  }
}
