/**
 * Game, the composition root: it owns the scene stack, the two scheduler
 * registries and the frame hooks, and talks to the host window and the
 * host clock. In the source Game inherits WindowProxy; here it holds one.
 */
module Engine {
  import opened Wrappers
  import opened Scenes
  import opened Scheduler
  import opened Frames
  import opened Window

  class Game {
    const window: WindowProxy
    /** The host clock the game schedules on (pyglet.clock). */
    const clock: Clock

    var scenes: seq<Scene>
    var mainScene: Option<Scene>
    var autoClear: bool
    var showFps: bool
    /** Per-frame registrations, each a Frame entry. */
    var scheduledCalls: seq<Entry>
    /** Interval registrations, each an Interval entry. */
    var scheduledIntervalCalls: seq<Entry>
    /** The calls made on scenes, hooks, camera and matrix stack, oldest first. */
    var log: seq<Event>

    ghost predicate Valid()
      reads this
    {
      && StackOk(Stack(scenes, mainScene))
      && (forall e :: e in scheduledCalls ==> e.Frame?)
      && (forall e :: e in scheduledIntervalCalls ==> e.Interval?)
    }

    ghost function SceneStack(): Stack
      reads this
    {
      Stack(scenes, mainScene)
    }

    /** Every callback that has a record in either registry. */
    ghost function Registered(): set<Callback>
      reads this
    {
      Callbacks(scheduledIntervalCalls + scheduledCalls)
    }

    /** The window centre, width / 2.0 and height / 2.0 (the center property). */
    function Center(): (c: Point)
      reads window
      ensures c.x * 2.0 == window.width as real && c.y * 2.0 == window.height as real
    {
      Point(window.width as real / 2.0, window.height as real / 2.0)
    }

    /**
     * The bookkeeping part of Game.__init__: empty stack and registries,
     * auto_clear on, show_fps off, and on_update scheduled on the clock
     * every frame without arguments.
     */
    constructor (window: WindowProxy, clock: Clock, onUpdate: Callback)
      modifies clock
      ensures Valid()
      ensures this.window == window && this.clock == clock
      ensures scenes == [] && mainScene == None && autoClear && !showFps
      ensures scheduledCalls == [] && scheduledIntervalCalls == [] && log == []
      ensures clock.entries == old(clock.entries) + [Frame(onUpdate, [], map[])]
    {
      this.window := window;
      this.clock := clock;
      mainScene := None;
      scenes := [];
      autoClear := true;
      showFps := false;
      scheduledCalls := [];
      scheduledIntervalCalls := [];
      log := [];
      new;
      clock.Schedule(onUpdate, [], map[]);
    }

    /**
     * add_scene: sets scene.game, runs load_content (whose outcome is
     * `loaded`), then inserts the scene by the main/popup rule. On an error
     * the stack is as it was.
     */
    method AddScene(scene: Scene, loaded: bool) returns (r: Outcome<SceneError>)
      requires Valid()
      modifies this, scene
      ensures Valid()
      ensures scene.game == this
      ensures var expected := Add(old(SceneStack()), scene, loaded);
        && (expected.Success? ==> r == Pass && SceneStack() == expected.value)
        && (expected.Failure? ==> r == Fail(expected.error) && SceneStack() == old(SceneStack()))
      ensures scheduledCalls == old(scheduledCalls) && scheduledIntervalCalls == old(scheduledIntervalCalls)
      ensures log == old(log) && autoClear == old(autoClear) && showFps == old(showFps)
    {
      scene.game := this;
      AddKeepsStackOk(SceneStack(), scene, loaded);
      if !loaded {
        return Fail(LoadFailed);
      }
      if !scene.popup {
        if mainScene.Some? {
          r := RemoveScene(mainScene.value);
          if r.Fail? {
            return;
          }
        }
        mainScene := Some(scene);
        scenes := [scene] + scenes;
      } else {
        scenes := scenes + [scene];
      }
      r := Pass;
    }

    /** remove_scene: list.remove on the scene list; the main slot is left as it is. */
    method RemoveScene(scene: Scene) returns (r: Outcome<SceneError>)
      requires Valid()
      modifies this
      ensures Valid()
      ensures var expected := Remove(old(SceneStack()), scene);
        && (expected.Success? ==> r == Pass && SceneStack() == expected.value)
        && (expected.Failure? ==> r == Fail(expected.error) && SceneStack() == old(SceneStack()))
      ensures scheduledCalls == old(scheduledCalls) && scheduledIntervalCalls == old(scheduledIntervalCalls)
      ensures log == old(log) && autoClear == old(autoClear) && showFps == old(showFps)
    {
      RemoveKeepsStackOk(SceneStack(), scene);
      match RemoveFirst(scenes, scene)
      case None =>
        return Fail(NotInList);
      case Some(rest) =>
        scenes := rest;
        return Pass;
    }

    /** schedule: one live per-frame entry and one per-frame record. */
    method Schedule(cb: Callback, args: seq<Value>, kwargs: map<string, Value>)
      requires Valid()
      modifies this, clock
      ensures Valid()
      ensures clock.entries == old(clock.entries) + [Frame(cb, args, kwargs)]
      ensures scheduledCalls == old(scheduledCalls) + [Frame(cb, args, kwargs)]
      ensures scheduledIntervalCalls == old(scheduledIntervalCalls)
      ensures SceneStack() == old(SceneStack()) && log == old(log)
      ensures autoClear == old(autoClear) && showFps == old(showFps)
    {
      clock.Schedule(cb, args, kwargs);
      scheduledCalls := scheduledCalls + [Frame(cb, args, kwargs)];
    }

    /** schedule_interval: one live interval entry and one interval record. */
    method ScheduleInterval(cb: Callback, interval: real, args: seq<Value>, kwargs: map<string, Value>)
      requires Valid()
      modifies this, clock
      ensures Valid()
      ensures clock.entries == old(clock.entries) + [Interval(cb, interval, args, kwargs)]
      ensures scheduledIntervalCalls == old(scheduledIntervalCalls) + [Interval(cb, interval, args, kwargs)]
      ensures scheduledCalls == old(scheduledCalls)
      ensures SceneStack() == old(SceneStack()) && log == old(log)
      ensures autoClear == old(autoClear) && showFps == old(showFps)
    {
      clock.ScheduleInterval(cb, interval, args, kwargs);
      scheduledIntervalCalls := scheduledIntervalCalls + [Interval(cb, interval, args, kwargs)];
    }

    /**
     * unschedule: drops every record of cb from both registries, keeping
     * the rest in order, and every live entry of cb; an unknown cb is no
     * error.
     */
    method Unschedule(cb: Callback)
      requires Valid()
      modifies this, clock
      ensures Valid()
      ensures scheduledCalls == Detached(old(scheduledCalls), {cb})
      ensures scheduledIntervalCalls == Detached(old(scheduledIntervalCalls), {cb})
      ensures clock.entries == Detached(old(clock.entries), {cb})
      ensures SceneStack() == old(SceneStack()) && log == old(log)
      ensures autoClear == old(autoClear) && showFps == old(showFps)
    {
      scheduledCalls := Detached(scheduledCalls, {cb});
      scheduledIntervalCalls := Detached(scheduledIntervalCalls, {cb});
      clock.Unschedule(cb);
    }

    /**
     * pause_scheduler: unschedules, in no particular order, every callback
     * with a record, then every per-frame callback once more. The
     * registries stay; live entries of other callbacks stay.
     */
    method PauseScheduler()
      requires Valid()
      modifies clock
      ensures clock.entries == Detached(old(clock.entries), Registered())
    {
      var pending := Callbacks(scheduledIntervalCalls + scheduledCalls);
      ghost var done: set<Callback> := {};
      DetachedKeeps(clock.entries, done);
      while pending != {}
        modifies clock
        invariant done + pending == Registered()
        invariant clock.entries == Detached(old(clock.entries), done)
        decreases pending
      {
        var f :| f in pending;
        clock.Unschedule(f);
        DetachedTwice(old(clock.entries), done, {f});
        pending := pending - {f};
        done := done + {f};
      }
      for i := 0 to |scheduledCalls|
        modifies clock
        invariant clock.entries == Detached(old(clock.entries), Registered())
      {
        var f := scheduledCalls[i].cb;
        assert scheduledCalls[i] in scheduledIntervalCalls + scheduledCalls;
        clock.Unschedule(f);
        DetachedTwice(old(clock.entries), Registered(), {f});
        assert Registered() + {f} == Registered();
      }
    }

    /**
     * resume_scheduler: schedules every interval record, then every
     * per-frame record, each with its own interval and arguments, and
     * without checking what is already live.
     */
    method ResumeScheduler()
      requires Valid()
      modifies clock
      ensures clock.entries == old(clock.entries) + scheduledIntervalCalls + scheduledCalls
    {
      for i := 0 to |scheduledIntervalCalls|
        modifies clock
        invariant clock.entries == old(clock.entries) + scheduledIntervalCalls[..i]
      {
        var c := scheduledIntervalCalls[i];
        assert c in scheduledIntervalCalls;
        clock.ScheduleInterval(c.cb, c.interval, c.args, c.kwargs);
        assert scheduledIntervalCalls[..i + 1] == scheduledIntervalCalls[..i] + [c];
      }
      assert scheduledIntervalCalls[..|scheduledIntervalCalls|] == scheduledIntervalCalls;
      ghost var resumed := clock.entries;
      for i := 0 to |scheduledCalls|
        modifies clock
        invariant clock.entries == resumed + scheduledCalls[..i]
      {
        var c := scheduledCalls[i];
        assert c in scheduledCalls;
        clock.Schedule(c.cb, c.args, c.kwargs);
        assert scheduledCalls[..i + 1] == scheduledCalls[..i] + [c];
      }
      assert scheduledCalls[..|scheduledCalls|] == scheduledCalls;
    }

    /**
     * on_update: each scene of the list (as it was when the frame began),
     * then the update hook, then the camera.
     */
    method OnUpdate(tick: real)
      modifies this`log
      ensures log == old(log) + UpdateTrace(scenes, tick)
    {
      var snapshot := scenes;
      for i := 0 to |snapshot|
        invariant log == old(log) + SceneUpdates(snapshot[..i], tick)
      {
        assert snapshot[..i + 1][..i] == snapshot[..i];
        log := log + [SceneUpdate(snapshot[i], tick)];
      }
      assert snapshot[..|snapshot|] == snapshot;
      log := log + [GameUpdate(tick)];
      log := log + [CameraUpdate(tick)];
    }

    /**
     * on_draw: clear if auto_clear; push the matrix and reset the camera
     * on the window centre; the draw hook; each scene of the list (as it
     * was when the frame began); apply the camera and pop; the fps overlay
     * if show_fps.
     */
    method OnDraw()
      modifies this`log
      ensures log == old(log) + DrawTrace(scenes, autoClear, showFps, Center())
    {
      var center := Center();
      ghost var start := log;
      if autoClear {
        log := log + [Clear];
      }
      log := log + [PushMatrix];
      log := log + [CameraReset(center)];
      log := log + [GameDraw];
      ghost var framed := log;
      DrawScenes(scenes);
      ghost var drawn := log;
      log := log + [CameraApply(center)];
      log := log + [PopMatrix];
      if showFps {
        log := log + [FpsDraw];
      }
      DrawTraceSplit(start, framed, drawn, log, scenes, autoClear, showFps, center);
    }

    /** The scene loop of on_draw, over the list as it was when the loop began. */
    method DrawScenes(snapshot: seq<Scene>)
      modifies this`log
      ensures log == old(log) + SceneDraws(snapshot)
    {
      for i := 0 to |snapshot|
        invariant log == old(log) + SceneDraws(snapshot[..i])
      {
        assert snapshot[..i + 1][..i] == snapshot[..i];
        log := log + [SceneDraw(snapshot[i])];
      }
      assert snapshot[..|snapshot|] == snapshot;
    }
  }

  /** The three stretches of on_draw's log put together make its trace. */
  lemma DrawTraceSplit(start: seq<Event>, framed: seq<Event>, drawn: seq<Event>, finished: seq<Event>,
                       scenes: seq<Scene>, autoClear: bool, showFps: bool, center: Point)
    requires framed == start + (if autoClear then [Clear] else []) + [PushMatrix, CameraReset(center), GameDraw]
    requires drawn == framed + SceneDraws(scenes)
    requires finished == drawn + [CameraApply(center), PopMatrix] + (if showFps then [FpsDraw] else [])
    ensures finished == start + DrawTrace(scenes, autoClear, showFps, center)
  {
  }

  /**
   * On a new game: schedule(cb1, x=1), schedule_interval(cb2, 0.5), then
   * pause_scheduler leaves only on_update live, and resume_scheduler brings
   * back cb2 every 0.5 seconds and cb1 every frame, with their arguments.
   */
  method PauseResumeExample(onUpdate: Callback, cb1: Callback, cb2: Callback, one: Value)
    returns (paused: seq<Entry>, resumed: seq<Entry>)
    requires onUpdate != cb1 && onUpdate != cb2
    ensures paused == [Frame(onUpdate, [], map[])]
    ensures resumed == paused + [Interval(cb2, 0.5, [], map[]), Frame(cb1, [], map["x" := one])]
  {
    var window := new WindowProxy(800, 600);
    var clock := new Clock([]);
    var game := new Game(window, clock, onUpdate);
    game.Schedule(cb1, [], map["x" := one]);
    game.ScheduleInterval(cb2, 0.5, [], map[]);
    assert game.scheduledIntervalCalls + game.scheduledCalls
        == [Interval(cb2, 0.5, [], map[]), Frame(cb1, [], map["x" := one])];
    ghost var registered := [Frame(cb1, [], map["x" := one]), Interval(cb2, 0.5, [], map[])];
    CallbacksOfPair(Interval(cb2, 0.5, [], map[]), Frame(cb1, [], map["x" := one]));
    CallbacksOfPair(Frame(cb1, [], map["x" := one]), Interval(cb2, 0.5, [], map[]));
    assert game.Registered() == Callbacks(registered);
    assert clock.entries == [Frame(onUpdate, [], map[])] + registered;
    PauseLeavesOthers([Frame(onUpdate, [], map[])], registered);
    game.PauseScheduler();
    paused := clock.entries;
    game.ResumeScheduler();
    resumed := clock.entries;
  }

  lemma CallbacksOfPair(a: Entry, b: Entry)
    ensures Callbacks([a, b]) == {a.cb, b.cb}
  {
    assert a in [a, b] && b in [a, b];
  }

  /**
   * Main s1, popup s2, main s3 leaves [s3, s2]; removing s3 by hand and
   * then adding a new main scene s4 raises, and the list stays [s2].
   */
  method SceneStackExample(onUpdate: Callback)
    returns (s2: Scene, s3: Scene, replaced: seq<Scene>, r: Outcome<SceneError>, after: seq<Scene>)
    ensures replaced == [s3, s2]
    ensures r == Fail(NotInList) && after == [s2]
  {
    var window := new WindowProxy(800, 600);
    var clock := new Clock([]);
    var game := new Game(window, clock, onUpdate);
    var s1 := new Scene(false);
    s2 := new Scene(true);
    s3 := new Scene(false);
    ReplaceMainExample(s1, s2, s3);
    r := game.AddScene(s1, true);
    assert game.SceneStack() == Stack([s1], Some(s1));
    r := game.AddScene(s2, true);
    assert game.SceneStack() == Stack([s1, s2], Some(s1));
    r := game.AddScene(s3, true);
    assert game.SceneStack() == Stack([s3, s2], Some(s3));
    replaced := game.scenes;
    r := game.RemoveScene(s3);
    var s4 := new Scene(false);
    AddAfterMainRemoved(Stack([s3, s2], Some(s3)), s4);
    assert game.SceneStack() == Remove(Stack([s3, s2], Some(s3)), s3).value;
    r := game.AddScene(s4, true);
    after := game.scenes;
  }
}
