# batma game-loop bookkeeping, modelled in Dafny

This project models the bookkeeping inside `Game` and `WindowProxy` of the
batma engine (`batma/engine2.py`), the part of the game loop that does not
just forward calls to pyglet and OpenGL:

- **Scene stack** (`Scenes`, `Engine.Game.AddScene` / `RemoveScene`): the list
  `_scenes` and the `_main_scene` slot. A non-popup scene evicts the previous
  main scene (first occurrence, via `list.remove`) and is inserted at index 0.
  A popup scene is appended. `remove_scene` raises when the scene is absent
  and never clears the main slot, so adding a new main scene after the main
  scene was removed by hand raises `ValueError` and leaves the stack as it
  was. Scenes are objects compared by identity, on the assumption that
  the scene class does not redefine `==`.
- **Scheduler registries** (`Scheduler`, `Engine.Game.Schedule` ...
  `ResumeScheduler`): `scheduled_calls` and `scheduled_interval_calls`, kept
  beside the host clock's live entries (`Scheduler.Clock`, standing for
  `pyglet.clock`). Per-frame and interval registrations share one record
  type, `Entry`; a callback is compared with Python's `==`, abstracted as Dafny equality on an opaque type.
  `pause_scheduler` detaches every registered callback and keeps the
  registries. `resume_scheduler` re-attaches all records, interval records
  first, with no de-duplication.
- **Letterbox** (`Letterbox`, `Window.WindowProxy.OnResize`): the usable
  size and centring offset computed from the physical and virtual sizes.
- **Frame ordering** (`Frames`, `Engine.Game.OnUpdate` / `OnDraw`): each
  frame's calls on scenes, hooks, camera and matrix stack, as an event trace.
- **Background colour**: the alpha default of `set_background_color`.

Modules: `Wrappers` (Option/Result/Outcome), `Letterbox`, `Window`, `Scenes`,
`Scheduler`, `Frames`, `Engine`. The Python `Game` inherits `WindowProxy`;
here `Game` holds its `WindowProxy` and its `Clock` as constant fields.

Behaviour of the code worth knowing:
- After `pause_scheduler`, the clock still holds the game's own `on_update`
  (scheduled by the constructor at line 195). Only the registered callbacks
  are detached, so the clock is not empty.
- A zero virtual width or height is not rejected or clamped. It raises
  `ZeroDivisionError`. A zero usable height raises in `set_projection`, after
  `on_resize` has already written the letterbox fields.
- `add_scene` sets `scene.game` before `load_content` runs. A failed load
  leaves the stack untouched, but `scene.game` stays set.

## Model

| member | source | states |
|---|---|---|
| Letterbox.Fit | batma/engine2.py:96-103 | the letterbox computation raises exactly when the virtual width or height is zero |
| Letterbox.FitIsCentredLetterbox | batma/engine2.py:96-107 | usable size within the window, offsets centre it (to one pixel), one axis filled, the other the largest whole size keeping the virtual aspect ratio |
| Letterbox.WidescreenExample | batma/engine2.py:96-107 | virtual 800x600 in a 1600x900 window gives usable 1200x900 at offset (200, 0) |
| Window.Normalised | batma/engine2.py:70-77 | the stored colour times 255 gives back each given channel; alpha is 255 when omitted; fewer than three channels raise |
| Window.OmittedAlphaIsOpaque | batma/engine2.py:71 | three channels mean the same as those three with alpha 255, i.e. alpha 1.0 |
| Window.WindowProxy.constructor | batma/engine2.py:52-61 | virtual size and usable size start as the window size, offsets at zero, background (0, 0, 0, 0) |
| Window.WindowProxy.OnResize | batma/engine2.py:96-108 | the letterbox fields become the computed letterbox; a zero virtual dimension raises with nothing written; a zero usable height raises after writing |
| Window.WindowProxy.SetProjection | batma/engine2.py:113-119 | the projection's aspect ratio raises exactly when the usable height is zero |
| Window.WindowProxy.SetBackgroundColor | batma/engine2.py:70-77 | stores the normalised colour; too few channels raise and keep the old colour; nothing else changes |
| Scenes.IndexOf | batma/engine2.py:353 | the position list.remove deletes holds the scene and no earlier position does |
| Scenes.RemoveFirst | batma/engine2.py:351-353 | list.remove deletes exactly the first occurrence, and fails exactly when the scene is absent |
| Scenes.Remove | batma/engine2.py:351-353 | remove_scene fails exactly when the scene is absent, shortens the list by one and keeps the main slot |
| Scenes.Add | batma/engine2.py:340-349 | a failed load raises; a successful add puts the scene in the list |
| Scenes.StackShape | batma/engine2.py:340-353 | under the stack invariant the list is the main scene (if still present) followed by the popups |
| Scenes.AddMainScene | batma/engine2.py:343-347 | a new main scene goes to index 0 and the main slot; the old main scene is gone; popups keep their order |
| Scenes.AddPopupScene | batma/engine2.py:348-349 | a popup is appended; main slot and other entries unchanged |
| Scenes.AddAfterMainRemoved | batma/engine2.py:340-353 | after the main scene is removed by hand, adding any non-popup scene raises ValueError |
| Scenes.AddKeepsStackOk | batma/engine2.py:340-349 | add_scene keeps at most one non-popup scene, the main one, at index 0 |
| Scenes.RemoveKeepsStackOk | batma/engine2.py:351-353 | remove_scene keeps that invariant |
| Scenes.ReplaceMainExample | batma/engine2.py:340-349 | main S1, popup S2, main S3 gives [S3, S2] with S3 main |
| Scheduler.Detached | batma/engine2.py:277-284 | the filter keeps exactly the entries whose callback is not removed, never adding any |
| Scheduler.DetachedAppend | batma/engine2.py:277-282 | the filter keeps the surviving records in their order |
| Scheduler.DetachedKeeps | batma/engine2.py:259-284 | unscheduling callbacks that have no entry changes nothing (no error) |
| Scheduler.DetachedDrops | batma/engine2.py:301-305 | entries of detached callbacks all disappear |
| Scheduler.DetachedTwice | batma/engine2.py:301-307 | unscheduling callbacks one after another detaches their union |
| Scheduler.DetachedIdempotent | batma/engine2.py:296-307 | pausing twice has the effect of pausing once |
| Scheduler.PauseLeavesOthers | batma/engine2.py:286-307 | pausing leaves exactly the live entries of unregistered callbacks such as on_update |
| Scheduler.PauseResumeRestores | batma/engine2.py:286-307 | for any clock holding the registered records beside other entries, pausing then resuming gives back every live entry exactly as often as before |
| Scheduler.ScheduleThenUnschedule | batma/engine2.py:234-284 | schedule(f) followed by unschedule(f) leaves a list as it was without f's entries |
| Scheduler.Clock.Schedule | batma/engine2.py:256 | pyglet's schedule adds one live per-frame entry |
| Scheduler.Clock.ScheduleInterval | batma/engine2.py:229 | pyglet's schedule_interval adds one live interval entry |
| Scheduler.Clock.Unschedule | batma/engine2.py:263-284 | pyglet's unschedule removes every live entry of the callback |
| Frames.UpdateTrace | batma/engine2.py:310-315 | the calls of on_update update exactly the listed scenes, once each, in list order |
| Frames.UpdateOrder | batma/engine2.py:310-315 | on_update makes one scene call per listed scene, then the update hook, then the camera |
| Frames.DrawTrace | batma/engine2.py:317-337 | the calls of on_draw draw exactly the listed scenes, once each, in list order |
| Frames.DrawOptionalSteps | batma/engine2.py:322-337 | on_draw clears exactly when auto_clear is set, and then as its first step; it draws the fps overlay exactly when show_fps is set, and then as its last step |
| Frames.DrawBracketing | batma/engine2.py:325-334 | the draw hook and every scene draw lie strictly inside push/camera.reset ... camera.apply/pop |
| Engine.Game.Center | batma/engine2.py:88-90 | the centre is half the window's width and half its height |
| Engine.Game.constructor | batma/engine2.py:175-195 | empty stack and registries, auto_clear on, show_fps off, on_update added to the clock |
| Engine.Game.AddScene | batma/engine2.py:340-349 | sets scene.game; the stack becomes the Add result, or is unchanged on error; invariant kept; registries untouched |
| Engine.Game.RemoveScene | batma/engine2.py:351-353 | the stack becomes the Remove result, or is unchanged on error; invariant kept |
| Engine.Game.Schedule | batma/engine2.py:234-257 | one live per-frame entry and one per-frame record appended; interval registry untouched |
| Engine.Game.ScheduleInterval | batma/engine2.py:207-232 | one live interval entry and one interval record appended; per-frame registry untouched |
| Engine.Game.Unschedule | batma/engine2.py:259-284 | both registries and the live clock lose exactly the callback's entries, in order |
| Engine.Game.PauseScheduler | batma/engine2.py:296-307 | the live clock loses every entry of a registered callback and nothing else; registries untouched |
| Engine.Game.ResumeScheduler | batma/engine2.py:286-294 | the live clock gains the interval records then the per-frame records, in registry order |
| Engine.Game.OnUpdate | batma/engine2.py:310-315 | the calls made are the update trace of the scene list |
| Engine.Game.OnDraw | batma/engine2.py:317-337 | the calls made are the draw trace of the scene list, flags and window centre |
| Engine.Game.DrawScenes | batma/engine2.py:330-331 | the scene loop of on_draw draws each listed scene once, in order |
| Engine.PauseResumeExample | batma/engine2.py:207-307 | schedule(cb1, x=1), schedule_interval(cb2, 0.5), pause leaves only on_update; resume brings back cb2 then cb1 with their arguments |
| Engine.SceneStackExample | batma/engine2.py:340-353 | main, popup, main gives [S3, S2]; removing S3 then adding a main scene raises and leaves [S2] |

## Left out

- Letterbox.Fit: computes over exact rationals. The source goes through the float `vw/float(vh)`, where rounding can make a product land one pixel short of its exact value. Physical and virtual sizes are naturals, so negative sizes are not modelled.
- Window.Normalised: divides by 255 in exact reals. The float round trip through `get_background_color` (`int(x*255)`) is not modelled, because truncating IEEE doubles cannot be stated faithfully here.
- Window.WindowProxy.OnResize: does not update `width`/`height`. The host window sets them before it dispatches `on_resize`.
- All OpenGL and pyglet directives: `glViewport`, `gluPerspective`/`gluLookAt` with the 60 degree field of view and the `vh/1.1566` eye distance, `set_alpha_blending`, `set_depth_test`, `glClearColor`. They are foreign calls with float constants. Only their order inside `on_draw` is kept, as trace events.
- `Batch`, `KeyboardState`/`MouseState`, resource paths, `ClockDisplay` and the window setup in `Game.__init__` (caption, mouse, the LAVANDERBLUE background, the `initialize`/`load_content` hooks). These are host and library plumbing. `batma.colors` is not part of this model.
- Camera and Scene internals. `batma/camera.py` and `batma/scene.py` are not part of this model. A scene contributes only its `popup` flag and its `game` back-reference. Its `load_content` is reduced to a success flag. Its `update`/`draw` and the camera's calls are trace events.
- Engine.Game.OnUpdate: a raising scene.update, update hook or camera.update ends the source's frame early (no try/finally at lines 311-315); the model's collaborators never raise, so the trace is always the complete one.
- Engine.Game.OnDraw: a raising draw hook, scene.draw or camera call ends the source's frame early; there is no try/finally at lines 325-334, so glPushMatrix and camera.reset are then left without their camera.apply and glPopMatrix. The model's collaborators never raise, so its trace always closes the bracket.
- Engine.Game.DrawScenes: a raising scene.draw stops the source's loop at line 330 and skips the remaining scenes; the model's scene draws never raise.
- Engine.Game.OnUpdate, Engine.Game.OnDraw: iterate over the scene list as it was when the loop began. A scene that changes `_scenes` during its own `update`/`draw` (live-list iteration in Python) is not modelled.
- Engine.Game.RemoveScene: `list.remove` compares with `==`; the model compares scenes by identity, which is what `==` does only if the scene class (not part of this model) defines no `__eq__`.
- Engine.Game.AddScene: assumes a scene object is always truthy, so `if self._main_scene:` tests only whether the slot is set.
- The firing of callbacks and the passage of time. The clock is only its list of live entries, and `kwargs` is a map from names to opaque values.
- `tests/test_vector3.py`: it tests a `Vector3` class whose source is not part of this model.
