/**
 * The scene stack of Game: the list _scenes and the _main_scene slot, as
 * changed by add_scene and remove_scene. A scene is an object compared by
 * identity, as Python's list.remove compares objects without __eq__.
 */
module Scenes {
  import opened Wrappers

  /** The parts of a scene the stack uses: its popup flag and its back-reference to the game. */
  class Scene {
    const popup: bool
    var game: object?

    constructor (popup: bool)
      ensures this.popup == popup && game == null
    {
      this.popup := popup;
      game := null;
    }
  }

  datatype Stack = Stack(scenes: seq<Scene>, main: Option<Scene>)

  datatype SceneError =
    | LoadFailed   // the scene's load_content raised
    | NotInList    // list.remove's ValueError

  /** list.index: the position of the first occurrence of x. */
  function IndexOf(s: seq<Scene>, x: Scene): (i: nat)
    requires x in s
    ensures i < |s| && s[i] == x && x !in s[..i]
  {
    if s[0] == x then 0
    else
      var j := IndexOf(s[1..], x);
      assert s[..j + 1] == [s[0]] + s[1..][..j];
      j + 1
  }

  /** list.remove: deletes the first occurrence of x, and raises when there is none. */
  function RemoveFirst(s: seq<Scene>, x: Scene): (r: Option<seq<Scene>>)
    ensures r.None? <==> x !in s
    ensures r.Some? ==> |r.value| + 1 == |s|
    ensures r.Some? ==> exists i :: 0 <= i < |s| && s[i] == x && x !in s[..i] && r.value == s[..i] + s[i + 1..]
  {
    if x in s then
      var i := IndexOf(s, x);
      Some(s[..i] + s[i + 1..])
    else None
  }

  /** The popup scenes of s, in order. */
  function Popups(s: seq<Scene>): (r: seq<Scene>)
    ensures |r| <= |s|
    ensures forall i :: 0 <= i < |r| ==> r[i] in s && r[i].popup
    ensures forall i :: 0 <= i < |s| && s[i].popup ==> s[i] in r
  {
    if s == [] then []
    else if s[0].popup then [s[0]] + Popups(s[1..])
    else Popups(s[1..])
  }

  /**
   * The stack invariant: the main scene is not a popup, and a non-popup
   * scene in the list is the main scene and sits at index 0.
   */
  predicate StackOk(st: Stack)
  {
    && (st.main.Some? ==> !st.main.value.popup)
    && forall i :: 0 <= i < |st.scenes| && !st.scenes[i].popup ==> i == 0 && st.main == Some(st.scenes[i])
  }

  /** remove_scene: never touches the main slot. */
  function Remove(st: Stack, x: Scene): (r: Result<Stack, SceneError>)
    ensures r.Failure? <==> x !in st.scenes
    ensures r.Success? ==> r.value.main == st.main && |r.value.scenes| + 1 == |st.scenes|
  {
    match RemoveFirst(st.scenes, x)
    case None => Failure(NotInList)
    case Some(rest) => Success(Stack(rest, st.main))
  }

  /**
   * add_scene, once scene.game is set and load_content has run with the
   * given outcome. A non-popup scene first removes the previous main scene
   * (an error when it is no longer in the list), then takes the main slot
   * and index 0; a popup scene is appended.
   */
  function Add(st: Stack, x: Scene, loaded: bool): (r: Result<Stack, SceneError>)
    ensures !loaded ==> r == Failure(LoadFailed)
    ensures r.Success? ==> x in r.value.scenes
  {
    if !loaded then Failure(LoadFailed)
    else if !x.popup then
      match st.main
      case None => Success(Stack([x] + st.scenes, Some(x)))
      case Some(m) =>
        match Remove(st, m)
        case Failure(e) => Failure(e)
        case Success(rest) => Success(Stack([x] + rest.scenes, Some(x)))
    else Success(Stack(st.scenes + [x], st.main))
  }

  /** Under the invariant the list is the main scene, when present, followed by the popups. */
  lemma {:induction false} StackShape(st: Stack)
    requires StackOk(st)
    ensures st.main.Some? && st.main.value in st.scenes ==> st.scenes == [st.main.value] + Popups(st.scenes)
    ensures !(st.main.Some? && st.main.value in st.scenes) ==> st.scenes == Popups(st.scenes)
  {
    var s := st.scenes;
    if s != [] {
      AllPopups(s[1..]);
      if !s[0].popup {
        assert Popups(s) == Popups(s[1..]);
      } else {
        assert Popups(s) == [s[0]] + Popups(s[1..]);
        assert st.main.Some? ==> st.main.value != s[0];
      }
    }
  }

  /** A list of popups is its own popup list. */
  lemma {:induction false} AllPopups(s: seq<Scene>)
    requires forall i :: 0 <= i < |s| ==> s[i].popup
    ensures Popups(s) == s
  {
    if s != [] {
      AllPopups(s[1..]);
    }
  }

  /**
   * A new main scene is placed at index 0 and takes the main slot; the
   * previous main scene is gone and the popups keep their order.
   */
  lemma AddMainScene(st: Stack, x: Scene)
    requires StackOk(st) && !x.popup
    requires st.main.None? || st.main.value in st.scenes
    ensures Add(st, x, true) == Success(Stack([x] + Popups(st.scenes), Some(x)))
  {
    StackShape(st);
    if st.main.Some? {
      var m := st.main.value;
      assert st.scenes[0] == m;
      assert IndexOf(st.scenes, m) == 0;
      assert st.scenes[..0] + st.scenes[1..] == Popups(st.scenes);
    } else {
      assert st.scenes == Popups(st.scenes);
    }
  }

  /** A popup scene is appended; the main slot and every other entry stay. */
  lemma AddPopupScene(st: Stack, x: Scene)
    requires x.popup
    ensures Add(st, x, true) == Success(Stack(st.scenes + [x], st.main))
  {
  }

  /**
   * remove_scene keeps the main slot, so after the main scene is removed by
   * hand, adding any non-popup scene raises ValueError.
   */
  lemma {:induction false} AddAfterMainRemoved(st: Stack, x: Scene)
    requires StackOk(st) && st.main.Some? && st.main.value in st.scenes
    requires !x.popup
    ensures Remove(st, st.main.value).Success?
    ensures Add(Remove(st, st.main.value).value, x, true) == Failure(NotInList)
  {
    var m := st.main.value;
    StackShape(st);
    assert IndexOf(st.scenes, m) == 0;
    var rest := Remove(st, m).value;
    assert rest.scenes == st.scenes[1..];
    forall k | 0 <= k < |rest.scenes|
      ensures rest.scenes[k] != m
    {
      assert rest.scenes[k] == st.scenes[k + 1];
    }
  }

  /** add_scene keeps the stack invariant. */
  lemma AddKeepsStackOk(st: Stack, x: Scene, loaded: bool)
    requires StackOk(st)
    ensures Add(st, x, loaded).Success? ==> StackOk(Add(st, x, loaded).value)
  {
    if loaded {
      if x.popup {
        var s' := st.scenes + [x];
        assert forall i :: 0 <= i < |s'| && !s'[i].popup ==> i < |st.scenes| && s'[i] == st.scenes[i];
      } else if st.main.None? || st.main.value in st.scenes {
        AddMainScene(st, x);
        var s' := [x] + Popups(st.scenes);
        assert forall i :: 1 <= i < |s'| ==> s'[i] in Popups(st.scenes);
      }
    }
  }

  /** remove_scene keeps the stack invariant. */
  lemma RemoveKeepsStackOk(st: Stack, x: Scene)
    requires StackOk(st)
    ensures Remove(st, x).Success? ==> StackOk(Remove(st, x).value)
  {
    if x in st.scenes {
      var i := IndexOf(st.scenes, x);
      var s := st.scenes;
      var s' := s[..i] + s[i + 1..];
      assert forall j :: 0 <= j < |s'| ==> s'[j] == if j < i then s[j] else s[j + 1];
    }
  }

  /** Main S1, popup S2, then main S3 leaves [S3, S2] with S3 as the main scene. */
  lemma {:induction false} ReplaceMainExample(s1: Scene, s2: Scene, s3: Scene)
    requires !s1.popup && s2.popup && !s3.popup
    ensures Add(Stack([], None), s1, true) == Success(Stack([s1], Some(s1)))
    ensures Add(Stack([s1], Some(s1)), s2, true) == Success(Stack([s1, s2], Some(s1)))
    ensures Add(Stack([s1, s2], Some(s1)), s3, true) == Success(Stack([s3, s2], Some(s3)))
  {
    assert [s1] + [] == [s1];
    assert [s1] + [s2] == [s1, s2];
    var st2 := Stack([s1, s2], Some(s1));
    assert IndexOf(st2.scenes, s1) == 0;
    assert [s1, s2][..0] + [s1, s2][1..] == [s2];
    assert RemoveFirst(st2.scenes, s1) == Some([s2]);
    assert Remove(st2, s1) == Success(Stack([s2], Some(s1)));
    assert [s3] + [s2] == [s3, s2];
  }
}
