/**
 * The back-button navigation of `SceneManager`: moving forward pushes the
 * path of the scene being left onto a stack, moving back returns to the
 * path on top of the stack and pops it.
 *
 * The engine's scene tree is reduced to the path of its current scene.
 */
module Scenes {

  /** The navigation stack together with the path of the scene on screen. */
  datatype History = History(stack: seq<string>, current: string)

  /** Going forward to `path` remembers the current scene. */
  function Forward(h: History, path: string): History {
    History(h.stack + [h.current], path)
  }

  /** Going back returns to the most recently remembered scene. */
  function Backward(h: History): History
    requires h.stack != []
  {
    History(h.stack[..|h.stack| - 1], h.stack[|h.stack| - 1])
  }

  /** Going forward through `paths`, in order. */
  function Forwards(h: History, paths: seq<string>): History
    decreases |paths|
  {
    if paths == [] then h else Forward(Forwards(h, paths[..|paths| - 1]), paths[|paths| - 1])
  }

  /** Going back `n` times. */
  function Backwards(h: History, n: nat): History
    requires n <= |h.stack|
    decreases n
  {
    if n == 0 then h
    else Backwards(Backward(h), n - 1)
  }

  /** Going back right after going forward restores both the stack and the scene. */
  lemma BackwardUndoesForward(h: History, path: string)
    ensures Forward(h, path).stack != []
    ensures Backward(Forward(h, path)) == h
  {
    assert (h.stack + [h.current])[..|h.stack|] == h.stack;
  }

  /**
   * After going forward through `paths` the stack holds, in order, the scene
   * that was on screen and every path visited except the last one, which is
   * on screen.
   */
  lemma {:induction false} ForwardsRecordsVisits(h: History, paths: seq<string>)
    requires paths != []
    ensures Forwards(h, paths).stack == h.stack + ([h.current] + paths[..|paths| - 1])
    ensures Forwards(h, paths).current == paths[|paths| - 1]
    decreases |paths|
  {
    var front := paths[..|paths| - 1];
    if front != [] {
      ForwardsRecordsVisits(h, front);
      assert front[..|front| - 1] + [front[|front| - 1]] == front;
    }
  }

  /**
   * Going back as many times as one went forward returns to the starting
   * scene with the starting stack, whatever paths were visited.
   */
  lemma {:induction false} BackwardsUndoesForwards(h: History, paths: seq<string>)
    ensures |Forwards(h, paths).stack| == |h.stack| + |paths|
    ensures Backwards(Forwards(h, paths), |paths|) == h
    decreases |paths|
  {
    if paths != [] {
      var front, last := paths[..|paths| - 1], paths[|paths| - 1];
      BackwardsUndoesForwards(h, front);
      var g := Forwards(h, front);
      BackwardUndoesForward(g, last);
      assert Backward(Forwards(h, paths)) == g;
    }
  }

  /** The static `SceneManager` and the path of the scene the tree shows. */
  class SceneManager {
    var scenePaths: seq<string>
    /** `GetTree().CurrentScene.SceneFilePath` */
    var currentScene: string

    ghost function State(): History
      reads this
    {
      History(scenePaths, currentScene)
    }

    /** The game starts on `startScene` with nothing to go back to. */
    constructor (startScene: string)
      ensures scenePaths == [] && currentScene == startScene
    {
      scenePaths, currentScene := [], startScene;
    }

    /** Remembers the current scene, then changes to `newScenePath`. */
    method ChangeSceneForward(newScenePath: string)
      modifies this
      ensures scenePaths == old(scenePaths) + [old(currentScene)]
      ensures currentScene == newScenePath
      ensures State() == Forward(old(State()), newScenePath)
    {
      scenePaths := scenePaths + [currentScene];
      currentScene := newScenePath;
    }

    /** Changes to the most recently remembered scene and forgets it. */
    method ChangeSceneBackward()
      requires scenePaths != []
      modifies this
      ensures currentScene == old(scenePaths[|scenePaths| - 1])
      ensures scenePaths == old(scenePaths[..|scenePaths| - 1])
      ensures State() == Backward(old(State()))
    {
      currentScene := scenePaths[|scenePaths| - 1];
      scenePaths := scenePaths[..|scenePaths| - 1];
    }
  }
}
