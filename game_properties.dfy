/** Properties of the Game state machine that relate several transitions:
    what each menu callback does, how event sequences compose, which inputs
    alone can enter the game or stop the loop, and scenarios of the frame
    loop from a freshly constructed Game. */
module GameProperties {
  import opened GameTypes
  import opened GameSpec

  /** The main menu: "Run" enters the game and keeps the other fields,
      "Options" and "Exit" open those menus, and the back action opens the
      exit menu. */
  lemma MainMenuCallbacks(f: GameFields)
    requires f.currentMenuId == MainMenuId
    ensures OnMenuCommand(f, Select(0)) == f.(gameState := InGame)
    ensures OnMenuCommand(f, Select(1)) == f.(currentMenuId := OptionsMenuId)
    ensures OnMenuCommand(f, Select(2)) == f.(currentMenuId := ExitMenuId)
    ensures OnMenuCommand(f, Back) == f.(currentMenuId := ExitMenuId)
  {
  }

  /** The options menu: "Toggle Fullscreen" negates the flag and nothing
      else; its "Back" entry and its back action both open the main menu. */
  lemma OptionsMenuCallbacks(f: GameFields)
    requires f.currentMenuId == OptionsMenuId
    ensures OnMenuCommand(f, Select(0)) == f.(isFullscreen := !f.isFullscreen)
    ensures OnMenuCommand(f, Select(1)) == f.(currentMenuId := MainMenuId)
    ensures OnMenuCommand(f, Back) == f.(currentMenuId := MainMenuId)
  {
  }

  /** The exit confirmation: "Yes" stops the loop and keeps the active menu,
      "No" and the back action both open the main menu. */
  lemma ExitMenuCallbacks(f: GameFields)
    requires f.currentMenuId == ExitMenuId
    ensures OnMenuCommand(f, Select(0)) == f.(isRunning := false)
    ensures OnMenuCommand(f, Select(1)) == f.(currentMenuId := MainMenuId)
    ensures OnMenuCommand(f, Back) == f.(currentMenuId := MainMenuId)
  {
  }

  /** Toggling fullscreen twice restores every field. */
  lemma ToggleFullscreenTwice(f: GameFields)
    requires f.currentMenuId == OptionsMenuId
    ensures OnMenuCommand(OnMenuCommand(f, Select(0)), Select(0)) == f
  {
  }

  /** In a menu Game does not look at the event itself: Closed and Escape
      are passed to the menu like any other event, and an event the menu
      ignores changes nothing. */
  lemma MenuIgnoresEventKind(f: GameFields, k1: EventKind, k2: EventKind, c: Option<MenuCommand>)
    requires MenuInRange(f) && f.gameState == InMenu
    ensures OnInput(f, Input(k1, c)) == OnInput(f, Input(k2, c))
    ensures OnInput(f, Input(k1, None)) == f
  {
  }

  /** Draining two queues one after the other is draining their
      concatenation. */
  lemma {:induction false} OnInputsConcat(f: GameFields, a: seq<Input>, b: seq<Input>)
    requires MenuInRange(f)
    ensures OnInputs(f, a + b) == OnInputs(OnInputs(f, a), b)
    decreases |a|
  {
    if a == [] {
      assert a + b == b;
    } else {
      assert (a + b)[0] == a[0];
      assert (a + b)[1..] == a[1..] + b;
      OnInputsConcat(OnInput(f, a[0]), a[1..], b);
    }
  }

  /** Draining one more event is one more input step. */
  lemma OnInputsSnoc(f: GameFields, a: seq<Input>, x: Input)
    requires MenuInRange(f)
    ensures OnInputs(f, a + [x]) == OnInput(OnInputs(f, a), x)
  {
    OnInputsConcat(f, a, [x]);
    var g := OnInputs(f, a);
    assert [x][1..] == [];
    assert OnInputs(g, [x]) == OnInputs(OnInput(g, x), []);
  }

  /** Draining the prefix `xs[..k+1]` is one step on `xs[0]` and then the
      prefix `xs[1..][..k]`. */
  lemma OnInputsPrefixStep(f: GameFields, xs: seq<Input>, k: nat)
    requires MenuInRange(f) && k < |xs|
    ensures OnInputs(f, xs[..k + 1]) == OnInputs(OnInput(f, xs[0]), xs[1..][..k])
  {
    var p := xs[..k + 1];
    assert p[0] == xs[0];
    assert p[1..] == xs[1..][..k];
  }

  /** A sequence of events that takes a menu state into the game contains an
      event at which the main menu was active and "Run" was chosen. */
  lemma {:induction false} GameEnteredOnlyByRun(f: GameFields, xs: seq<Input>)
    requires MenuInRange(f) && f.gameState == InMenu
    requires OnInputs(f, xs).gameState == InGame
    ensures exists k :: 0 <= k < |xs| && EntersGame(OnInputs(f, xs[..k]), xs[k])
    decreases |xs|
  {
    assert xs != [];
    var g := OnInput(f, xs[0]);
    assert xs[..0] == [];
    if g.gameState == InGame {
      assert EntersGame(OnInputs(f, xs[..0]), xs[0]);
    } else {
      GameEnteredOnlyByRun(g, xs[1..]);
      var k :| 0 <= k < |xs[1..]| && EntersGame(OnInputs(g, xs[1..][..k]), xs[1..][k]);
      OnInputsPrefixStep(f, xs, k);
      assert EntersGame(OnInputs(f, xs[..k + 1]), xs[k + 1]);
    }
  }

  /** A sequence of events that stops a running loop contains an event that
      quits: Closed while in the game, or "Yes" in the exit menu. */
  lemma {:induction false} LoopStoppedOnlyByQuit(f: GameFields, xs: seq<Input>)
    requires MenuInRange(f) && f.isRunning
    requires !OnInputs(f, xs).isRunning
    ensures exists k :: 0 <= k < |xs| && Quits(OnInputs(f, xs[..k]), xs[k])
    decreases |xs|
  {
    assert xs != [];
    var g := OnInput(f, xs[0]);
    assert xs[..0] == [];
    if !g.isRunning {
      assert Quits(OnInputs(f, xs[..0]), xs[0]);
    } else {
      LoopStoppedOnlyByQuit(g, xs[1..]);
      var k :| 0 <= k < |xs[1..]| && Quits(OnInputs(g, xs[1..][..k]), xs[1..][k]);
      OnInputsPrefixStep(f, xs, k);
      assert Quits(OnInputs(f, xs[..k + 1]), xs[k + 1]);
    }
  }

  /** The frame loop skips supplied frames only once the running flag is
      false: if it still runs at the end, every frame was executed. */
  lemma {:induction false} RunSkipsFramesOnlyWhenStopped(f: GameFields, frames: seq<seq<Input>>)
    requires MenuInRange(f)
    ensures RunFrames(f, frames).isRunning ==> |Trace(f, frames)| == |frames|
    decreases |frames|
  {
    if f.isRunning && frames != [] {
      RunSkipsFramesOnlyWhenStopped(OnInputs(f, frames[0]), frames[1..]);
    }
  }

  /** All the events of a sequence of frames, in order, as one queue. */
  function Flatten(frames: seq<seq<Input>>): seq<Input>
    decreases |frames|
  {
    if frames == [] then [] else frames[0] + Flatten(frames[1..])
  }

  /** If the flag is still set after the last frame, the loop's final state
      is that of draining every frame's events as one queue, so any split of
      the same events into frames ends in the same state. */
  lemma {:induction false} FrameSplitIrrelevant(f: GameFields, frames: seq<seq<Input>>)
    requires MenuInRange(f)
    requires RunFrames(f, frames).isRunning
    ensures RunFrames(f, frames) == OnInputs(f, Flatten(frames))
    decreases |frames|
  {
    if frames != [] {
      var g := OnInputs(f, frames[0]);
      FrameSplitIrrelevant(g, frames[1..]);
      OnInputsConcat(f, frames[0], Flatten(frames[1..]));
    }
  }

  /** An event by which the active menu chooses entry `i`. */
  function Choose(i: nat): Input
  {
    Input(OtherEvent, Some(Select(i)))
  }

  /** Start, choose "Run", then press Escape: the first frame runs the update
      and draws the scene, the second draws the main menu, and the fields end
      as they started. */
  lemma ScenarioRunThenEscape()
    ensures var s := Initial().(isRunning := true);
            var frames := [[Choose(0)], [Input(EscapePressed, None)]];
            RunFrames(s, frames) == s &&
            Trace(s, frames) == [Frame(true, SceneView), Frame(false, MenuView(MainMenuId))]
  {
  }

  /** Start, choose "Options", "Toggle Fullscreen", then "Back": the main
      menu is active again and the fullscreen flag was flipped once. */
  lemma ScenarioOptionsToggleBack()
    ensures var s := Initial().(isRunning := true);
            var r := RunFrames(s, [[Choose(1)], [Choose(0)], [Choose(1)]]);
            r.gameState == InMenu && r.currentMenuId == MainMenuId && r.isRunning &&
            r.isFullscreen == !Initial().isFullscreen
  {
  }

  /** Start, take the main menu's back action, then "Yes": the loop stops
      with the exit menu still active, and a third frame is never run. */
  lemma ScenarioBackThenYes(third: seq<Input>)
    ensures var s := Initial().(isRunning := true);
            var frames := [[Input(OtherEvent, Some(Back))], [Choose(0)], third];
            RunFrames(s, frames) == s.(currentMenuId := ExitMenuId, isRunning := false) &&
            |Trace(s, frames)| == 2
  {
    var s := Initial().(isRunning := true);
    var frames := [[Input(OtherEvent, Some(Back))], [Choose(0)], third];
    var s1 := s.(currentMenuId := ExitMenuId);
    var s2 := s1.(isRunning := false);
    assert OnInputs(s, frames[0]) == s1;
    assert OnInputs(s1, frames[1..][0]) == s2;
    assert frames[1..][1..] == frames[2..];
    assert Trace(s2, frames[2..]) == [];
    assert Trace(s1, frames[1..]) == [FrameOf(s2)];
  }
}
