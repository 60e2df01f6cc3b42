/** The Game object of src/game.cpp: its four state fields updated in place
    by the menu callbacks, the in-game event handler, the event-draining
    input step and the frame loop of run; update and draw reduced to what
    they decide from the state. Each method that changes the fields is
    proved against the function of GameSpec it implements. */
module GameRuntime {
  import opened GameTypes
  import opened GameSpec
  import GameProperties

  class Game {
    var currentMenuId: nat
    var gameState: GameState
    var isRunning: bool
    var isFullscreen: bool

    /** The current values of the four fields. */
    function Fields(): GameFields
      reads this
    {
      GameFields(currentMenuId, gameState, isRunning, isFullscreen)
    }

    /** The active menu id indexes the three-menu registry. */
    ghost predicate Valid()
      reads this
    {
      MenuInRange(Fields())
    }

    /** The initial field values of the class declaration. */
    constructor ()
      ensures Valid()
      ensures Fields() == Initial()
      ensures currentMenuId == MainMenuId && gameState == InMenu
      ensures !isRunning && !isFullscreen
    {
      currentMenuId := MainMenuId;
      gameState := InMenu;
      isRunning := false;
      isFullscreen := false;
    }

    /** The "Run" callback: enter the game. */
    method StartGame()
      modifies this
      ensures gameState == InGame
      ensures currentMenuId == old(currentMenuId) && isRunning == old(isRunning)
      ensures isFullscreen == old(isFullscreen)
      ensures Fields() == Perform(old(Fields()), RunGame)
    {
      gameState := InGame;
    }

    /** The callbacks that make another menu active. */
    method ShowMenu(menuId: nat)
      requires menuId < MenuCount
      modifies this
      ensures currentMenuId == menuId
      ensures gameState == old(gameState) && isRunning == old(isRunning)
      ensures isFullscreen == old(isFullscreen)
      ensures Valid()
      ensures Fields() == Perform(old(Fields()), OpenMenu(menuId))
    {
      currentMenuId := menuId;
    }

    /** The "Toggle Fullscreen" callback, without the window rebuild. */
    method ToggleFullscreen()
      modifies this
      ensures isFullscreen == !old(isFullscreen)
      ensures currentMenuId == old(currentMenuId) && gameState == old(gameState)
      ensures isRunning == old(isRunning)
      ensures Fields() == Perform(old(Fields()), FlipFullscreen)
    {
      isFullscreen := !isFullscreen;
    }

    /** The "Yes" callback of the exit menu: stop the frame loop. */
    method StopRunning()
      modifies this
      ensures !isRunning
      ensures currentMenuId == old(currentMenuId) && gameState == old(gameState)
      ensures isFullscreen == old(isFullscreen)
      ensures Fields() == Perform(old(Fields()), Quit)
    {
      isRunning := false;
    }

    /** Invoke one bound callback. */
    method Invoke(a: Action)
      requires Valid() && TargetsRegistry(a)
      modifies this
      ensures Valid()
      ensures Fields() == Perform(old(Fields()), a)
    {
      match a
      case RunGame => StartGame();
      case OpenMenu(id) => ShowMenu(id);
      case FlipFullscreen => ToggleFullscreen();
      case Quit => StopRunning();
    }

    /** The active menu's handling of a command: look the menu up by the
        active id and invoke the callback the command selects. */
    method Dispatch(cmd: MenuCommand)
      requires Valid() && gameState == InMenu
      modifies this
      ensures Valid()
      ensures Fields() == OnMenuCommand(old(Fields()), cmd)
    {
      var bound := BoundAction(currentMenuId, cmd);
      match bound
      case None =>
      case Some(a) => Invoke(a);
    }

    /** Game's own reaction to an event while in the game. */
    method HandleInGameEvent(kind: EventKind)
      requires gameState == InGame
      modifies this
      ensures kind == Closed ==> Fields() == old(Fields()).(isRunning := false)
      ensures kind == EscapePressed ==>
                Fields() == old(Fields()).(currentMenuId := MainMenuId, gameState := InMenu)
      ensures kind == OtherEvent ==> Fields() == old(Fields())
      ensures Fields() == OnInGameEvent(old(Fields()), kind)
    {
      if kind == Closed {
        isRunning := false;
      } else if kind == EscapePressed {
        currentMenuId := MainMenuId;
        gameState := InMenu;
      }
    }

    /** Drain one frame's event queue: in the game each event goes to the
        in-game handler, in a menu to the active menu. */
    method CheckInput(inputs: seq<Input>)
      requires Valid()
      modifies this
      ensures Valid()
      ensures Fields() == OnInputs(old(Fields()), inputs)
    {
      var i := 0;
      while i < |inputs|
        invariant 0 <= i <= |inputs|
        invariant Valid()
        invariant Fields() == OnInputs(old(Fields()), inputs[..i])
      {
        var input := inputs[i];
        GameProperties.OnInputsSnoc(old(Fields()), inputs[..i], input);
        if gameState == InGame {
          HandleInGameEvent(input.kind);
        } else if input.menuCommand.Some? {
          Dispatch(input.menuCommand.value);
        }
        assert inputs[..i + 1] == inputs[..i] + [input];
        i := i + 1;
      }
      assert inputs[..i] == inputs;
    }

    /** The guard of update: its body runs only in the game. */
    method Update() returns (ran: bool)
      ensures ran <==> gameState == InGame
    {
      ran := gameState == InGame;
    }

    /** The dispatch of draw: the active menu when not in the game, the
        shader scene otherwise. */
    method Draw() returns (view: View)
      requires Valid()
      ensures view == DrawnView(Fields())
      ensures view.MenuView? <==> gameState != InGame
    {
      if gameState != InGame {
        view := MenuView(currentMenuId);
      } else {
        view := SceneView;
      }
    }

    /** The frame loop over the supplied frames' event queues: set the
        running flag, then input, update and draw each frame while the flag
        stays set. Returns what each executed frame did. */
    method Run(frames: seq<seq<Input>>) returns (trace: seq<Frame>)
      requires Valid()
      modifies this
      ensures Valid()
      ensures Fields() == RunFrames(old(Fields()).(isRunning := true), frames)
      ensures trace == Trace(old(Fields()).(isRunning := true), frames)
      ensures isRunning ==> |trace| == |frames|
    {
      isRunning := true;
      ghost var start := Fields();
      trace := [];
      var i := 0;
      while isRunning && i < |frames|
        invariant 0 <= i <= |frames|
        invariant Valid()
        invariant RunFrames(Fields(), frames[i..]) == RunFrames(start, frames)
        invariant trace + Trace(Fields(), frames[i..]) == Trace(start, frames)
        decreases |frames| - i
      {
        ghost var before := Fields();
        assert frames[i..][0] == frames[i] && frames[i..][1..] == frames[i + 1..];
        CheckInput(frames[i]);
        var updated := Update();
        var view := Draw();
        assert Frame(updated, view) == FrameOf(Fields());
        assert Trace(before, frames[i..]) == [Frame(updated, view)] + Trace(Fields(), frames[i + 1..]);
        trace := trace + [Frame(updated, view)];
        i := i + 1;
      }
      GameProperties.RunSkipsFramesOnlyWhenStopped(start, frames);
    }
  }

  /** A new Game, run over a choice of "Run" and then Escape, ends in the
      main menu with the loop still running. */
  method ExampleRunThenEscape() returns (state: GameState, menuId: nat, running: bool)
    ensures state == InMenu && menuId == MainMenuId && running
  {
    var game := new Game();
    var trace := game.Run([[Input(OtherEvent, Some(Select(0)))], [Input(EscapePressed, None)]]);
    GameProperties.ScenarioRunThenEscape();
    state, menuId, running := game.gameState, game.currentMenuId, game.isRunning;
  }
}
