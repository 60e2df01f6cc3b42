/** The transitions of the Game state machine in src/game.cpp, as functions
    on the four modelled fields: the menu callbacks bound when the menus are
    built, the in-game event handler, the event-draining input step, the
    update guard and draw dispatch, and the frame loop of run. */
module GameSpec {
  import opened GameTypes

  datatype Option<T> = None | Some(value: T)

  /** A window event as far as Game itself tells events apart: the close
      signal, a key press of Escape, or anything else. */
  datatype EventKind = Closed | EscapePressed | OtherEvent

  /** What the active menu's input handler makes of one event: it invokes
      the callback of entry `index`, or the menu's back callback. */
  datatype MenuCommand = Select(index: nat) | Back

  /** One event drained from the window's queue, together with what the
      active menu makes of it (nothing, when the menu ignores it). */
  datatype Input = Input(kind: EventKind, menuCommand: Option<MenuCommand>)

  /** The zero-argument callbacks bound to menu entries: enter the game,
      make another menu active, toggle fullscreen, stop the frame loop. */
  datatype Action = RunGame | OpenMenu(menuId: nat) | FlipFullscreen | Quit

  datatype Entry = Entry(text: string, action: Action)

  datatype Menu = Menu(title: string, entries: seq<Entry>, back: Action)

  /** An action that opens a menu opens one of the registry. */
  predicate TargetsRegistry(a: Action)
  {
    a.OpenMenu? ==> a.menuId < MenuCount
  }

  /** The menu registry as built at initialisation, indexed by menu id:
      three menus whose every callback keeps the active id in the registry. */
  function Menus(): (menus: seq<Menu>)
    ensures |menus| == MenuCount
    ensures forall m :: 0 <= m < |menus| ==> TargetsRegistry(menus[m].back)
    ensures forall m, k :: 0 <= m < |menus| && 0 <= k < |menus[m].entries| ==>
              TargetsRegistry(menus[m].entries[k].action)
  {
    [ Menu("Raymarching Playground",
           [Entry("Run", RunGame), Entry("Options", OpenMenu(OptionsMenuId)), Entry("Exit", OpenMenu(ExitMenuId))],
           OpenMenu(ExitMenuId)),
      Menu("Options",
           [Entry("Toggle Fullscreen", FlipFullscreen), Entry("Back", OpenMenu(MainMenuId))],
           OpenMenu(MainMenuId)),
      Menu("Are you sure?",
           [Entry("Yes", Quit), Entry("No", OpenMenu(MainMenuId))],
           OpenMenu(MainMenuId)) ]
  }

  /** The callback that a command invokes in menu `menuId`; a Select past the
      last entry invokes nothing. */
  function BoundAction(menuId: nat, cmd: MenuCommand): (a: Option<Action>)
    requires menuId < MenuCount
    ensures a.Some? ==> TargetsRegistry(a.value)
    ensures a.None? <==> cmd.Select? && cmd.index >= |Menus()[menuId].entries|
  {
    var menu := Menus()[menuId];
    match cmd
    case Back => Some(menu.back)
    case Select(i) => if i < |menu.entries| then Some(menu.entries[i].action) else None
  }

  /** The effect of one callback on the fields. */
  function Perform(f: GameFields, a: Action): (r: GameFields)
    requires TargetsRegistry(a)
    ensures MenuInRange(f) ==> MenuInRange(r)
    ensures r.isRunning ==> f.isRunning
  {
    match a
    case RunGame => f.(gameState := InGame)
    case OpenMenu(id) => f.(currentMenuId := id)
    case FlipFullscreen => f.(isFullscreen := !f.isFullscreen)
    case Quit => f.(isRunning := false)
  }

  /** The active menu handles a command by invoking its bound callback. Only
      "Run" of the main menu enters the game, only "Yes" of the exit menu
      stops the loop, only "Toggle Fullscreen" of the options menu changes
      the fullscreen flag, and the active id stays in the registry. */
  function OnMenuCommand(f: GameFields, cmd: MenuCommand): (r: GameFields)
    requires MenuInRange(f)
    ensures MenuInRange(r)
    ensures r.gameState == InGame <==>
              f.gameState == InGame || (f.currentMenuId == MainMenuId && cmd == Select(0))
    ensures r.isRunning <==> f.isRunning && !(f.currentMenuId == ExitMenuId && cmd == Select(0))
    ensures r.isFullscreen != f.isFullscreen <==> f.currentMenuId == OptionsMenuId && cmd == Select(0)
  {
    match BoundAction(f.currentMenuId, cmd)
    case None => f
    case Some(a) => Perform(f, a)
  }

  /** Game's own handling of an event while in the game: the close signal
      stops the loop, Escape returns to the main menu, anything else is
      ignored; the fullscreen flag is never touched. */
  function OnInGameEvent(f: GameFields, kind: EventKind): (r: GameFields)
    requires f.gameState == InGame
    ensures MenuInRange(f) ==> MenuInRange(r)
    ensures r.isFullscreen == f.isFullscreen
    ensures r.isRunning <==> f.isRunning && kind != Closed
    ensures r.gameState == InMenu <==> kind == EscapePressed
    ensures r.currentMenuId == (if kind == EscapePressed then MainMenuId else f.currentMenuId)
  {
    match kind
    case Closed => f.(isRunning := false)
    case EscapePressed => f.(currentMenuId := MainMenuId, gameState := InMenu)
    case OtherEvent => f
  }

  /** The one way an input stops the frame loop: Closed while in the game,
      or "Yes" chosen in the exit menu. */
  predicate Quits(f: GameFields, input: Input)
  {
    if f.gameState == InGame then input.kind == Closed
    else f.currentMenuId == ExitMenuId && input.menuCommand == Some(Select(0))
  }

  /** The one way an input enters the game: "Run" chosen in the main menu. */
  predicate EntersGame(f: GameFields, input: Input)
  {
    f.gameState == InMenu && f.currentMenuId == MainMenuId && input.menuCommand == Some(Select(0))
  }

  /** Handling of one polled event: in the game Game reacts itself, in a
      menu the event goes to the active menu and Game ignores its kind. */
  function OnInput(f: GameFields, input: Input): (r: GameFields)
    requires MenuInRange(f)
    ensures MenuInRange(r)
    ensures r.isRunning <==> f.isRunning && !Quits(f, input)
    ensures r.gameState == InGame && f.gameState == InMenu <==> EntersGame(f, input)
    ensures r.isFullscreen != f.isFullscreen <==>
              f.gameState == InMenu && f.currentMenuId == OptionsMenuId && input.menuCommand == Some(Select(0))
  {
    if f.gameState == InGame then OnInGameEvent(f, input.kind)
    else match input.menuCommand
      case None => f
      case Some(cmd) => OnMenuCommand(f, cmd)
  }

  /** Draining the whole event queue of one frame, in order. Once stopped,
      no event restarts the loop. */
  function OnInputs(f: GameFields, inputs: seq<Input>): (r: GameFields)
    requires MenuInRange(f)
    ensures MenuInRange(r)
    ensures r.isRunning ==> f.isRunning
    decreases |inputs|
  {
    if inputs == [] then f else OnInputs(OnInput(f, inputs[0]), inputs[1..])
  }

  /** What a frame draws: the active menu, or the shader scene. */
  datatype View = MenuView(menuId: nat) | SceneView

  /** What one frame does after its input: whether the update body ran and
      what was drawn. */
  datatype Frame = Frame(updated: bool, view: View)

  /** Draw dispatch: the active menu is drawn exactly when not in the game,
      and it is a menu of the registry. */
  function DrawnView(f: GameFields): (v: View)
    requires MenuInRange(f)
    ensures v.MenuView? <==> f.gameState != InGame
    ensures v.MenuView? ==> v.menuId == f.currentMenuId && v.menuId < MenuCount
  {
    if f.gameState != InGame then MenuView(f.currentMenuId) else SceneView
  }

  /** Update runs its body exactly when the scene is drawn. */
  function FrameOf(f: GameFields): (fr: Frame)
    requires MenuInRange(f)
    ensures fr.updated <==> fr.view.SceneView?
    ensures fr.view == DrawnView(f)
  {
    Frame(f.gameState == InGame, DrawnView(f))
  }

  /** The loop of run from a given state: while running and frames remain,
      drain the frame's events; the loop test comes after the frame. */
  function RunFrames(f: GameFields, frames: seq<seq<Input>>): (r: GameFields)
    requires MenuInRange(f)
    ensures MenuInRange(r)
    ensures r.isRunning ==> f.isRunning
    ensures !f.isRunning ==> r == f
    decreases |frames|
  {
    if !f.isRunning || frames == [] then f
    else RunFrames(OnInputs(f, frames[0]), frames[1..])
  }

  /** The frames that run executes, each after its events are drained: at
      most one per supplied frame, and each draws exactly one of the menu or
      the scene, the menu being one of the registry. */
  function Trace(f: GameFields, frames: seq<seq<Input>>): (t: seq<Frame>)
    requires MenuInRange(f)
    ensures |t| <= |frames|
    ensures forall k :: 0 <= k < |t| ==> (t[k].updated <==> t[k].view.SceneView?)
    ensures forall k :: 0 <= k < |t| && t[k].view.MenuView? ==> t[k].view.menuId < MenuCount
    decreases |frames|
  {
    if !f.isRunning || frames == [] then []
    else
      var g := OnInputs(f, frames[0]);
      [FrameOf(g)] + Trace(g, frames[1..])
  }
}
