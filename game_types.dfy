/** Declarations of include/game.hpp that the Game state machine depends on:
    the three menu ids, the two-valued GameState enum and the initial values
    of the four fields that the state machine reads and writes. */
module GameTypes {

  /** Positions of the three menus in the menu registry. */
  const MainMenuId: nat := 0
  const OptionsMenuId: nat := 1
  const ExitMenuId: nat := 2

  /** Size of the menu registry, fixed when the menus are built. */
  const MenuCount: nat := 3

  /** Whether input and drawing go to the shader scene or to the active menu. */
  datatype GameState = InGame | InMenu

  /** The four fields of a Game that its transitions change. */
  datatype GameFields = GameFields(
    currentMenuId: nat,
    gameState: GameState,
    isRunning: bool,
    isFullscreen: bool)

  /** The active menu id indexes the registry, so looking the active menu up
      with a bounds-checked access never fails. */
  predicate MenuInRange(f: GameFields)
  {
    f.currentMenuId < MenuCount
  }

  /** Field values of a freshly constructed Game. */
  function Initial(): GameFields
  {
    GameFields(MainMenuId, InMenu, false, false)
  }

  /** A new Game is in the main menu, not running, windowed, and its menu id
      is inside the registry. */
  lemma InitialState()
    ensures MenuInRange(Initial())
    ensures Initial().gameState == InMenu && Initial().currentMenuId == MainMenuId
    ensures !Initial().isRunning && !Initial().isFullscreen
  {
  }

  /** The three menu ids are pairwise distinct and all index the registry. */
  lemma MenuIdsDistinct()
    ensures MainMenuId != OptionsMenuId && OptionsMenuId != ExitMenuId && MainMenuId != ExitMenuId
    ensures MainMenuId < MenuCount && OptionsMenuId < MenuCount && ExitMenuId < MenuCount
  {
  }

  /** GameState has exactly two values. */
  lemma GameStateTwoValued(g: GameState)
    ensures g == InGame || g == InMenu
    ensures InGame != InMenu
  {
  }
}
