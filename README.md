# Raymarching Playground: the Game state machine

Raymarching Playground is a small SFML demo: a window that renders a
raymarching fragment shader, with a menu system (main menu, options, exit
confirmation) on top of a frame loop. The only original control logic is in
the `Game` class. It holds four fields:

- `currentMenuId_`: which of the three menus is active;
- `gameState_`: `IN_MENU` or `IN_GAME`;
- `isRunning_`: the loop flag;
- `isFullscreen_`: the window mode.

Three kinds of code change these fields:

- the in-game event handler in `checkInput`;
- the ten callbacks bound to the menus in `initializeMenus`;
- `run`, which sets the loop flag and loops while it stays set.

This project models that state machine and proves its properties.

- `GameTypes` (`game_types.dfy`) holds the menu ids, the `GameState` enum and the initial field values.
- `GameSpec` (`game_spec.dfy`) holds the transitions as functions on a `GameFields` value.
  - The menu registry is a table of entries. Each entry names an explicit callback: `RunGame`, `OpenMenu(id)`, `FlipFullscreen` or `Quit`.
  - The functions cover the event-draining step, the `update` guard, the `draw` dispatch and the frame loop.
- `GameProperties` (`game_properties.dfy`) proves lemmas over several transitions.
  - What each menu's callbacks do.
  - How event sequences compose.
  - Only "Run" enters the game.
  - Only Closed or "Yes" stops the loop.
  - The scenarios of a fresh `Game`.
- `GameRuntime` (`game_runtime.dfy`) is the `Game` class.
  - It has the four fields as mutable fields.
  - Its methods update them in place.
  - Each method that changes the fields is proved equal to the `GameSpec` function it implements.
  - `Update` and `Draw` change nothing. `Update` says when the update body runs, and `Draw` is proved equal to `DrawnView`.
  - `CheckInput` and `Run` are `while` loops with invariants.

`Menu` is not part of this model (`menu.hpp` is not available). Each event
drained from the queue is therefore an `Input`. It carries two things: the
event kind that `Game` itself looks at (Closed, Escape, anything else), and
what the active menu's `handleInput` makes of the event and the pointer
position. The menu can select entry `i`, take its back action, or do nothing.
A `Select(i)` past the last entry invokes no callback.

Both the options menu's "Back" entry and its back action select the main
menu (src/game.cpp:170, 172).

## Model

| member | source | states |
|---|---|---|
| GameTypes.InitialState | include/game.hpp:38-52 | a new Game is in `IN_MENU` with the main menu active, not running, not fullscreen, and its menu id indexes the registry |
| GameTypes.MenuIdsDistinct | include/game.hpp:19-21 | the menu ids 0, 1, 2 are pairwise distinct and all below the registry size 3 |
| GameTypes.GameStateTwoValued | include/game.hpp:25-29 | `GameState` has exactly the two distinct values `IN_GAME` and `IN_MENU` |
| GameSpec.Menus | src/game.cpp:144-183 | the registry has three menus, and every entry callback and back callback that opens a menu opens one of the three |
| GameSpec.BoundAction | src/game.cpp:147-182 | a command on menu `m` invokes a callback exactly when it is the back action or selects an existing entry, and that callback keeps the active id in the registry |
| GameSpec.Perform | src/game.cpp:152-182 | a callback keeps the active menu id in the registry and never sets the running flag |
| GameSpec.OnMenuCommand | src/game.cpp:69 | a menu command keeps the id in range; it enters the game iff it is "Run" in the main menu, stops the loop iff it is "Yes" in the exit menu, and flips fullscreen iff it is "Toggle Fullscreen" in the options menu |
| GameSpec.OnInGameEvent | src/game.cpp:55-66 | in the game, Closed clears only the running flag, Escape returns to `IN_MENU` and the main menu, any other event changes nothing; fullscreen is never touched |
| GameSpec.OnInput | src/game.cpp:53-70 | one polled event keeps the id in range; it stops the loop iff it quits (Closed in game, "Yes" in the exit menu), enters the game iff "Run" was chosen in the main menu, and flips fullscreen iff "Toggle Fullscreen" was chosen |
| GameSpec.OnInputs | src/game.cpp:48-72 | draining a queue of events keeps the id in range, and a stopped loop is never restarted by events |
| GameSpec.DrawnView | src/game.cpp:89-102 | the active menu is drawn iff not in the game, and it is a menu of the registry; otherwise the scene is drawn |
| GameSpec.FrameOf | src/game.cpp:74-102 | the update body runs in a frame iff that frame draws the scene and not the menu |
| GameSpec.RunFrames | src/game.cpp:21-45 | the loop keeps the id in range, never sets the running flag again, and does nothing once the flag is cleared |
| GameSpec.Trace | src/game.cpp:23-33 | the loop executes at most the supplied frames; each executed frame draws exactly one of menu or scene, updates iff it draws the scene, and draws only registry menus |
| GameProperties.MainMenuCallbacks | src/game.cpp:147-156 | main menu: "Run" sets `IN_GAME` and keeps the other fields, "Options" opens Options, "Exit" and the back action open Exit |
| GameProperties.OptionsMenuCallbacks | src/game.cpp:158-172 | options menu: "Toggle Fullscreen" negates only the flag, and "Back" and the back action open the main menu |
| GameProperties.ExitMenuCallbacks | src/game.cpp:174-182 | exit menu: "Yes" clears only the running flag and keeps the exit menu active, while "No" and the back action open the main menu |
| GameProperties.ToggleFullscreenTwice | src/game.cpp:163-169 | choosing "Toggle Fullscreen" twice restores every field |
| GameProperties.MenuIgnoresEventKind | src/game.cpp:67-70 | in a menu the event kind (Closed, Escape or other) does not matter, only what the menu makes of it; an event the menu ignores changes nothing |
| GameProperties.OnInputsConcat | src/game.cpp:51-71 | draining `a` then `b` gives the same state as draining `a + b` |
| GameProperties.OnInputsSnoc | src/game.cpp:51-71 | draining one more event is one more input step on the state reached so far |
| GameProperties.GameEnteredOnlyByRun | src/game.cpp:152 | if events take a menu state into the game, one of them chose "Run" while the main menu was active |
| GameProperties.LoopStoppedOnlyByQuit | src/game.cpp:48-72 | if events stop a running loop, one of them was Closed in the game or "Yes" in the exit menu |
| GameProperties.RunSkipsFramesOnlyWhenStopped | src/game.cpp:23-45 | if the flag is still set when the loop ends, every supplied frame was executed |
| GameProperties.FrameSplitIrrelevant | src/game.cpp:23-33 | if the flag is still set after the last frame, the final state equals draining all frames' events as one queue, so any split of the same events into frames ends in the same state |
| GameProperties.ScenarioRunThenEscape | src/game.cpp:17-72 | start, "Run", Escape: the first frame updates and draws the scene, the second draws the main menu, and the fields end as they started |
| GameProperties.ScenarioOptionsToggleBack | src/game.cpp:153-172 | start, "Options", "Toggle Fullscreen", "Back": `IN_MENU`, main menu active, still running, fullscreen flipped once |
| GameProperties.ScenarioBackThenYes | src/game.cpp:17-46 | start, main back, "Yes": the loop stops with the exit menu active, and a third frame is never executed |
| GameRuntime.Game.constructor | include/game.hpp:38-52 | the fields start as main menu, `IN_MENU`, not running and not fullscreen |
| GameRuntime.Game.StartGame | src/game.cpp:152 | sets `IN_GAME` and leaves the menu id, running and fullscreen flags unchanged |
| GameRuntime.Game.ShowMenu | src/game.cpp:153-182 | makes the given registry menu active and changes nothing else |
| GameRuntime.Game.ToggleFullscreen | src/game.cpp:163-169 | negates the fullscreen flag and changes nothing else |
| GameRuntime.Game.StopRunning | src/game.cpp:179 | clears the running flag and changes nothing else |
| GameRuntime.Game.Invoke | src/game.cpp:147-182 | performs a bound callback in place, equal to `Perform`, and keeps the id in range |
| GameRuntime.Game.Dispatch | src/game.cpp:69 | looks up the active menu and invokes the selected callback in place, equal to `OnMenuCommand` |
| GameRuntime.Game.HandleInGameEvent | src/game.cpp:55-66 | Closed clears only the running flag, Escape selects the main menu and `IN_MENU`, other events change nothing |
| GameRuntime.Game.CheckInput | src/game.cpp:48-72 | drains the events in order in place; the new fields equal `OnInputs` of the old ones, and the id stays in range |
| GameRuntime.Game.Update | src/game.cpp:74-87 | the update body runs iff the state is `IN_GAME` |
| GameRuntime.Game.Draw | src/game.cpp:89-102 | draws the active menu iff not `IN_GAME`, otherwise the scene |
| GameRuntime.Game.Run | src/game.cpp:17-46 | sets the running flag, then runs input, update and draw per frame while it stays set; the final fields and frame trace equal `RunFrames`/`Trace` of the state with the flag set, and all frames ran if the flag is still set |
| GameRuntime.ExampleRunThenEscape | src/game.cpp:17-72 | a new Game run over "Run" then Escape ends in `IN_MENU` with the main menu active and the loop still running |

## Left out

- All SFML calls are left out, being foreign library calls. This covers window creation, closing, clearing and display, the render texture, the sprite and its scaling, shader loading, uniforms and blend state (`initializeWindow`, `initializeShader`, `initializeTexture`, the scene part of `draw`).
- GameRuntime.Game.ToggleFullscreen: models only the flag flip, not the window and render-texture rebuild that follows it. The rebuild is SFML work.
- Frame timing is left out. This covers `std::chrono`, `sf::Clock`, `lastTime_` and the FPS window title. These are wall-clock reads and float arithmetic, and they are cosmetic.
- GameRuntime.Game.Update: models only the `IN_GAME` guard. The `currentSlice_`/`kTimeSlice` accumulator loop is float arithmetic with an empty body.
- `Menu` internals (rendering, hover detection, keyboard navigation) are left out because `menu.hpp` is not part of this model. Menu input is abstracted to the command the menu derives from an event. Titles and entry texts are kept. Menu positions (`kMenuX`, `kMenuY`) are left out.
- `pollEvent` and the pointer position are left out. Each frame's event queue is an explicit sequence of `Input` values.
- GameRuntime.Game.Run: runs over a finite sequence of frames, so it also ends when the frames run out. The real loop runs until the flag is cleared, and may run forever.
- Window constants (`kDefaultWindowWidth`, `kDefaultWindowHeight`, `kFramerateLimit`, `kShaderFile`, `kShaderDownscale`, `kTimeStep`) are left out. They only feed the graphics calls.
