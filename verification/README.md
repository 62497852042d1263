# fae-coin core in Dafny

A model of the game rules of *fae-coin*, a small Bevy arcade game. A coin is
launched upwards and slowed by gravity. Clouds slow it down, boost items
store extra boosts and fairies speed it up. A camera pans with the coin's
speed. The game is a state machine: Loading, MainMenu, CoinLaunch, Ingame and
End. Every UI or game entity carries a `StateOwner` tag, and leaving a state
despawns the entities tagged with it, children included.

The model is one world, the class `Ecs.World`. It holds:

- the entity forest, where each entity has a kind, an optional `StateOwner`
  tag, a translation, a scale, an optional `AnimScale`, the `RelativeCoinY`
  marker and its children;
- the coin;
- the current state and the pending next state;
- the camera height, the cloud spawner's last spawn time and the launch meter.

`Scoring.Scores` is the `Scores` resource. Each Bevy system is a method on
the world with a `modifies` clause naming only what the system writes. Each
method is proved against a pure function of the old state: `Sweep`,
`InitCloudsResult`, `PassAll`, `Unpicked`, `Untouched`, `Scroll`, `CullAsWritten`,
`AnimateAll`, `PlaceAll`, `Transition`. The source's promises are proved as
lemmas about those functions.

Points worth knowing about the code (the model follows it throughout):

- `src/app_state.rs` declares only `Ingame` and `End` as states. The other
  UI files use `Loading`, `MainMenu` and `CoinLaunch`, so `AppState` has all
  five variants here.
- The derived default state is `Ingame` (`src/app_state.rs:7-8`), not
  `Loading`.
- `OnExit` teardown is registered only for `Ingame` and `End`
  (`src/app_state.rs:18-19`); no other state removes its entities on exit. As a result the entities of the
  loading screen, the menu and the launch screen are never removed:
  `StateMachine.LaunchUiOutlivesLaunch` and
  `StateMachine.LoadingUiOutlivesLoading` state this for the launch and
  loading screens.
- The cloud spawner is driven by elapsed time (one marker more than a
  second after the last), not by altitude.
- `update_loading_ui` asks for the menu on the first tick, without waiting
  for assets.
- `Coin` in `src/coin.rs` has only `speed`. `src/boost_item.rs:74` writes
  `additional_boosts`, so the model's `Coin` has both fields.

## Model

| member | source | states |
|---|---|---|
| Scoring.DefaultRecord | src/scores.rs:12-19 | the default scores are 0, 0 and no record; best covers end |
| Scoring.Register | src/scores.rs:23-27 | new record iff the score beats the old best; end score is the score; best is the larger of the old best and the score, so it never decreases and covers the end score |
| Scoring.NewRecordMovesBest | src/scores.rs:24-26 | with a new record the best becomes the score, otherwise the best is unchanged |
| Scoring.BestIsRunningMax | src/scores.rs:23-27 | after any run of registrations the best is at least the starting best and every score, and equals one of them |
| Scoring.Scores.constructor | src/scores.rs:12-19 | a fresh `Scores` holds the default record |
| Scoring.Scores.RegisterScore | src/scores.rs:23-27 | the fields become `Register` of the old fields: record flag iff the score beats the old best, best never decreases and covers the end score |
| AppStates.DefaultState | src/app_state.rs:5-10 | the default state is `Ingame` |
| Ecs.World.constructor | src/app_state.rs:5-10 | before any startup system: no entities, no coin, the default state `Ingame` with nothing requested, and the camera height, last cloud spawn time and launch meter at their zero defaults |
| AppStates.Sweep | src/app_state.rs:28-31 | what `remove_entities(x)` leaves: never more roots than before, and no root tagged `x` |
| AppStates.SweepOnlyRemoves | src/app_state.rs:28-32 | every node left by `remove_entities` was in the world before |
| AppStates.SweepRemovesAllTagged | src/app_state.rs:28-31 | after `remove_entities(x)` no entity anywhere in the forest is tagged `x` |
| AppStates.SweepUntaggedIsIdentity | src/app_state.rs:29 | a forest with no `x` tag is left exactly as it was |
| AppStates.SweepShrinksWhenTagged | src/app_state.rs:28-32 | the sweep never adds nodes, and removes at least one when some entity is tagged `x` |
| AppStates.SweepChangesIffTagged | src/app_state.rs:28-32 | the world changes iff some entity is tagged with the exited state |
| AppStates.SweepIdempotent | src/app_state.rs:28-32 | a second `remove_entities` with the same state removes nothing more |
| AppStates.TaggedRootRemovedWithChildren | src/app_state.rs:29-30 | a tagged entity disappears together with all its children, whatever their tags |
| AppStates.CleanRootSurvives | src/app_state.rs:29 | an entity whose subtree carries no `x` tag survives unchanged |
| AppStates.UntaggedRootKept | src/app_state.rs:29-30 | an entity not tagged `x` stays with its own components, and only its subtree is swept |
| AppStates.SweepsCommute | src/app_state.rs:35-41 | the `Ingame` and `End` teardowns (any two sweeps) can run in either order |
| AppStates.RemoveEntities | src/app_state.rs:23-33 | the loop over the tagged entities leaves exactly `Sweep` of the old forest, with no `x` tag left |
| AppStates.RemoveIngame | src/app_state.rs:35-37 | the world becomes the `Ingame` sweep of the old world |
| AppStates.RemoveEnd | src/app_state.rs:39-41 | the world becomes the `End` sweep of the old world |
| AppStates.OnExit | src/app_state.rs:15-21 | leaving `Ingame` or `End` removes every entity tagged with it; leaving any other state removes nothing; nothing is ever added |
| CoinSystems.DefaultCoin | src/coin.rs:17-21 | a default coin has speed 0 and no stored boosts |
| CoinSystems.DefaultCoinAnimation | src/coin.rs:29-36 | the flip starts at orientation 1, direction -1, within its invariant |
| CoinSystems.SetupCoin | src/coin.rs:42-55 | one coin is added, with speed 140, the default flip state and a 50 x 50 sprite |
| CoinSystems.CoinBounds | src/cloud.rs:79 | the coin's box is 50 x 50 and centred on the coin |
| CoinSystems.Fall | src/coin.rs:57-61 | one tick lowers speed by exactly `9.8 * dt`, so it never rises for `dt >= 0`; boosts are unchanged |
| CoinSystems.FallTicksLinear | src/coin.rs:57-61 | `n` ticks lower the speed by `n * 9.8 * dt` |
| CoinSystems.CoinGravity | src/coin.rs:57-61 | every coin takes one `Fall` step and nothing else changes |
| CoinSystems.SpinRatio | src/coin.rs:73-79 | `abs(speed)` clamped to [10, 240] over 240 lies in (0, 1], with the clamps at both ends |
| CoinSystems.SpinSpeed | src/coin.rs:73-80 | the spin speed lies in (0, 15] |
| CoinSystems.FlipStep | src/coin.rs:81-93 | a step never overshoots the bound it is heading for, and the direction turns only with the orientation exactly on that bound (-1 turns to +1, +1 to -1) |
| CoinSystems.FlipStepKeepsInvariant | src/coin.rs:81-93 | with spin and `dt` non-negative the orientation stays in [-1, 1] and the direction in {-1, +1} |
| CoinSystems.FlipStepTurnsOnlyAtBounds | src/coin.rs:83-93 | the direction flips iff the orientation passes a bound, and the orientation is then exactly that bound; otherwise it moves by `direction * spin * dt` |
| CoinSystems.Flip | src/coin.rs:71-99 | at or below 0.01 of speed nothing changes; otherwise the flip state takes one `FlipStep` at the spin speed and the sprite becomes `(50, 50 * orientation)`; the coin's speed and position are untouched |
| CoinSystems.FlipKeepsInvariant | src/coin.rs:71-99 | the flip state stays valid and the sprite height stays within [-50, 50] |
| CoinSystems.CoinFlipAnimation | src/coin.rs:67-101 | every coin takes one `Flip` step and nothing else changes |
| Geometry.FromCenterSize | src/cloud.rs:37-42 | the box has the given size and the given centre |
| Geometry.Intersect | src/cloud.rs:88 | the intersection lies inside both boxes |
| Geometry.OverlapsIffIntervals | src/cloud.rs:88 | the collision test holds iff both boxes are non-empty and their open intervals meet on both axes |
| Geometry.OverlapsSymmetric | src/cloud.rs:88 | box overlap is symmetric |
| Geometry.CenteredOverlap | src/cloud.rs:86-88 | two centred boxes overlap iff their centres are strictly closer than the half sizes summed, on both axes |
| Clouds.DefaultCloud | src/cloud.rs:28-32 | a new cloud is active |
| Clouds.CloudBounds | src/cloud.rs:34-43 | a cloud's box is 100 x 30 and centred on its translation |
| Clouds.NewCloud | src/cloud.rs:47-63 | the spawned cloud is active, tagged `Ingame`, coin-relative and at the marker's position |
| Clouds.CloudsForMatchMarkers | src/cloud.rs:45-64 | the k-th spawned cloud sits where the k-th marker asked for it |
| Clouds.InitCloudsReplacesMarkers | src/cloud.rs:45-65 | no marker is left, every other entity is kept, the entity count is unchanged, and each new entity is an active `Ingame` cloud |
| Clouds.InitClouds | src/cloud.rs:45-65 | the world becomes the markers removed plus one cloud per marker |
| Clouds.Pass | src/cloud.rs:81-93 | a struck active cloud goes inactive; everything else is unchanged |
| Clouds.PassAll | src/cloud.rs:81-94 | each entity takes one `Pass`, position by position |
| Clouds.Hits | src/cloud.rs:81-93 | the clouds struck in one pass number at most one per entity |
| Clouds.NoHitsIffNoneStruck | src/cloud.rs:81-93 | no hit is counted exactly when no active cloud meets the coin |
| Clouds.SlowedSpeed | src/cloud.rs:91-92 | each hit takes 200 off, never below 0, and no hit leaves the speed alone |
| Clouds.SecondPassIsInert | src/cloud.rs:82-89 | after a pass no cloud can be struck again, and a second pass changes nothing |
| Clouds.PassNeverActivates | src/cloud.rs:82-89 | `active` only goes from true to false; inactive and non-overlapping clouds are unchanged |
| Clouds.CheckCloudCoinCollision | src/cloud.rs:69-95 | a falling coin changes nothing; otherwise every struck cloud goes inactive and the speed becomes the old speed less 200 per hit, clamped at 0 |
| BoostItems.BoostItemBounds | src/boost_item.rs:28-37 | a boost item's box is 40 x 40 and centred on its translation |
| BoostItems.NewBoostItem | src/boost_item.rs:44-58 | the spawned item is tagged `Ingame`, coin-relative, at the marker's position, pulsing from the default scale |
| BoostItems.BoostItemsForMatchMarkers | src/boost_item.rs:44-59 | the k-th spawned item sits where the k-th marker asked for it |
| BoostItems.InitBoostItemsReplacesMarkers | src/boost_item.rs:39-60 | no marker is left, every other entity is kept, and each new entity is an `Ingame` boost item |
| BoostItems.InitBoostItems | src/boost_item.rs:39-60 | the world becomes the markers removed plus one item per marker |
| BoostItems.PickupsAccountForRemoved | src/boost_item.rs:70-77 | each entity is either picked up or kept unchanged, and the counts add up to the old count |
| BoostItems.CheckBoostItemCoinCollision | src/boost_item.rs:62-78 | overlapping items are removed and stored boosts grow by their number; speed and everything else are untouched |
| BoostItems.PickupOnlyAddsBoosts | src/boost_item.rs:73-74 | stored boosts never decrease, speed is unchanged, and boosts stay the same iff nothing overlaps |
| BoostItems.NoPickupsWhenNoneOverlap | src/boost_item.rs:73 | with no overlapping item nothing is picked up |
| Fairies.FairyBounds | src/fairy.rs:28-37 | a fairy's box is 60 x 60 and centred on its translation |
| Fairies.Glow | src/fairy.rs:63-74 | the glow child is untagged and pulses from the default scale |
| Fairies.NewFairy | src/fairy.rs:47-75 | the spawned fairy is tagged `Ingame`, coin-relative, at the marker's position, with exactly one glow child |
| Fairies.FairiesForMatchMarkers | src/fairy.rs:44-76 | the k-th spawned fairy sits where the k-th marker asked for it |
| Fairies.InitFairiesReplacesMarkers | src/fairy.rs:39-77 | no marker is left, every other entity is kept, and each new entity is an `Ingame` fairy with one child |
| Fairies.InitFairies | src/fairy.rs:39-77 | the world becomes the markers removed plus one fairy per marker |
| Fairies.TouchesAccountForRemoved | src/fairy.rs:90-100 | each entity is either touched, and leaves with its glow, or kept unchanged; the counts add up |
| Fairies.CheckFairyCoinCollision | src/fairy.rs:82-101 | overlapping fairies are removed with their children and speed grows by 400 per fairy; stored boosts and everything else are untouched |
| Anim.DefaultAnimScale | src/anim.rs:17-24 | the default is scale 1, direction +1, within the invariant |
| Anim.ScaleStep | src/anim.rs:28-40 | a step never overshoots the bound it is heading for, and the direction turns only with the scale exactly on that bound (0.8 turns to growing, 1.2 to shrinking) |
| Anim.ScaleStepKeepsInvariant | src/anim.rs:28-40 | for `dt >= 0` the scale stays in [0.8, 1.2] and the direction in {-1, +1} |
| Anim.ScaleStepTurnsOnlyAtBounds | src/anim.rs:30-40 | the direction reverses iff the scale passes a bound, and the scale is then exactly 0.8 or 1.2; otherwise it moves by `direction * dt` |
| Anim.Animate | src/anim.rs:26-43 | an animated entity steps its `AnimScale` and takes its scale as the transform scale; kind, tag, position and `RelativeCoinY` are unchanged and its children are animated in turn |
| Anim.AnimateAll | src/anim.rs:26-44 | every root is animated, position by position, and through `Animate` every descendant too; the forest keeps its shape |
| Anim.AnimateAllKeepsInvariant | src/anim.rs:26-44 | for `dt >= 0`, every oscillator in the forest stays in range and its scale is the transform scale |
| Anim.AnimateScale | src/anim.rs:26-44 | the world becomes `AnimateAll` of the old world |
| Physics.Shift | src/physics.rs:32-33 | a coin-relative entity moves straight down by the travel with all else kept; any other entity is unchanged |
| Physics.Scroll | src/physics.rs:32-34 | each entity is shifted in place and the count is unchanged |
| Physics.ScrollMovesOnlyRelative | src/physics.rs:23-34 | a coin-relative entity's y drops by exactly the travel, and its x and all else are kept; other entities are untouched |
| Physics.ScrollKeepsDistances | src/physics.rs:32-34 | vertical distances between coin-relative entities are preserved |
| Physics.ScrollsCompose | src/physics.rs:30-34 | two scrolls are one scroll by the summed travel |
| Physics.UpdateYPosRelativeToCoin | src/physics.rs:20-35 | without a single coin nothing changes; with one, the world scrolls by `speed * dt` |
| Physics.Cull | src/physics.rs:44-48 | the intended cull: the survivors are exactly the roots that are not coin-relative or at `y >= -10000` |
| Physics.CullRemovesExactlyOutOfBounds | src/physics.rs:42-48 | survivors are not coin-relative or at `y >= -10000`, and every such entity survives |
| Physics.CullRemovesWholeSubtrees | src/physics.rs:44-48 | every node is either in a survivor's subtree or in a culled entity's subtree |
| Physics.CullAsWritten | src/physics.rs:44-48 | the cull as written keeps every in-bounds root and every child of a culled root |
| Physics.Orphans | src/physics.rs:46 | every child of a culled root is among the orphans |
| Physics.CulledHeaders | src/physics.rs:46 | the culled roots' own nodes, at most one per root |
| Physics.CullAsWrittenRoots | src/physics.rs:44-48 | the cull as written leaves exactly the surviving roots and the orphaned children, each as often as before |
| Physics.CullAsWrittenNodes | src/physics.rs:46 | of the whole forest only the culled roots' own nodes go; every descendant stays |
| Physics.CulledRootsGone | src/physics.rs:44-48 | something is left iff it is a surviving root or an orphan, so no culled root survives unless it is also some culled root's child |
| Physics.CullAsWrittenAgreesWithoutChildren | src/physics.rs:46 | when no culled root has children the cull as written equals the recursive one |
| Physics.CullAsWrittenAppend | src/physics.rs:44-48 | the cull as written works root by root: it distributes over concatenation |
| Physics.CullAsWrittenStep | src/physics.rs:44-48 | one more root adds itself, or its children when it is culled |
| Physics.CulledFairyLeavesGlow | src/physics.rs:46 | a fairy culled as written leaves its glow behind, untagged and surviving the `Ingame` teardown; the recursive cull leaves nothing |
| Physics.CullIdempotent | src/physics.rs:44-48 | the intended, recursive cull is idempotent: culling twice is culling once |
| Physics.DespawnOutOfBoundsThings | src/physics.rs:40-49 | the world becomes `CullAsWritten` of the old world: culled roots go, their children stay |
| Level.DefaultLastCloudSpawnTime | src/level.rs:19-25 | the spawner starts at time 0 |
| Level.CloudMarker | src/level.rs:28-38 | the spawned marker is an untagged `InitCloud` at (0, 800) |
| Level.SpawnClouds | src/level.rs:30-40 | strictly more than a second after the last spawn, one marker is added and the time recorded; otherwise nothing changes |
| Level.SpawnsAreSpaced | src/level.rs:36-37 | over a run, `n` spawns move the recorded time on by more than `n` seconds, and it is always a tick's time |
| Level.SpawnCountBoundedByTime | src/level.rs:19-39 | from the start, a run that never passes time `t` spawns fewer than `t` markers |
| CoinCamera.PanTarget | src/coin_camera.rs:22-32 | the target is at least 150, exactly 150 iff the coin is not falling, and 150 plus the falling speed otherwise |
| CoinCamera.PanStepBetween | src/coin_camera.rs:34-40 | for `0 <= dt <= 1` the new height lies between the old height and the target |
| CoinCamera.PanStep | src/coin_camera.rs:34-40 | within 0.01 of the target the camera stays; otherwise the remaining gap to the target is exactly the old gap scaled by `1 - dt` |
| CoinCamera.PanStepMoves | src/coin_camera.rs:34-40 | within 0.01 of the target the camera stays; otherwise it moves by `(target - y) * dt` |
| CoinCamera.PanStepApproaches | src/coin_camera.rs:40 | for `0 <= dt <= 1` the distance to the target never grows |
| CoinCamera.SetupCoinCamera | src/coin_camera.rs:17-19 | the coin camera starts at height 0 |
| CoinCamera.PanCameraWithCoinSpeed | src/coin_camera.rs:24-41 | the camera takes one pan step towards the target for the coin's speed |
| CoinLaunchUi.IndicatorTop | src/coin_launch_ui.rs:85-87 | for a meter in [0, 1] the indicator's top lies in [24, 224], at the bar's bottom for 0 and its top for 1 |
| CoinLaunchUi.IndicatorRisesWithSpeed | src/coin_launch_ui.rs:85-87 | a fuller meter moves the indicator up by 200 per unit |
| CoinLaunchUi.LaunchUi | src/coin_launch_ui.rs:36-71 | three entities, all tagged `CoinLaunch`: a camera, the bar, and the indicator at the reading 0 |
| CoinLaunchUi.SetupCoinLaunchUi | src/coin_launch_ui.rs:36-71 | the launch UI is appended to the world |
| CoinLaunchUi.ResetLaunchSpeed | src/coin_launch_ui.rs:24-26 | the meter becomes 0 |
| CoinLaunchUi.AdvanceMeter | src/coin_launch_ui.rs:73-78 | the meter grows by `dt`; once past 1 it keeps only a fractional part in [0, 1), losing a whole number at least 1 |
| CoinLaunchUi.AdvanceMeterStaysInRange | src/coin_launch_ui.rs:73-78 | for `dt >= 0` a meter in [0, 1] stays in [0, 1] |
| CoinLaunchUi.UpdateSpeed | src/coin_launch_ui.rs:73-78 | the meter becomes `AdvanceMeter` of the old reading |
| CoinLaunchUi.Place | src/coin_launch_ui.rs:84-88 | a speed indicator gets the new top and nothing else changes; any other entity is untouched |
| CoinLaunchUi.PlaceAll | src/coin_launch_ui.rs:84-88 | each entity is placed, position by position |
| CoinLaunchUi.PlaceAllShowsTop | src/coin_launch_ui.rs:84-88 | every indicator shows the given top, everything else is unchanged, and placing again changes nothing |
| CoinLaunchUi.UpdateSpeedUi | src/coin_launch_ui.rs:80-89 | every indicator moves to the top for the meter's reading |
| CoinLaunchUi.LaunchCoin | src/coin_launch_ui.rs:91-97 | SPACE asks for `Ingame`; without it the next state is untouched |
| MainMenuUi.MainMenuEntities | src/main_menu_ui.rs:14-46 | three entities, all tagged `MainMenu`: a camera and two texts |
| MainMenuUi.SetupMainMenuUi | src/main_menu_ui.rs:14-46 | the menu's entities are appended to the world |
| MainMenuUi.StartGame | src/main_menu_ui.rs:48-52 | only in `MainMenu`: SPACE asks for `CoinLaunch`; without it the next state is untouched |
| EndUi.EndEntities | src/end_ui.rs:17-85 | five entities, all tagged `End`: a camera, fixed texts, and the final and best scores |
| EndUi.EndScreenShowsRegisteredScore | src/end_ui.rs:34-52 | after a registration the end screen shows that score as final and a best at least as large |
| EndUi.SetupEndUi | src/end_ui.rs:17-85 | the end screen for the current scores is appended; `Scores` is only read |
| EndUi.RestartGame | src/end_ui.rs:87-91 | only in `End`: SPACE asks for `CoinLaunch`; without it the next state is untouched |
| LoadingUi.LoadingEntities | src/loading_ui.rs:17-45 | a camera and a node, both tagged `Loading`, the node owning one untagged text |
| LoadingUi.LoadingUiSweptWhole | src/loading_ui.rs:20-44 | the shape of the loading screen: a recursive `Loading` teardown would take the untagged text with its parent and nothing else (none is registered) |
| LoadingUi.SetupLoadingUi | src/loading_ui.rs:17-45 | the loading screen is appended to the world |
| LoadingUi.UpdateLoadingUi | src/loading_ui.rs:47-50 | only in `Loading`: the menu is asked for, with no input needed |
| StateMachine.Successor | src/coin_launch_ui.rs:91-97 | the edge each transition system asks for (this one, with `start_game`, `restart_game` and `update_loading_ui` in the other UI files): no system asks for `Loading`, only the loading screen leads to the menu, and only `Ingame` has no transition system |
| StateMachine.Requested | src/main_menu_ui.rs:48-52 | the next state after this tick's transition systems (this one and its counterparts in the launch, end and loading files) is untouched or the state's successor; loading moves on without input, the others only on SPACE |
| StateMachine.RunTransitionSystems | src/end_ui.rs:87-91 | the state's own transition system sets the next state to `Requested` |
| StateMachine.Visit | src/loading_ui.rs:47-50 | a run of ticks, each applying the requested transition (from the loading screen onwards), visits one state per tick, starting from the given one |
| StateMachine.LoadingAndMenuNotRevisited | src/main_menu_ui.rs:48-52 | once started, the loading screen never comes back, and the menu never comes back after it is left |
| StateMachine.EnterSpawnsTaggedOwnState | src/end_ui.rs:17-85 | every setup tags what it spawns with its own state or leaves it untagged |
| StateMachine.TransitionKeepsNoLeak | src/app_state.rs:15-21 | after any transition no `Ingame` entity survives outside `Ingame` and no `End` entity outside `End` |
| StateMachine.TransitionsKeepNoLeak | src/app_state.rs:15-21 | the same holds along any sequence of transitions, however many game cycles it has |
| StateMachine.EndScreenTornDown | src/app_state.rs:39-41 | the end screen is gone once `End` is left |
| StateMachine.LoadingUiOutlivesLoading | src/app_state.rs:15-21 | with no teardown for `Loading`, the whole loading screen survives the hand-over to the menu |
| StateMachine.LaunchUiOutlivesLaunch | src/app_state.rs:15-21 | with teardown only for `Ingame` and `End`, the launch UI survives into the game |
| StateMachine.RunOnExit | src/app_state.rs:18-19 | leaving a state applies `OnExit` to the world |
| StateMachine.RunOnEnter | src/coin_launch_ui.rs:14-15 | entering a state appends its setup's entities, and entering `CoinLaunch` resets the meter |
| StateMachine.ApplyTransition | src/app_state.rs:15-21 | a pending state is entered after the old one is torn down and the new one set up, clearing the request; nothing happens without a request; no leak is introduced |

## Left out

- Rendering and layout: sprite colours, textures, fonts, text styles and UI
  positions other than the speed indicator's top. Only the kind, tag and
  position of each entity is kept.
- `src/ingame_ui.rs` only formats speed and boosts for display and is not
  part of this model. Neither are the asset loader (`src/game_assets.rs`),
  the window setup (`src/base.rs`), the plugin wiring (`src/lib.rs`) or the
  `math` module it declares.
- Bevy's `Rect`, `Query` and `Commands` are not part of this model.
  - `Rect::from_center_size`, `intersect` and `is_empty` have the
    semantics written in `Geometry`.
  - `Coin::get_bounds` does not appear in `src/coin.rs`. `CoinBounds` assumes
    a 50 x 50 box centred on the coin.
  - Commands are deferred. Each system reads the world as it was when the
    system started and applies its despawns and spawns at the end.
    Spawned entities go to the end of the sequence.
  - Entity identity and query order are not modelled. The entity order is
    that of the sequence.
- The collision, init and physics queries look at root entities only.
  Clouds, items, fairies, markers and speed indicators are only ever
  spawned as roots.
- The coin is kept apart from the entity forest. `single()` and
  `single_mut()` panic unless there is exactly one coin, so the systems
  that call them require exactly one.
- `f32` arithmetic is modelled with `real`: there is no rounding, overflow
  or NaN. Scores are unbounded integers where the source uses `i32`.
  `register_score` does no arithmetic, so nothing wraps there.
- CoinSystems.SpinSpeed: `powf(0.5)` is a parameter `root`, required to
  map (0, 1] into (0, 1], so only the bounds on the spin speed are proved,
  not its exact value.
- Time and input are parameters: `dt`, the elapsed time and whether SPACE
  was just pressed.
- Bevy's `run_if(in_state(..))` gating is a `requires` on the current
  state. The order in which systems run within a tick is not modelled.
- Transitions follow Bevy's `apply_state_transition`. A transition to the
  state already current also runs that state's exit and enter systems.
- Altitude, steering, manual boosts, the loss check that registers a score
  and enters `End`, altitude-tiered random spawning and the background tint
  are not part of this model. No system requests `End`, so `Ingame`
  has no successor in `StateMachine.Successor`.
- The coin camera's height is a field of the world, not a camera entity.
  The UI cameras are entities without a position.

## Findings

| source | as written | input that shows it | evidently intended | confidence | as-written member | corrected member |
|---|---|---|---|---|---|---|
| src/physics.rs:46 | a coin-relative entity below -10000 is removed with `despawn()`, which leaves its children alive | one fairy, with its glow child, at y = -10001 | the whole subtree is removed, as the fairy collision does with `despawn_recursive` (src/fairy.rs:95-98); otherwise the orphaned glow, which has no tag, also survives leaving `Ingame` | medium, not executed | Physics.CulledFairyLeavesGlow | Physics.CullRemovesWholeSubtrees |

The system `Physics.DespawnOutOfBoundsThings` keeps the behaviour as
written (`Physics.CullAsWritten`). `Physics.Cull` is the intended,
recursive definition, with its own lemmas: `CullRemovesWholeSubtrees`,
`CullRemovesExactlyOutOfBounds` and `CullIdempotent`.
