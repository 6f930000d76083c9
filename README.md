# PolyGuessr round engine in Dafny

PolyGuessr is a browser geo-guessing game. Each round it shows a 3D scene of one location from a fixed catalog, and it offers four location names to choose from. A guess scores points according to how far the guessed location lies from the right one on the game's fictional map. After five rounds the game shows the final statistics.

This project models the part of the game that decides what happens:

- `locations.dfy` (module `Locations`): the catalog of six locations and the game configuration, as constants. Lemmas state their shape.
- `utils.dfy` (module `Utils`): the helpers of `js/utils.js`:
  - the map distance;
  - the five-tier score and its label;
  - the Fisher-Yates shuffle and the random sampler built on it.
- `scene_manager.dfy` (module `SceneManagement`): the decisions of the scene manager:
  - whether a location is loaded from its GLTF model or replaced by a procedural fallback scene;
  - which fallback scene an id gets;
  - what clearing the scene keeps;
  - the `isLoading` flag around a load.
- `game_logic.dfy` (module `GameEngine`): the `GameLogic` class. It draws locations without replacement, builds the answer options, scores guesses, advances rounds, computes the final statistics and restarts.
- `wrappers.dfy`: an `Option` type.

Modelling choices:

- **Distances are squared.** Coordinates are integers, so every distance is kept as its square. Every threshold comparison is made on squares. `Utils.WithinDistanceIsEuclidean` proves that this matches the source's comparison of the real distance.
- **Randomness is supplied by the caller.** Every `Math.random` draw becomes a parameter.
  - A shuffle of n entries takes `picks` with `picks[i] <= i` (`ValidDraws`).
  - A round takes a `RoundDraws` value, which says which pool entry is drawn and whether the GLTF load succeeds.
  - Every contract holds for all draws the source could make.
- **The UI manager is an event log.** `GameLogic` appends each call it makes on the UI manager to `uiCalls`. The contracts therefore state what was shown.
- **Loading is one step.** Each awaited scene load is atomic, and its outcome is a parameter. Interleaving at the awaited load is not modelled (see "## Left out").
- **The scene is a flat list of children.** The Three.js scene is modelled as the list of its children. Each child is a light, a loaded GLTF model, or the scenery of a fallback scene.

Two behaviours of the code are kept exactly as written:

- **No state guards.** `submitGuess` and `nextRound` have no state checks, and the model adds none.
  - `SubmitGuess` scores whenever a current location exists.
  - With no current location, the source throws a `TypeError` before changing anything. The model returns `TypeErrorThrown` and leaves the state unchanged.
- **Load failures are always recovered.** `loadLocation` catches every load error and builds the fallback scene, so no load failure escapes it.

## Model

| member | source | states |
|---|---|---|
| Locations.CatalogIdsDistinct | data/locations.js:3-58 | no two catalog locations share an id |
| Locations.CatalogHasRoomForDistractors | data/locations.js:3-58 | the catalog has 6 entries, at least the 4 a round needs |
| Locations.ThresholdsAscending | data/locations.js:66-71 | the thresholds are 25, 75, 150, 300, strictly ascending |
| Locations.BasePointsIsMaxScore | data/locations.js:63-64 | basePoints equals maxScore, both 1000 |
| Locations.RoundsFitInCatalog | data/locations.js:62 | a game's 5 rounds are fewer than the catalog's locations, so one game never refills the pool |
| Locations.CoordinatesNonNegative | data/locations.js:9-54 | every catalog coordinate is a non-negative integer |
| Utils.SquareIsProduct | js/utils.js:12 | the squaring used for distances is n * n |
| Utils.SquaredDistance | js/utils.js:9-13 | calculateDistance, kept squared; SquaredDistanceIsSumOfSquares, SquaredDistanceSymmetric and SquaredDistanceZeroIffSamePoint state its properties |
| Utils.SquaredDistanceIsSumOfSquares | js/utils.js:9-13 | the squared distance is dx*dx + dy*dy of the two points |
| Utils.SquaredDistanceSymmetric | js/utils.js:9-13 | the distance from p to q is the distance from q to p |
| Utils.SquaredDistanceZeroIffSamePoint | js/utils.js:9-13 | the distance is zero exactly for identical points |
| Utils.WithinDistanceIsEuclidean | js/utils.js:24-30 | for the real distance d, d <= t holds exactly when the squared distance is within t*t, so comparisons on squares agree with the source's |
| Utils.CalculateScore | js/utils.js:20-35 | a distance within the perfect threshold scores basePoints, and no score exceeds basePoints |
| Utils.GetScoreDescription | js/utils.js:42-56 | the label is always one of the five tier labels; DescriptionMatchesScore ties each to its points tier |
| Utils.ScoreNonIncreasing | js/utils.js:20-35 | a guess further away never scores more |
| Utils.ShippedScoreValues | js/utils.js:24-34 | with the shipped configuration a guess scores one of 1000, 800, 600, 400, 100 |
| Utils.DescriptionMatchesScore | js/utils.js:42-56 | each label goes with exactly one points tier, e.g. "Perfect!" exactly when the points are basePoints |
| Utils.ScoringExamples | js/utils.js:20-56 | distances 25, 100 and 1000 score 1000, 600 and 100, with labels "Perfect!", "Good job!" and "Better luck next time!" |
| Utils.SwapSpec | js/utils.js:67 | the destructuring swap exchanges the two entries, keeps every other one and keeps the multiset |
| Utils.ShuffleDownPermutes | js/utils.js:65-68 | the swap loop, with each j in [0, i], permutes its input |
| Utils.Shuffled | js/utils.js:63-70 | what shuffleArray returns for given draws; ShuffledPermutes states that it is a permutation |
| Utils.ShuffledPermutes | js/utils.js:63-70 | the shuffle has the input's length and multiset |
| Utils.ShuffleArray | js/utils.js:63-70 | the in-place Fisher-Yates loop on a copied array returns the specified shuffle, a permutation of the input; the input is a value and is left as it was |
| Utils.PrefixIsSubMultiset | js/utils.js:80 | a prefix of a list is a sub-multiset of it |
| Utils.RandomElements | js/utils.js:78-81 | what getRandomElements returns for given draws; RandomElementsSpec states its size and that it is a sub-multiset |
| Utils.RandomElementsSpec | js/utils.js:78-81 | the sample has min(count, length) entries, taken from distinct positions of the input |
| Utils.GetRandomElements | js/utils.js:78-81 | the sampler returns the specified sample, with min(count, length) entries forming a sub-multiset of the input |
| SceneManagement.Contains | PolyGuessr/js/SceneManager.js:195-197 | String.prototype.includes; ContainsIffOccurs states that it holds exactly when the substring occurs |
| SceneManagement.ContainsIffOccurs | PolyGuessr/js/SceneManager.js:195-197 | the includes test holds exactly when the substring occurs at some position |
| SceneManagement.OccursAt | PolyGuessr/js/SceneManager.js:195-197 | an occurrence at a known position makes includes true |
| SceneManagement.MissingCharacter | PolyGuessr/js/SceneManager.js:195-197 | a string lacking one character of the keyword does not include it |
| SceneManagement.FallbackSceneType | PolyGuessr/js/SceneManager.js:193-197 | the scene type chosen by the substring tests in source order; the per-id lemmas below give it for every catalog id |
| SceneManagement.ForestClearingFallback | PolyGuessr/js/SceneManager.js:192-198 | "forest_clearing" gets the forest scene |
| SceneManagement.FloatingIslandFallback | PolyGuessr/js/SceneManager.js:192-198 | "floating_island" gets the forest scene |
| SceneManagement.UnderwaterCityFallback | PolyGuessr/js/SceneManager.js:192-198 | "underwater_city" gets the forest scene |
| SceneManagement.MissingKeywords | PolyGuessr/js/SceneManager.js:194-197 | an id containing none of "mountain", "desert", "volcano" keeps the default forest type |
| SceneManagement.MountainPeakFallback | PolyGuessr/js/SceneManager.js:192-198 | "mountain_peak" gets the mountain scene |
| SceneManagement.VolcanoCraterFallback | PolyGuessr/js/SceneManager.js:192-198 | "volcano_crater" gets the mountain scene, through the third test |
| SceneManagement.DesertOasisFallback | PolyGuessr/js/SceneManager.js:192-198 | "desert_oasis" gets the desert scene |
| SceneManagement.AttemptsGltf | PolyGuessr/js/SceneManager.js:101 | the test `modelPath && modelPath.includes('.gltf')`; CatalogAttemptsGltf states that it holds for every catalog location, and LoadLocation that the GLTF loader is tried exactly when it holds |
| SceneManagement.CatalogAttemptsGltf | PolyGuessr/js/SceneManager.js:101 | every catalog location has a ".gltf" model path, so loading it first tries the GLTF loader |
| SceneManagement.Lights | PolyGuessr/js/SceneManager.js:208-232 | the children clearScene keeps are all lights, no more than the scene had |
| SceneManagement.LightsKeepEveryLight | PolyGuessr/js/SceneManager.js:208-232 | clearing keeps every light of the scene |
| SceneManagement.LightsOfLights | PolyGuessr/js/SceneManager.js:208-232 | a scene of lights only is left as it is, so clearing twice equals clearing once |
| SceneManagement.NonLights | PolyGuessr/js/SceneManager.js:211-215 | the collected objects to remove contain no light |
| SceneManagement.NonLightsKeepEveryNonLight | PolyGuessr/js/SceneManager.js:211-215 | every non-light child is collected for removal |
| SceneManagement.RetainedNothing | PolyGuessr/js/SceneManager.js:217-218 | before any removal the scene is unchanged |
| SceneManagement.RetainedStep | PolyGuessr/js/SceneManager.js:217-218 | each scene.remove takes out one more collected object |
| SceneManagement.RetainedAll | PolyGuessr/js/SceneManager.js:217-229 | once every non-light child is removed, exactly the lights are left, in order |
| SceneManagement.InitialLights | PolyGuessr/js/SceneManager.js:69-86 | the ambient, directional and point lights that setupLighting adds; the constructor starts the scene with them |
| SceneManagement.FallbackScene | js/utils.js:115-143 | what generateFallbackScene leaves: every child removed, the point light included, then an ambient light, a directional light and the scenery of the chosen type |
| SceneManagement.SceneAfterLoad | PolyGuessr/js/SceneManager.js:93-119 | after a successful GLTF load the model is the last child, only lights precede it and every light of the old scene is kept; otherwise no GLTF model and no point light remain and the id's scenery is present |
| SceneManagement.GltfRequestsFor | PolyGuessr/js/SceneManager.js:101-102 | the GLTF paths one load requests: the model path when the test passes, none otherwise; LoadLocation states that a load appends exactly these to the requests |
| SceneManagement.ModelAfterLoad | PolyGuessr/js/SceneManager.js:93-133 | the current model after a load: the loaded model when the GLTF load succeeds, none otherwise, because clearScene forgets the old model; LoadLocation states that the manager's current model becomes it |
| SceneManagement.SceneManager.constructor | PolyGuessr/js/SceneManager.js:5-15 | a new manager holds the three lights of setupLighting, no model, and is not loading |
| SceneManagement.SceneManager.GetLoadingState | PolyGuessr/js/SceneManager.js:269-271 | outside a load the loading state is false |
| SceneManagement.SceneManager.ClearScene | PolyGuessr/js/SceneManager.js:208-232 | the collect-then-remove loops leave exactly the lights of the old scene, in order, and no current model |
| SceneManagement.SceneManager.GenerateFallbackScene | PolyGuessr/js/SceneManager.js:192-203 | the scene becomes the fallback scene of the type chosen from the id |
| SceneManagement.SceneManager.LoadLocation | PolyGuessr/js/SceneManager.js:93-119 | the GLTF loader is tried exactly for a ".gltf" path; a failed or skipped load gives the fallback scene; isLoading is false again on exit; the current model is the loaded model or none |
| SceneManagement.SceneManager.Dispose | PolyGuessr/js/SceneManager.js:276-280 | disposing clears the scene down to its lights and forgets the model |
| GameEngine.DistinctIdsOccurOnce | data/locations.js:3-58 | in a list with distinct ids no location occurs twice |
| GameEngine.Incorrect | PolyGuessr/js/GameLogic.js:91-92 | the catalog filtered to other ids, never longer than the catalog; IncorrectSpec and IncorrectDropsOne state what it keeps |
| GameEngine.IncorrectSpec | PolyGuessr/js/GameLogic.js:91-92 | the filter keeps only locations of other ids, each taken from the catalog |
| GameEngine.IncorrectDropsOne | PolyGuessr/js/GameLogic.js:91-92 | for an answer in a catalog with distinct ids, the filter drops exactly one entry |
| GameEngine.IncorrectKeepsAll | PolyGuessr/js/GameLogic.js:91-92 | a list with no entry of the answer's id passes the filter whole |
| GameEngine.LocationOptions | PolyGuessr/js/GameLogic.js:89-98 | what generateLocationOptions returns for given draws; LocationOptionsSpec and LocationOptionsValid state its shape |
| GameEngine.LocationOptionsSpec | PolyGuessr/js/GameLogic.js:89-98 | the options contain the answer exactly once, every other option is a catalog location of another id, there are min(3, others) + 1 of them, and with distinct catalog ids no id repeats |
| GameEngine.LocationOptionsValid | PolyGuessr/js/GameLogic.js:89-98 | for an answer from the catalog the options are min(3, catalog size - 1) + 1 distinct-id locations holding the answer once |
| GameEngine.OptionsFacts | PolyGuessr/js/GameLogic.js:93-97 | a shuffle of distractors plus the answer holds the answer once and otherwise only catalog locations of other ids |
| GameEngine.ShippedOptionCount | PolyGuessr/js/GameLogic.js:89-98 | with the shipped catalog a round offers exactly 4 options |
| GameEngine.SumPointsAppend | PolyGuessr/js/GameLogic.js:117-127 | appending a result adds exactly its points to the sum |
| GameEngine.CountPerfect | PolyGuessr/js/GameLogic.js:179-181 | the number of results within the perfect threshold; CountPerfectBounds bounds it by the rounds |
| GameEngine.CountPerfectBounds | PolyGuessr/js/GameLogic.js:179-181 | perfect guesses never outnumber the rounds, and equal them exactly when every round is perfect |
| GameEngine.RoundsInOrderMeans | PolyGuessr/js/GameLogic.js:120-127 | the recorded round numbers lie between 1 and the current round and never decrease |
| GameEngine.RoundsInOrderRaise | PolyGuessr/js/GameLogic.js:139 | raising the round number keeps the history in order |
| GameEngine.CatalogIsPlayable | data/locations.js:3-58 | the shipped catalog is non-empty with distinct ids, as the engine needs |
| GameEngine.DrawKeepsCatalog | PolyGuessr/js/GameLogic.js:75-79 | moving the drawn entry out of the pool keeps drawn plus pool equal to the catalog |
| GameEngine.RoundCalls | PolyGuessr/js/GameLogic.js:45-59 | the UI calls one round makes, in order: show the loading state, show the score and round, display the options, hide the loading state; PlayRound and PresentRound state that a round appends exactly these |
| GameEngine.GameLogic.constructor | PolyGuessr/js/GameLogic.js:5-21 | a new game is at round 1 with score 0, no results, the full pool, no current location, not ended |
| GameEngine.GameLogic.PoolForDraw | PolyGuessr/js/GameLogic.js:70-76 | the list a draw picks from is never empty, since an empty pool is refilled from the non-empty catalog, and under the invariant it holds only catalog locations |
| GameEngine.GameLogic.PoolLeftAfterDraws | PolyGuessr/js/GameLogic.js:70-79 | the pool holds catalog size minus the drawn count, and none of its entries was drawn since the last refill |
| GameEngine.GameLogic.SelectRandomLocation | PolyGuessr/js/GameLogic.js:68-82 | refills only an empty pool, returns the entry at the drawn index, removes exactly it with the rest in order, and never returns a location twice between refills |
| GameEngine.GameLogic.GenerateLocationOptions | PolyGuessr/js/GameLogic.js:89-98 | returns the specified options: the answer exactly once, min(3, catalog size - 1) others of other ids from the catalog, no id twice |
| GameEngine.GameLogic.CalculateFinalStats | PolyGuessr/js/GameLogic.js:168-183 | the statistics carry the total score and results unchanged, with perfect guesses at most the rounds, and equal to them exactly when all are perfect |
| GameEngine.GameLogic.EndGame | PolyGuessr/js/GameLogic.js:151-162 | the game is marked ended and the final statistics are shown |
| GameEngine.GameLogic.StartNewRound | PolyGuessr/js/GameLogic.js:36-62 | past the last round it only ends the game, without drawing or touching the pool or the scene; otherwise it draws a location, loads its scene, and shows the score and that location's options |
| GameEngine.GameLogic.PlayRound | PolyGuessr/js/GameLogic.js:45-59 | the drawn pool entry is removed from the pool with the rest in order, becomes the current location, loads its scene and shows its options with the current score |
| GameEngine.GameLogic.PresentRound | PolyGuessr/js/GameLogic.js:45-59 | the drawn location's scene is loaded and the options built for it are displayed with the current score |
| GameEngine.GameLogic.SubmitGuess | PolyGuessr/js/GameLogic.js:104-133 | appends exactly one result for the current round and location with the points of its distance, raises the score by exactly those points, so the score stays the sum of the results; with no current location it throws and changes nothing |
| GameEngine.GameLogic.NextRound | PolyGuessr/js/GameLogic.js:138-146 | the round goes up by one; the game ends exactly when it passes the last round, leaving pool, current location and scene untouched; otherwise a new round draws a location, loads its scene and shows its options |
| GameEngine.GameLogic.Init | PolyGuessr/js/GameLogic.js:26-31 | the first round is started as StartNewRound states (drawn location, pool, loaded scene, options), or the game ends when already past the last round; the loading screen is hidden after it |
| GameEngine.GameLogic.RestartGame | PolyGuessr/js/GameLogic.js:188-206 | from any state, restores the initial values (round 1, score 0, no results, full pool, not ended), resets the UI, starts round 1 from the full catalog and loads the drawn location's scene |
| GameEngine.GameLogic.GetGameState | PolyGuessr/js/GameLogic.js:212-220 | the snapshot copies the fields, and its score is the sum of its results' points |

## Left out

- UIManager: its calls are recorded in `uiCalls` and not modelled further, because they are DOM updates.
- js/main.js is not part of this model. It holds browser glue: singletons, event listeners and the WebGL check.
- Three.js rendering is left out because it is foreign code: `init`'s camera, renderer and controls, `loadGLTFModel`'s loader (its outcome is the `gltfLoads` parameter), `fitModelToScene`, `resetCameraPosition`, `animate`, `onWindowResize`, and the foreign `dispose` calls.
- The procedural meshes of `generateFallbackScene` and its helpers (js/utils.js:115-253) are one `ProceduralScenery` child, because they are Three.js objects placed at random float positions.
- `debounce` and `formatDistance` are left out: one is timer-based, the other formats a float as a string.
- GameEngine.GameLogic.CalculateFinalStats: does not compute `averageDistance`, because it is a float division (NaN with no results).
- Utils.SquaredDistance: returns the squared distance rather than its square root, because `Math.sqrt` is floating point. Results store the squared distance.
- Scene graph nesting: `clearScene` traverses the whole scene graph, and the model looks only at the scene's direct children.
- Console logging is left out.
- Interleaving at the awaited load is not modelled: each awaited load is one atomic step. In the source, `restartGame` (the Escape key at js/main.js:92-94, the restart and play-again buttons at PolyGuessr/js/UIManager.js:67-74) and `nextRound` (PolyGuessr/js/UIManager.js:62-64) are called without being awaited, so one can start while `startNewRound` waits at `loadLocation` (PolyGuessr/js/GameLogic.js:51). That can leave two GLTF models in the scene, `isLoading` false while a load is still pending, and the suspended round showing options built for the newer current location.
- GameEngine.GameLogic.constructor: takes the catalog as a parameter (the game passes GAME_LOCATIONS) and requires it to be non-empty with distinct ids. The engine therefore reasons about any such catalog; `CatalogIsPlayable` shows the shipped one qualifies.
- GameEngine.GameLogic.CalculateFinalStats, GameEngine.GameLogic.GetGameState: return a copy of the results, whereas the source returns the live `roundResults` array, so a later `push` in `submitGuess` would show in an earlier snapshot; nothing in the source relies on that.
- GameEngine.GameLogic.PresentRound: appends the round's four UI calls together after the load, because the round is one atomic step with no interleaving; in the source another handler can run between `showLoadingState` and the load's end (see the interleaving line above).
- SceneManagement.SceneManager.LoadLocation: isLoading being true during the load is checked inside the body only. The contract states that it is false again on exit.
- GameEngine.GameLogic.StartNewRound: states the options through `LocationOptions`, and their shape follows from `LocationOptionsValid`. The contract does not restate that shape.
- GameEngine.GameLogic.EndGame: requires the round to be past the last one, as at both of its call sites in the source, so that the invariant can tie `gameEnded` to the round number.
