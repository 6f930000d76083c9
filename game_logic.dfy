/**
 * The round-and-scoring engine (PolyGuessr/js/GameLogic.js): drawing locations
 * without replacement, building the answer options, scoring guesses, advancing
 * rounds, final statistics and restart.
 *
 * The engine talks to two collaborators. The scene manager is modelled
 * (SceneManagement.SceneManager) and its load is one atomic step. The UI manager is
 * not: each call the engine makes on it is appended to `uiCalls`, so the contracts
 * can say what was shown. Math.random becomes the caller-supplied RoundDraws.
 */
module GameEngine {
  import opened Wrappers
  import opened Locations
  import opened Utils
  import opened SceneManagement

  /** One completed round. The distance is kept squared (see module Utils). */
  datatype RoundResult = RoundResult(
    round: nat,
    guessedLocation: Location,
    correctLocation: Location,
    distanceSquared: nat,
    points: nat)

  /** calculateFinalStats's result, without the floating-point averageDistance. */
  datatype FinalStats = FinalStats(totalScore: nat, roundResults: seq<RoundResult>, perfectGuesses: nat)

  /** getGameState's snapshot. */
  datatype GameState = GameState(
    currentRound: nat,
    totalScore: nat,
    gameEnded: bool,
    currentLocation: Option<Location>,
    roundResults: seq<RoundResult>)

  /** The calls the engine makes on the UI manager, in the order made. */
  datatype UiCall =
    | ShowLoadingState
    | HideLoadingState
    | HideLoadingScreen
    | UpdateScore(score: nat, round: nat)
    | DisplayLocationOptions(options: seq<Location>)
    | DisplayResult(result: RoundResult)
    | DisplayFinalResults(stats: FinalStats)
    | ResetUI

  /** submitGuess either records a result or throws reading `currentLocation.name` when there is none. */
  datatype GuessOutcome = Recorded(result: RoundResult) | TypeErrorThrown

  /**
   * The random choices of one startNewRound: the pool index, whether the GLTF load
   * succeeds, the shuffle draws for picking distractors and for ordering the options.
   */
  datatype RoundDraws = RoundDraws(
    locationPick: nat,
    gltfLoads: bool,
    distractorPicks: seq<nat>,
    orderPicks: seq<nat>)

  /** The number of wrong answers offered beside the right one. */
  const DistractorCount: nat := 3

  /** Draws that Math.random could have produced for a pool of `poolSize` locations. */
  predicate ValidRoundDraws(d: RoundDraws, poolSize: nat, catalogSize: nat) {
    && d.locationPick < poolSize
    && ValidDraws(d.distractorPicks, catalogSize)
    && ValidDraws(d.orderPicks, DistractorCount + 1)
  }

  // ----- multisets of locations -----

  lemma SubMultisetMembers(a: seq<Location>, b: seq<Location>)
    requires multiset(a) <= multiset(b)
    ensures forall x :: x in a ==> x in b
  {
    forall x | x in a
      ensures x in b
    {
      assert multiset(a)[x] > 0;
    }
  }

  /** With distinct ids, no location occurs twice. */
  lemma {:induction false} DistinctIdsOccurOnce(s: seq<Location>, x: Location)
    requires DistinctIds(s)
    ensures multiset(s)[x] <= 1
  {
    if s != [] {
      assert s == [s[0]] + s[1..];
      DistinctIdsOccurOnce(s[1..], x);
      if s[0] == x {
        forall j | 0 <= j < |s[1..]|
          ensures s[1..][j] != x
        {
          assert s[1..][j] == s[j + 1];
        }
      }
    }
  }

  lemma RepeatedEntryCountsTwice(s: seq<Location>, i: nat, j: nat)
    requires i < j < |s| && s[i] == s[j]
    ensures multiset(s)[s[i]] >= 2
  {
    assert s == s[..j] + s[j..];
    assert s[..j][i] == s[i];
    assert s[j..][0] == s[j];
  }

  // ----- answer options -----

  /** `filter(location => location.id !== correct.id)` over the catalog. */
  function Incorrect(catalog: seq<Location>, correct: Location): (r: seq<Location>)
    ensures |r| <= |catalog|
  {
    if catalog == [] then []
    else (if catalog[0].id != correct.id then [catalog[0]] else []) + Incorrect(catalog[1..], correct)
  }

  /** The filter keeps only entries of other ids, each taken from the catalog. */
  lemma {:induction false} IncorrectSpec(catalog: seq<Location>, correct: Location)
    ensures forall i :: 0 <= i < |Incorrect(catalog, correct)| ==> Incorrect(catalog, correct)[i].id != correct.id
    ensures multiset(Incorrect(catalog, correct)) <= multiset(catalog)
  {
    if catalog != [] {
      assert catalog == [catalog[0]] + catalog[1..];
      IncorrectSpec(catalog[1..], correct);
    }
  }

  /** A catalog with distinct ids that holds the correct location loses exactly that one entry. */
  lemma {:induction false} IncorrectDropsOne(catalog: seq<Location>, correct: Location)
    requires DistinctIds(catalog) && correct in catalog
    ensures |Incorrect(catalog, correct)| == |catalog| - 1
  {
    if catalog[0] == correct {
      forall j | 0 <= j < |catalog[1..]|
        ensures catalog[1..][j].id != correct.id
      {
        assert catalog[1..][j] == catalog[j + 1];
      }
      IncorrectKeepsAll(catalog[1..], correct);
    } else {
      IncorrectDropsOne(catalog[1..], correct);
    }
  }

  lemma {:induction false} IncorrectKeepsAll(s: seq<Location>, correct: Location)
    requires forall j :: 0 <= j < |s| ==> s[j].id != correct.id
    ensures Incorrect(s, correct) == s
  {
    if s != [] {
      IncorrectKeepsAll(s[1..], correct);
    }
  }

  /**
   * What generateLocationOptions returns: up to DistractorCount entries of other
   * ids, picked at random from the catalog, with the correct one appended and the
   * whole list shuffled.
   */
  function LocationOptions(
    catalog: seq<Location>, correct: Location, distractorPicks: seq<nat>, orderPicks: seq<nat>): seq<Location>
    requires ValidDraws(distractorPicks, |catalog|) && ValidDraws(orderPicks, DistractorCount + 1)
  {
    var randomIncorrect := RandomElements(Incorrect(catalog, correct), DistractorCount, distractorPicks);
    RandomElementsSpec(Incorrect(catalog, correct), DistractorCount, distractorPicks);
    Shuffled(randomIncorrect + [correct], orderPicks)
  }

  /**
   * The options hold the correct location exactly once; every other option is a
   * catalog entry with a different id; there are min(3, number of other entries) + 1
   * of them; and over a catalog with distinct ids no two options share an id.
   */
  lemma LocationOptionsSpec(catalog: seq<Location>, correct: Location, distractorPicks: seq<nat>, orderPicks: seq<nat>)
    requires ValidDraws(distractorPicks, |catalog|) && ValidDraws(orderPicks, DistractorCount + 1)
    ensures var options := LocationOptions(catalog, correct, distractorPicks, orderPicks);
      && |options| == Min(DistractorCount, |Incorrect(catalog, correct)|) + 1
      && multiset(options)[correct] == 1
      && (forall i :: 0 <= i < |options| ==>
            options[i] == correct || (options[i].id != correct.id && options[i] in catalog))
      && (DistinctIds(catalog) ==> DistinctIds(options))
  {
    var incorrect := Incorrect(catalog, correct);
    var randomIncorrect := RandomElements(incorrect, DistractorCount, distractorPicks);
    RandomElementsSpec(incorrect, DistractorCount, distractorPicks);
    var options := Shuffled(randomIncorrect + [correct], orderPicks);
    ShuffledPermutes(randomIncorrect + [correct], orderPicks);
    IncorrectSpec(catalog, correct);
    SubMultisetMembers(randomIncorrect, incorrect);
    OptionsFacts(catalog, correct, randomIncorrect, options);
  }

  /**
   * What a round's option list is, for an answer taken from a catalog with distinct
   * ids: min(3, |catalog| - 1) + 1 entries, the answer exactly once, every other
   * entry a catalog location of another id, and no id twice.
   */
  predicate ValidOptions(options: seq<Location>, correct: Location, catalog: seq<Location>) {
    && |catalog| >= 1
    && |options| == Min(DistractorCount, |catalog| - 1) + 1
    && multiset(options)[correct] == 1
    && (forall i :: 0 <= i < |options| ==>
          options[i] == correct || (options[i].id != correct.id && options[i] in catalog))
    && DistinctIds(options)
  }

  lemma LocationOptionsValid(catalog: seq<Location>, correct: Location, distractorPicks: seq<nat>, orderPicks: seq<nat>)
    requires DistinctIds(catalog) && correct in catalog
    requires ValidDraws(distractorPicks, |catalog|) && ValidDraws(orderPicks, DistractorCount + 1)
    ensures ValidOptions(LocationOptions(catalog, correct, distractorPicks, orderPicks), correct, catalog)
  {
    IncorrectDropsOne(catalog, correct);
    LocationOptionsSpec(catalog, correct, distractorPicks, orderPicks);
  }

  lemma OptionsFacts(catalog: seq<Location>, correct: Location, distractors: seq<Location>, options: seq<Location>)
    requires multiset(distractors) <= multiset(catalog)
    requires forall x :: x in distractors ==> x.id != correct.id
    requires multiset(options) == multiset(distractors + [correct])
    ensures multiset(options)[correct] == 1
    ensures forall i :: 0 <= i < |options| ==>
      options[i] == correct || (options[i].id != correct.id && options[i] in catalog)
    ensures DistinctIds(catalog) ==> DistinctIds(options)
  {
    assert multiset(options) == multiset(distractors) + multiset{correct};
    assert correct !in distractors;
    SubMultisetMembers(distractors, catalog);
    forall i | 0 <= i < |options|
      ensures options[i] == correct || (options[i] in distractors && options[i].id != correct.id && options[i] in catalog)
    {
      assert options[i] in multiset(options);
    }
    if DistinctIds(catalog) {
      forall i, j | 0 <= i < j < |options|
        ensures options[i].id != options[j].id
      {
        if options[i].id == options[j].id {
          if options[i] == correct || options[j] == correct {
            assert options[i] == options[j];
          } else {
            var a :| 0 <= a < |catalog| && catalog[a] == options[i];
            var b :| 0 <= b < |catalog| && catalog[b] == options[j];
            assert a == b;
          }
          RepeatedEntryCountsTwice(options, i, j);
          if options[i] != correct {
            DistinctIdsOccurOnce(catalog, options[i]);
          }
        }
      }
    }
  }

  /** With the shipped catalog every round offers four options: the answer and three distractors. */
  lemma ShippedOptionCount(options: seq<Location>, correct: Location)
    requires ValidOptions(options, correct, GameLocations)
    ensures |options| == 4
  {
    CatalogHasRoomForDistractors();
  }

  // ----- results and statistics -----

  /** The sum of the points of `results`. */
  function SumPoints(results: seq<RoundResult>): nat {
    if results == [] then 0 else SumPoints(results[..|results| - 1]) + results[|results| - 1].points
  }

  lemma SumPointsAppend(results: seq<RoundResult>, r: RoundResult)
    ensures SumPoints(results + [r]) == SumPoints(results) + r.points
  {
    assert (results + [r])[..|results|] == results;
  }

  /** A result is a perfect guess when its distance is within the perfect threshold. */
  predicate IsPerfect(r: RoundResult) {
    WithinDistance(r.distanceSquared, Config.distanceThresholds.perfect)
  }

  /** `roundResults.filter(result => result.distance <= perfect).length`. */
  function CountPerfect(results: seq<RoundResult>): nat {
    if results == [] then 0
    else CountPerfect(results[..|results| - 1]) + (if IsPerfect(results[|results| - 1]) then 1 else 0)
  }

  /** There are never more perfect guesses than rounds, and all rounds are perfect exactly when the counts meet. */
  lemma {:induction false} CountPerfectBounds(results: seq<RoundResult>)
    ensures CountPerfect(results) <= |results|
    ensures CountPerfect(results) == |results| <==> forall i :: 0 <= i < |results| ==> IsPerfect(results[i])
  {
    if results != [] {
      var init := results[..|results| - 1];
      CountPerfectBounds(init);
      if CountPerfect(results) == |results| {
        forall i | 0 <= i < |results|
          ensures IsPerfect(results[i])
        {
          if i < |results| - 1 {
            assert results[i] == init[i];
          }
        }
      }
      if forall i :: 0 <= i < |results| ==> IsPerfect(results[i]) {
        forall i | 0 <= i < |init|
          ensures IsPerfect(init[i])
        {
          assert init[i] == results[i];
        }
      }
    }
  }

  /**
   * The round numbers of the history never go down, start at 1 or later and end at
   * `bound` or earlier. Stated from the last result backwards; RoundsInOrderMeans
   * spells it out position by position.
   */
  predicate RoundsInOrder(results: seq<RoundResult>, bound: nat) {
    results == []
    || (var last := results[|results| - 1];
        1 <= last.round <= bound && RoundsInOrder(results[..|results| - 1], last.round))
  }

  lemma {:induction false} RoundsInOrderMeans(results: seq<RoundResult>, bound: nat)
    requires RoundsInOrder(results, bound)
    ensures forall i :: 0 <= i < |results| ==> 1 <= results[i].round <= bound
    ensures forall i, j :: 0 <= i < j < |results| ==> results[i].round <= results[j].round
  {
    if results != [] {
      var n := |results|;
      var init := results[..n - 1];
      RoundsInOrderMeans(init, results[n - 1].round);
      assert forall i :: 0 <= i < n - 1 ==> results[i] == init[i];
    }
  }

  lemma RoundsInOrderRaise(results: seq<RoundResult>, bound: nat, newBound: nat)
    requires RoundsInOrder(results, bound) && bound <= newBound
    ensures RoundsInOrder(results, newBound)
  {
  }

  /** The shipped catalog is one the engine can be built with. */
  lemma CatalogIsPlayable()
    ensures GameLocations != [] && DistinctIds(GameLocations)
  {
    CatalogIdsDistinct();
  }

  /** Moving the entry at `pick` from the pool to the drawn list keeps the two together equal to the catalog. */
  lemma DrawKeepsCatalog(drawn: seq<Location>, pool: seq<Location>, pick: nat, catalog: seq<Location>)
    requires pick < |pool| && multiset(drawn) + multiset(pool) == multiset(catalog)
    ensures multiset(drawn + [pool[pick]]) + multiset(pool[..pick] + pool[pick + 1..]) == multiset(catalog)
  {
    assert pool == pool[..pick] + [pool[pick]] + pool[pick + 1..];
  }

  /** The calls a started round makes on the UI: loading on, score, options, loading off. */
  function RoundCalls(score: nat, round: nat, options: seq<Location>): seq<UiCall> {
    [ShowLoadingState, UpdateScore(score, round), DisplayLocationOptions(options), HideLoadingState]
  }

  // ----- the engine -----

  class GameLogic {
    const sceneManager: SceneManager
    /** The location catalog (GAME_LOCATIONS), which the engine draws from and refills the pool from. */
    const catalog: seq<Location>
    var currentRound: nat
    var totalScore: nat
    var roundResults: seq<RoundResult>
    var availableLocations: seq<Location>
    var currentLocation: Option<Location>
    var gameEnded: bool
    var uiCalls: seq<UiCall>
    /** The locations drawn since the pool was last filled, oldest first. */
    ghost var drawn: seq<Location>
    /** The options the latest round displayed. */
    ghost var shownOptions: seq<Location>

    /** The catalog can be drawn from and its ids tell its locations apart. */
    ghost predicate CatalogInvariant() {
      catalog != [] && DistinctIds(catalog)
    }

    /** The catalog is usable, and the drawn locations and the pool together are exactly the catalog. */
    ghost predicate PoolInvariant()
      reads this`availableLocations, this`drawn
    {
      && CatalogInvariant()
      && multiset(drawn) + multiset(availableLocations) == multiset(catalog)
    }

    /** The score is the sum of the recorded points, and the history is ordered up to the current round. */
    ghost predicate ScoreInvariant()
      reads this`currentRound, this`totalScore, this`roundResults
    {
      && 1 <= currentRound
      && totalScore == SumPoints(roundResults)
      && RoundsInOrder(roundResults, currentRound)
    }

    ghost predicate LocationInvariant()
      reads this`currentLocation
    {
      currentLocation.Some? ==> currentLocation.value in catalog
    }

    /** Every invariant except the one tying gameEnded to the round number. */
    ghost predicate Coherent()
      reads this`availableLocations, this`drawn, this`currentRound, this`totalScore, this`roundResults
      reads this`currentLocation, sceneManager
    {
      sceneManager.Valid() && PoolInvariant() && ScoreInvariant() && LocationInvariant()
    }

    /** The engine's invariant; the game has ended exactly when the round number is past the last round. */
    ghost predicate Valid()
      reads this`availableLocations, this`drawn, this`currentRound, this`totalScore, this`roundResults
      reads this`currentLocation, this`gameEnded, sceneManager
    {
      Coherent() && (gameEnded <==> currentRound > TotalRounds)
    }

    /** The game passes GameLocations as `locations`; CatalogIsPlayable shows it qualifies. */
    constructor (sceneManager: SceneManager, locations: seq<Location>)
      requires sceneManager.Valid() && locations != [] && DistinctIds(locations)
      ensures Valid() && this.sceneManager == sceneManager && catalog == locations
      ensures currentRound == 1 && totalScore == 0 && roundResults == []
      ensures availableLocations == locations && currentLocation == None && !gameEnded
      ensures uiCalls == [] && drawn == [] && shownOptions == []
    {
      this.sceneManager := sceneManager;
      catalog := locations;
      currentRound := 1;
      totalScore := 0;
      roundResults := [];
      availableLocations := locations;
      currentLocation := None;
      gameEnded := false;
      uiCalls := [];
      drawn := [];
      shownOptions := [];
    }

    /**
     * The list selectRandomLocation draws from: the pool, refilled from the catalog
     * when empty. A draw never meets an empty list, and under the invariant it only
     * offers catalog locations.
     */
    function PoolForDraw(): (pool: seq<Location>)
      reads this`availableLocations, this`drawn
      ensures catalog != [] ==> pool != []
      ensures PoolInvariant() ==> forall i :: 0 <= i < |pool| ==> pool[i] in catalog
    {
      if availableLocations == [] then catalog
      else
        assert PoolInvariant() ==> forall i :: 0 <= i < |availableLocations| ==>
          multiset(catalog)[availableLocations[i]] > 0;
        availableLocations
    }

    /** What the next draw may pick from, given the invariant: a full pool, or the catalog minus the drawn. */
    lemma PoolLeftAfterDraws()
      requires PoolInvariant()
      ensures |availableLocations| == |catalog| - |drawn|
      ensures forall x :: x in availableLocations ==> x !in drawn && x in catalog
    {
      assert |multiset(drawn) + multiset(availableLocations)| == |multiset(catalog)|;
      forall x | x in availableLocations
        ensures x !in drawn && x in catalog
      {
        assert multiset(catalog)[x] >= 1;
        DistinctIdsOccurOnce(catalog, x);
        assert multiset(availableLocations)[x] >= 1;
      }
    }

    /**
     * selectRandomLocation: refill the pool if it is empty, then take out the entry
     * at `pick` and return it; the other entries keep their order. Between refills no
     * location is returned twice.
     */
    method SelectRandomLocation(pick: nat) returns (location: Location)
      requires PoolInvariant() && pick < |PoolForDraw()|
      modifies this`availableLocations, this`drawn
      ensures PoolInvariant()
      ensures location == old(PoolForDraw())[pick] && location in catalog
      ensures availableLocations == old(PoolForDraw())[..pick] + old(PoolForDraw())[pick + 1..]
      ensures old(availableLocations) != [] ==> location !in old(drawn) && drawn == old(drawn) + [location]
      ensures old(availableLocations) == [] ==> drawn == [location]
      ensures |availableLocations| == |catalog| - |drawn|
    {
      if |availableLocations| == 0 {
        availableLocations := catalog;
        drawn := [];
      }
      PoolLeftAfterDraws();
      location := availableLocations[pick];
      DrawKeepsCatalog(drawn, availableLocations, pick, catalog);
      availableLocations := availableLocations[..pick] + availableLocations[pick + 1..];
      drawn := drawn + [location];
      PoolLeftAfterDraws();
    }

    /**
     * generateLocationOptions: filter the catalog down to the other ids, pick up to
     * DistractorCount of them at random, add the answer and shuffle.
     */
    method GenerateLocationOptions(correctLocation: Location, distractorPicks: seq<nat>, orderPicks: seq<nat>)
      returns (options: seq<Location>)
      requires DistinctIds(catalog) && correctLocation in catalog
      requires ValidDraws(distractorPicks, |catalog|) && ValidDraws(orderPicks, DistractorCount + 1)
      ensures options == LocationOptions(catalog, correctLocation, distractorPicks, orderPicks)
      ensures ValidOptions(options, correctLocation, catalog)
    {
      var incorrectLocations := Incorrect(catalog, correctLocation);
      var randomIncorrect := GetRandomElements(incorrectLocations, DistractorCount, distractorPicks);
      options := ShuffleArray(randomIncorrect + [correctLocation], orderPicks);
      LocationOptionsValid(catalog, correctLocation, distractorPicks, orderPicks);
    }

    /** calculateFinalStats. */
    function CalculateFinalStats(): (stats: FinalStats)
      reads this
      ensures stats.totalScore == totalScore && stats.roundResults == roundResults
      ensures stats.perfectGuesses <= |roundResults|
      ensures stats.perfectGuesses == |roundResults| <==> forall i :: 0 <= i < |roundResults| ==> IsPerfect(roundResults[i])
    {
      CountPerfectBounds(roundResults);
      FinalStats(totalScore, roundResults, CountPerfect(roundResults))
    }

    /** endGame: mark the game ended and show the final statistics. Called only past the last round. */
    method EndGame()
      requires Coherent() && currentRound > TotalRounds
      modifies this`gameEnded, this`uiCalls
      ensures Valid() && gameEnded
      ensures uiCalls == old(uiCalls) + [DisplayFinalResults(CalculateFinalStats())]
    {
      gameEnded := true;
      var gameStats := CalculateFinalStats();
      uiCalls := uiCalls + [DisplayFinalResults(gameStats)];
    }

    /**
     * startNewRound. Past the last round it only ends the game. Otherwise it draws a
     * location, loads its scene, and shows the score and a fresh set of options.
     */
    method StartNewRound(draws: RoundDraws)
      requires Valid() && ValidRoundDraws(draws, |PoolForDraw()|, |catalog|)
      modifies this, sceneManager
      ensures Valid()
      ensures currentRound == old(currentRound) && totalScore == old(totalScore)
      ensures roundResults == old(roundResults) && gameEnded == old(gameEnded)
      ensures old(currentRound) > TotalRounds ==>
        && availableLocations == old(availableLocations) && currentLocation == old(currentLocation)
        && drawn == old(drawn) && shownOptions == old(shownOptions)
        && uiCalls == old(uiCalls) + [DisplayFinalResults(CalculateFinalStats())]
        && sceneManager.sceneChildren == old(sceneManager.sceneChildren)
        && sceneManager.currentModel == old(sceneManager.currentModel)
        && sceneManager.gltfRequests == old(sceneManager.gltfRequests)
      ensures old(currentRound) <= TotalRounds ==>
        var location := old(PoolForDraw())[draws.locationPick];
        && currentLocation == Some(location)
        && availableLocations == old(PoolForDraw())[..draws.locationPick] + old(PoolForDraw())[draws.locationPick + 1..]
        && shownOptions == LocationOptions(catalog, location, draws.distractorPicks, draws.orderPicks)
        && uiCalls == old(uiCalls) + RoundCalls(totalScore, currentRound, shownOptions)
        && sceneManager.sceneChildren == SceneAfterLoad(old(sceneManager.sceneChildren), location, draws.gltfLoads)
        && sceneManager.currentModel == ModelAfterLoad(location, draws.gltfLoads)
        && sceneManager.gltfRequests == old(sceneManager.gltfRequests) + GltfRequestsFor(location)
    {
      if currentRound > TotalRounds {
        EndGame();
        return;
      }
      PlayRound(draws);
    }

    /** The playing branch of startNewRound: draw the round's location, then present it. */
    method PlayRound(draws: RoundDraws)
      requires Valid() && ValidRoundDraws(draws, |PoolForDraw()|, |catalog|)
      modifies this`availableLocations, this`drawn, this`currentLocation, this`shownOptions, this`uiCalls
      modifies sceneManager
      ensures Valid()
      ensures var location := old(PoolForDraw())[draws.locationPick];
        && currentLocation == Some(location)
        && availableLocations == old(PoolForDraw())[..draws.locationPick] + old(PoolForDraw())[draws.locationPick + 1..]
        && shownOptions == LocationOptions(catalog, location, draws.distractorPicks, draws.orderPicks)
        && uiCalls == old(uiCalls) + RoundCalls(totalScore, currentRound, shownOptions)
        && sceneManager.sceneChildren == SceneAfterLoad(old(sceneManager.sceneChildren), location, draws.gltfLoads)
        && sceneManager.currentModel == ModelAfterLoad(location, draws.gltfLoads)
        && sceneManager.gltfRequests == old(sceneManager.gltfRequests) + GltfRequestsFor(location)
    {
      var location := SelectRandomLocation(draws.locationPick);
      currentLocation := Some(location);
      PresentRound(location, draws);
    }

    /**
     * The rest of startNewRound once the location is drawn: load its scene, then show
     * the score and the options. Nothing between showLoadingState and the other UI
     * calls reads the log, so the four calls are appended together after the load.
     */
    method PresentRound(location: Location, draws: RoundDraws)
      requires Valid() && location in catalog
      requires ValidDraws(draws.distractorPicks, |catalog|) && ValidDraws(draws.orderPicks, DistractorCount + 1)
      modifies this`shownOptions, this`uiCalls, sceneManager
      ensures Valid()
      ensures sceneManager.sceneChildren == SceneAfterLoad(old(sceneManager.sceneChildren), location, draws.gltfLoads)
      ensures sceneManager.currentModel == ModelAfterLoad(location, draws.gltfLoads)
      ensures sceneManager.gltfRequests == old(sceneManager.gltfRequests) + GltfRequestsFor(location)
      ensures shownOptions == LocationOptions(catalog, location, draws.distractorPicks, draws.orderPicks)
      ensures uiCalls == old(uiCalls) + RoundCalls(totalScore, currentRound, shownOptions)
    {
      sceneManager.LoadLocation(location, draws.gltfLoads);
      var locationOptions := GenerateLocationOptions(location, draws.distractorPicks, draws.orderPicks);
      shownOptions := locationOptions;
      uiCalls := uiCalls + RoundCalls(totalScore, currentRound, locationOptions);
    }

    /**
     * submitGuess: score the guess against the current location, add the points and
     * record the result. No state guard: it scores whenever a current location exists.
     */
    method SubmitGuess(guessedLocation: Location) returns (outcome: GuessOutcome)
      requires Valid()
      modifies this`totalScore, this`roundResults, this`uiCalls
      ensures Valid()
      ensures old(currentLocation).None? ==>
        && outcome == TypeErrorThrown
        && totalScore == old(totalScore) && roundResults == old(roundResults) && uiCalls == old(uiCalls)
      ensures old(currentLocation).Some? ==>
        var distanceSquared := SquaredDistance(guessedLocation.coordinates, currentLocation.value.coordinates);
        var result := RoundResult(currentRound, guessedLocation, currentLocation.value,
                                  distanceSquared, CalculateScore(Config, distanceSquared));
        && outcome == Recorded(result)
        && roundResults == old(roundResults) + [result]
        && totalScore == old(totalScore) + result.points
        && uiCalls == old(uiCalls) + [DisplayResult(result)]
    {
      if currentLocation.None? {
        return TypeErrorThrown;
      }
      var distance := SquaredDistance(guessedLocation.coordinates, currentLocation.value.coordinates);
      var points := CalculateScore(Config, distance);
      totalScore := totalScore + points;
      var roundResult := RoundResult(currentRound, guessedLocation, currentLocation.value, distance, points);
      SumPointsAppend(roundResults, roundResult);
      assert (roundResults + [roundResult])[..|roundResults|] == roundResults;
      roundResults := roundResults + [roundResult];
      uiCalls := uiCalls + [DisplayResult(roundResult)];
      outcome := Recorded(roundResult);
    }

    /** nextRound: count the round up; start it if it exists, otherwise end the game. No state guard. */
    method NextRound(draws: RoundDraws)
      requires Valid() && ValidRoundDraws(draws, |PoolForDraw()|, |catalog|)
      modifies this, sceneManager
      ensures Valid()
      ensures currentRound == old(currentRound) + 1
      ensures gameEnded <==> currentRound > TotalRounds
      ensures totalScore == old(totalScore) && roundResults == old(roundResults)
      ensures currentRound > TotalRounds ==>
        && availableLocations == old(availableLocations) && currentLocation == old(currentLocation)
        && drawn == old(drawn) && shownOptions == old(shownOptions)
        && uiCalls == old(uiCalls) + [DisplayFinalResults(CalculateFinalStats())]
        && sceneManager.sceneChildren == old(sceneManager.sceneChildren)
        && sceneManager.currentModel == old(sceneManager.currentModel)
        && sceneManager.gltfRequests == old(sceneManager.gltfRequests)
      ensures currentRound <= TotalRounds ==>
        var location := old(PoolForDraw())[draws.locationPick];
        && currentLocation == Some(location)
        && availableLocations == old(PoolForDraw())[..draws.locationPick] + old(PoolForDraw())[draws.locationPick + 1..]
        && shownOptions == LocationOptions(catalog, location, draws.distractorPicks, draws.orderPicks)
        && uiCalls == old(uiCalls) + RoundCalls(totalScore, currentRound, shownOptions)
        && sceneManager.sceneChildren == SceneAfterLoad(old(sceneManager.sceneChildren), location, draws.gltfLoads)
        && sceneManager.currentModel == ModelAfterLoad(location, draws.gltfLoads)
        && sceneManager.gltfRequests == old(sceneManager.gltfRequests) + GltfRequestsFor(location)
    {
      currentRound := currentRound + 1;
      RoundsInOrderRaise(roundResults, currentRound - 1, currentRound);
      if currentRound <= TotalRounds {
        StartNewRound(draws);
      } else {
        EndGame();
      }
    }

    /** init: start the first round, then hide the loading screen. */
    method Init(draws: RoundDraws)
      requires Valid() && ValidRoundDraws(draws, |PoolForDraw()|, |catalog|)
      modifies this, sceneManager
      ensures Valid()
      ensures currentRound == old(currentRound) && totalScore == old(totalScore) && roundResults == old(roundResults)
      ensures gameEnded == old(gameEnded)
      ensures old(currentRound) > TotalRounds ==>
        && availableLocations == old(availableLocations) && currentLocation == old(currentLocation)
        && drawn == old(drawn) && shownOptions == old(shownOptions)
        && uiCalls == old(uiCalls) + [DisplayFinalResults(CalculateFinalStats()), HideLoadingScreen]
        && sceneManager.sceneChildren == old(sceneManager.sceneChildren)
        && sceneManager.currentModel == old(sceneManager.currentModel)
        && sceneManager.gltfRequests == old(sceneManager.gltfRequests)
      ensures old(currentRound) <= TotalRounds ==>
        var location := old(PoolForDraw())[draws.locationPick];
        && currentLocation == Some(location)
        && availableLocations == old(PoolForDraw())[..draws.locationPick] + old(PoolForDraw())[draws.locationPick + 1..]
        && shownOptions == LocationOptions(catalog, location, draws.distractorPicks, draws.orderPicks)
        && uiCalls == old(uiCalls) + RoundCalls(totalScore, currentRound, shownOptions) + [HideLoadingScreen]
        && sceneManager.sceneChildren == SceneAfterLoad(old(sceneManager.sceneChildren), location, draws.gltfLoads)
        && sceneManager.currentModel == ModelAfterLoad(location, draws.gltfLoads)
        && sceneManager.gltfRequests == old(sceneManager.gltfRequests) + GltfRequestsFor(location)
    {
      StartNewRound(draws);
      uiCalls := uiCalls + [HideLoadingScreen];
    }

    /**
     * restartGame: put every field back to the constructor's value, with the pool full
     * again, reset the UI and start round 1.
     */
    method RestartGame(draws: RoundDraws)
      requires sceneManager.Valid() && CatalogInvariant() && ValidRoundDraws(draws, |catalog|, |catalog|)
      modifies this, sceneManager
      ensures Valid()
      ensures currentRound == 1 && totalScore == 0 && roundResults == [] && !gameEnded
      ensures currentLocation == Some(catalog[draws.locationPick])
      ensures availableLocations == catalog[..draws.locationPick] + catalog[draws.locationPick + 1..]
      ensures shownOptions == LocationOptions(catalog, catalog[draws.locationPick], draws.distractorPicks, draws.orderPicks)
      ensures uiCalls == old(uiCalls) + [ResetUI] + RoundCalls(0, 1, shownOptions)
      ensures sceneManager.sceneChildren ==
        SceneAfterLoad(old(sceneManager.sceneChildren), catalog[draws.locationPick], draws.gltfLoads)
      ensures sceneManager.currentModel == ModelAfterLoad(catalog[draws.locationPick], draws.gltfLoads)
      ensures sceneManager.gltfRequests == old(sceneManager.gltfRequests) + GltfRequestsFor(catalog[draws.locationPick])
    {
      currentRound := 1;
      totalScore := 0;
      roundResults := [];
      availableLocations := catalog;
      currentLocation := None;
      gameEnded := false;
      drawn := [];
      uiCalls := uiCalls + [ResetUI];
      assert PoolForDraw() == catalog;
      StartNewRound(draws);
    }

    /** getGameState: a snapshot whose score is the sum of its results' points. */
    function GetGameState(): (state: GameState)
      reads this, sceneManager
      ensures state.currentRound == currentRound && state.totalScore == totalScore
      ensures state.gameEnded == gameEnded && state.currentLocation == currentLocation
      ensures state.roundResults == roundResults
      ensures Valid() ==> state.totalScore == SumPoints(state.roundResults)
      ensures Valid() ==> (state.gameEnded <==> state.currentRound > TotalRounds)
    {
      GameState(currentRound, totalScore, gameEnded, currentLocation, roundResults)
    }
  }
}
