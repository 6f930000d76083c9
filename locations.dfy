/**
 * The static location catalog and the game configuration (data/locations.js).
 * Both are constant literals in the game; here they are Dafny constants, and the
 * lemmas below state the shape the rest of the game relies on.
 */
module Locations {
  import opened Wrappers

  /** A point on the fictional 2D map. */
  datatype Coordinates = Coordinates(x: int, y: int)

  datatype Difficulty = Easy | Medium | Hard

  /** One playable location. `modelPath` is optional: the scene loader tests for it. */
  datatype Location = Location(
    id: string,
    name: string,
    modelPath: Option<string>,
    description: string,
    coordinates: Coordinates,
    region: string,
    difficulty: Difficulty)

  /** The four distance thresholds, in map units. */
  datatype Thresholds = Thresholds(perfect: nat, great: nat, good: nat, okay: nat)

  datatype GameConfig = GameConfig(
    totalRounds: nat,
    maxScore: nat,
    basePoints: nat,
    distanceThresholds: Thresholds)

  /** GAME_LOCATIONS: the six locations, in catalog order. */
  const GameLocations: seq<Location> := [
    Location("forest_clearing", "Enchanted Forest", Some("assets/models/forest.gltf"),
             "A mystical forest clearing with ancient trees",
             Coordinates(100, 200), "Northern Wilderness", Easy),
    Location("mountain_peak", "Crystal Mountain", Some("assets/models/mountain.gltf"),
             "A towering peak covered in snow and crystals",
             Coordinates(300, 100), "Eastern Highlands", Medium),
    Location("desert_oasis", "Golden Oasis", Some("assets/models/desert.gltf"),
             "A peaceful oasis in the vast desert",
             Coordinates(500, 400), "Southern Sands", Hard),
    Location("floating_island", "Sky Sanctuary", Some("assets/models/floating_island.gltf"),
             "A magical floating island in the clouds",
             Coordinates(200, 50), "Celestial Realm", Medium),
    Location("underwater_city", "Coral Kingdom", Some("assets/models/underwater.gltf"),
             "An ancient underwater civilization",
             Coordinates(400, 350), "Deep Ocean", Hard),
    Location("volcano_crater", "Fire Peak", Some("assets/models/volcano.gltf"),
             "The glowing crater of an active volcano",
             Coordinates(150, 300), "Molten Lands", Easy)
  ]

  /** GAME_CONFIG. */
  const Config: GameConfig := GameConfig(5, 1000, 1000, Thresholds(25, 75, 150, 300))

  const TotalRounds: nat := Config.totalRounds

  /** No two entries of `s` share an id. */
  predicate DistinctIds(s: seq<Location>) {
    forall i, j :: 0 <= i < j < |s| ==> s[i].id != s[j].id
  }

  /** The thresholds are strictly ascending, so the tiers are nested intervals. */
  predicate AscendingThresholds(t: Thresholds) {
    t.perfect < t.great < t.good < t.okay
  }

  lemma CatalogIdsDistinct()
    ensures DistinctIds(GameLocations)
  {
  }

  lemma CatalogHasRoomForDistractors()
    ensures |GameLocations| == 6 >= 4
  {
  }

  lemma ThresholdsAscending()
    ensures AscendingThresholds(Config.distanceThresholds)
    ensures Config.distanceThresholds == Thresholds(25, 75, 150, 300)
  {
  }

  lemma BasePointsIsMaxScore()
    ensures Config.basePoints == Config.maxScore == 1000
  {
  }

  /** A whole game draws TotalRounds locations, fewer than the catalog holds. */
  lemma RoundsFitInCatalog()
    ensures 0 < TotalRounds < |GameLocations|
  {
  }

  lemma CoordinatesNonNegative()
    ensures forall l :: l in GameLocations ==> l.coordinates.x >= 0 && l.coordinates.y >= 0
  {
  }
}
