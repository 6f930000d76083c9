/**
 * The decision logic of the scene manager (PolyGuessr/js/SceneManager.js): whether a
 * location is loaded from its GLTF model or replaced by a procedural fallback scene,
 * which fallback scene a location id gets, what clearing the scene keeps, and the
 * isLoading flag around a load.
 *
 * The Three.js scene graph is modelled as the flat list of the scene's children.
 * What is drawn is abstracted to one object per kind: a light, a loaded GLTF model
 * (by its path), or the procedural scenery of a fallback scene (by its type).
 */
module SceneManagement {
  import opened Wrappers
  import opened Locations

  datatype SceneType = Forest | Mountain | Desert

  datatype LightKind = AmbientLight | DirectionalLight | PointLight

  datatype SceneObject =
    | Light(kind: LightKind)
    | GltfModel(path: string)
    | ProceduralScenery(sceneType: SceneType)

  // ----- substring test -----

  /** String.prototype.includes. */
  function Contains(s: string, sub: string): bool
    decreases |s|
  {
    if |s| < |sub| then false
    else s[..|sub|] == sub || Contains(s[1..], sub)
  }

  /** `sub` occurs in `s` starting at position i. */
  predicate OccursAtIndex(s: string, sub: string, i: int) {
    0 <= i <= |s| - |sub| && s[i..i + |sub|] == sub
  }
  /** Contains holds exactly when `sub` occurs at some position of `s`. */
  lemma {:induction false} ContainsIffOccurs(s: string, sub: string)
    ensures Contains(s, sub) <==> exists i :: OccursAtIndex(s, sub, i)
    decreases |s|
  {
    if |s| < |sub| {
      forall i ensures !OccursAtIndex(s, sub, i) { }
    } else if s[..|sub|] == sub {
      assert OccursAtIndex(s, sub, 0);
    } else {
      ContainsIffOccurs(s[1..], sub);
      if Contains(s, sub) {
        var i :| OccursAtIndex(s[1..], sub, i);
        SliceOfTail(s, i, |sub|);
        assert OccursAtIndex(s, sub, i + 1);
      } else {
        forall i | 0 <= i <= |s| - |sub|
          ensures !OccursAtIndex(s, sub, i)
        {
          if i > 0 {
            SliceOfTail(s, i - 1, |sub|);
            assert !OccursAtIndex(s[1..], sub, i - 1);
          } else {
            assert s[i..i + |sub|] == s[..|sub|];
          }
        }
      }
    }
  }
  lemma SliceOfTail(s: string, j: nat, n: nat)
    requires j + 1 + n <= |s|
    ensures s[1..][j..j + n] == s[j + 1..j + 1 + n]
  {
    var t, u := s[1..][j..j + n], s[j + 1..j + 1 + n];
    assert forall k :: 0 <= k < n ==> t[k] == u[k];
  }

  /** An occurrence at a known position is enough for Contains. */
  lemma OccursAt(s: string, sub: string, i: nat)
    requires OccursAtIndex(s, sub, i)
    ensures Contains(s, sub)
  {
    ContainsIffOccurs(s, sub);
  }
  /** A character of `sub` that `s` lacks rules `sub` out. */
  lemma MissingCharacter(s: string, sub: string, c: char)
    requires c in sub && c !in s
    ensures !Contains(s, sub)
  {
    ContainsIffOccurs(s, sub);
    var k :| 0 <= k < |sub| && sub[k] == c;
    forall i | 0 <= i <= |s| - |sub|
      ensures !OccursAtIndex(s, sub, i)
    {
      assert s[i..i + |sub|][k] == s[i + k];
    }
  }

  // ----- fallback scene choice -----

  /** The scene type of the fallback scene, chosen by substrings of the location id, in this order. */
  function FallbackSceneType(locationId: string): SceneType {
    if Contains(locationId, "mountain") then Mountain
    else if Contains(locationId, "desert") then Desert
    else if Contains(locationId, "volcano") then Mountain
    else Forest
  }

  /** The scene the procedural generator leaves: it empties the scene, adds two lights and the scenery. */
  function FallbackScene(sceneType: SceneType): seq<SceneObject> {
    [Light(AmbientLight), Light(DirectionalLight), ProceduralScenery(sceneType)]
  }

  /** The three lights the scene manager sets up at start. */
  function InitialLights(): seq<SceneObject> {
    [Light(AmbientLight), Light(DirectionalLight), Light(PointLight)]
  }

  /** loadLocation tries the GLTF loader only for a present model path containing ".gltf". */
  predicate AttemptsGltf(location: Location) {
    location.modelPath.Some? && Contains(location.modelPath.value, ".gltf")
  }

  /** An id lacking 'm', 'v' and one letter of "desert" contains none of the three keywords. */
  lemma MissingKeywords(id: string, d: char)
    requires 'm' !in id && 'v' !in id && d in "desert" && d !in id
    ensures FallbackSceneType(id) == Forest
  {
    MissingCharacter(id, "mountain", 'm');
    MissingCharacter(id, "desert", d);
    MissingCharacter(id, "volcano", 'v');
  }

  /** "forest_clearing", "floating_island" and "underwater_city" contain none of the keywords. */
  lemma ForestClearingFallback(id: string)
    requires id == "forest_clearing"
    ensures FallbackSceneType(id) == Forest
  {
    MissingKeywords(id, 'd');
  }

  lemma FloatingIslandFallback(id: string)
    requires id == "floating_island"
    ensures FallbackSceneType(id) == Forest
  {
    MissingKeywords(id, 'e');
  }

  lemma UnderwaterCityFallback(id: string)
    requires id == "underwater_city"
    ensures FallbackSceneType(id) == Forest
  {
    MissingKeywords(id, 's');
  }

  /** "mountain" is tested first. */
  lemma MountainPeakFallback(id: string)
    requires id == "mountain_peak"
    ensures FallbackSceneType(id) == Mountain
  {
    OccursAt(id, "mountain", 0);
  }

  /** "volcano" is tested after "desert" and also gives the mountain scene. */
  lemma VolcanoCraterFallback(id: string)
    requires id == "volcano_crater"
    ensures FallbackSceneType(id) == Mountain
  {
    MissingCharacter(id, "mountain", 'm');
    MissingCharacter(id, "desert", 'd');
    OccursAt(id, "volcano", 0);
  }

  lemma DesertOasisFallback(id: string)
    requires id == "desert_oasis"
    ensures FallbackSceneType(id) == Desert
  {
    MissingCharacter(id, "mountain", 'm');
    OccursAt(id, "desert", 0);
  }

  /** Every shipped location names a GLTF model, so every load of a catalog location first tries the loader. */
  lemma CatalogAttemptsGltf(i: nat)
    requires i < |GameLocations|
    ensures AttemptsGltf(GameLocations[i])
  {
    var path := GameLocations[i].modelPath.value;
    var at := [20, 22, 20, 29, 24, 21][i];
    assert OccursAtIndex(path, ".gltf", at);
    OccursAt(path, ".gltf", at);
  }

  // ----- scene contents -----

  /** Every entry of `s` is a light. */
  predicate AllLights(s: seq<SceneObject>) {
    forall i :: 0 <= i < |s| ==> s[i].Light?
  }

  /** The lights among `s`, in order. */
  function Lights(s: seq<SceneObject>): (r: seq<SceneObject>)
    ensures AllLights(r) && |r| <= |s|
  {
    if s == [] then []
    else (if s[0].Light? then [s[0]] else []) + Lights(s[1..])
  }

  /** No light is lost. */
  lemma {:induction false} LightsKeepEveryLight(s: seq<SceneObject>, x: SceneObject)
    requires x in s && x.Light?
    ensures x in Lights(s)
  {
    if s[0] != x {
      LightsKeepEveryLight(s[1..], x);
    }
  }

  /** A list of lights is its own light list: clearing twice leaves what clearing once leaves. */
  lemma {:induction false} LightsOfLights(s: seq<SceneObject>)
    requires AllLights(s)
    ensures Lights(s) == s
  {
    if s != [] {
      LightsOfLights(s[1..]);
      assert s == [s[0]] + s[1..];
    }
  }

  /** The non-light children in scene order: what clearScene collects to remove. */
  function NonLights(s: seq<SceneObject>): (r: seq<SceneObject>)
    ensures forall i :: 0 <= i < |r| ==> !r[i].Light?
  {
    if s == [] then []
    else NonLights(s[..|s| - 1]) + (if s[|s| - 1].Light? then [] else [s[|s| - 1]])
  }

  lemma {:induction false} NonLightsKeepEveryNonLight(s: seq<SceneObject>, x: SceneObject)
    requires x in s && !x.Light?
    ensures x in NonLights(s)
    decreases |s|
  {
    if s[|s| - 1] != x {
      assert s == s[..|s| - 1] + [s[|s| - 1]];
      NonLightsKeepEveryNonLight(s[..|s| - 1], x);
    }
  }

  /** `scene.remove(object)`: the object leaves the children (a Three.js object is a child at most once). */
  function Without(s: seq<SceneObject>, v: SceneObject): seq<SceneObject> {
    if s == [] then []
    else (if s[0] == v then [] else [s[0]]) + Without(s[1..], v)
  }

  /** The children left once every object of `removed` has been taken out; lights are never in it. */
  function Retained(s: seq<SceneObject>, removed: seq<SceneObject>): seq<SceneObject> {
    if s == [] then []
    else (if s[0].Light? || s[0] !in removed then [s[0]] else []) + Retained(s[1..], removed)
  }

  lemma {:induction false} RetainedNothing(s: seq<SceneObject>)
    ensures Retained(s, []) == s
  {
    if s != [] {
      RetainedNothing(s[1..]);
      assert s == [s[0]] + s[1..];
    }
  }

  /** Removing one more non-light object. */
  lemma {:induction false} RetainedStep(s: seq<SceneObject>, removed: seq<SceneObject>, v: SceneObject)
    requires !v.Light?
    ensures Without(Retained(s, removed), v) == Retained(s, removed + [v])
  {
    if s != [] {
      RetainedStep(s[1..], removed, v);
      var rest := Retained(s[1..], removed);
      if s[0].Light? || s[0] !in removed {
        var kept := [s[0]] + rest;
        assert Retained(s, removed) == kept;
        assert kept[0] == s[0] && kept[1..] == rest;
      } else {
        assert Retained(s, removed) == rest;
      }
    }
  }

  /** Once every non-light child has been removed, the lights are left. */
  lemma {:induction false} RetainedAll(s: seq<SceneObject>, removed: seq<SceneObject>)
    requires forall x :: x in s && !x.Light? ==> x in removed
    ensures Retained(s, removed) == Lights(s)
  {
    if s != [] {
      RetainedAll(s[1..], removed);
    }
  }

  /**
   * The children after loading `location` into a scene that had `before`: the lights
   * kept by clearScene plus the model when the GLTF load succeeds, and otherwise the
   * fallback scene of the location's id.
   */
  function SceneAfterLoad(before: seq<SceneObject>, location: Location, gltfLoads: bool): (after: seq<SceneObject>)
    ensures AttemptsGltf(location) && gltfLoads ==>
      && |after| >= 1 && after[|after| - 1] == GltfModel(location.modelPath.value)
      && AllLights(after[..|after| - 1])
      && forall x :: x in before && x.Light? ==> x in after[..|after| - 1]
    ensures !(AttemptsGltf(location) && gltfLoads) ==>
      && (forall i :: 0 <= i < |after| ==> !after[i].GltfModel?)
      && Light(PointLight) !in after
      && ProceduralScenery(FallbackSceneType(location.id)) in after
  {
    if AttemptsGltf(location) && gltfLoads then
      var kept := Lights(before);
      assert (kept + [GltfModel(location.modelPath.value)])[..|kept|] == kept;
      assert forall x :: x in before && x.Light? ==> x in kept by {
        forall x | x in before && x.Light? ensures x in kept {
          LightsKeepEveryLight(before, x);
        }
      }
      kept + [GltfModel(location.modelPath.value)]
    else FallbackScene(FallbackSceneType(location.id))
  }

  /** The model loadLocation leaves as the current one: the GLTF model when it loads, and otherwise none. */
  function ModelAfterLoad(location: Location, gltfLoads: bool): Option<SceneObject> {
    if AttemptsGltf(location) && gltfLoads then Some(GltfModel(location.modelPath.value)) else None
  }

  /** The paths loadLocation hands to the GLTF loader: the model path when it tries the loader. */
  function GltfRequestsFor(location: Location): seq<string> {
    if AttemptsGltf(location) then [location.modelPath.value] else []
  }

  class SceneManager {
    /** The children of the Three.js scene. */
    var sceneChildren: seq<SceneObject>
    var currentModel: Option<SceneObject>
    var isLoading: bool
    /** The model paths handed to the GLTF loader, oldest first. */
    ghost var gltfRequests: seq<string>

    /** Between calls no load is in progress, and the current model is in the scene. */
    ghost predicate Valid()
      reads this
    {
      !isLoading && (currentModel.Some? ==> currentModel.value in sceneChildren)
    }

    /** The constructor together with init's setupLighting; camera, renderer and controls are left out. */
    constructor ()
      ensures Valid()
      ensures sceneChildren == InitialLights() && currentModel == None && !isLoading
      ensures gltfRequests == []
    {
      sceneChildren := InitialLights();
      currentModel := None;
      isLoading := false;
      gltfRequests := [];
    }

    /** getLoadingState. Outside a load it reports false. */
    function GetLoadingState(): (loading: bool)
      reads this
      ensures Valid() ==> !loading
    {
      isLoading
    }

    /**
     * clearScene: collect every non-light child, remove each of them, and forget the
     * current model. The lights stay, in their order.
     */
    method ClearScene()
      modifies this`sceneChildren, this`currentModel
      ensures sceneChildren == Lights(old(sceneChildren))
      ensures currentModel == None
    {
      var children := sceneChildren;
      var objectsToRemove: seq<SceneObject> := [];
      var k := 0;
      while k < |children|
        invariant 0 <= k <= |children|
        invariant objectsToRemove == NonLights(children[..k])
      {
        assert children[..k + 1][..k] == children[..k];
        if !children[k].Light? {
          objectsToRemove := objectsToRemove + [children[k]];
        }
        k := k + 1;
      }
      assert children[..k] == children;
      RetainedNothing(children);
      var n := 0;
      while n < |objectsToRemove|
        invariant 0 <= n <= |objectsToRemove|
        invariant sceneChildren == Retained(children, objectsToRemove[..n])
      {
        var obj := objectsToRemove[n];
        assert objectsToRemove[..n + 1] == objectsToRemove[..n] + [obj];
        RetainedStep(children, objectsToRemove[..n], obj);
        sceneChildren := Without(sceneChildren, obj);
        n := n + 1;
      }
      assert objectsToRemove[..n] == objectsToRemove;
      forall x | x in children && !x.Light?
        ensures x in objectsToRemove
      {
        NonLightsKeepEveryNonLight(children, x);
      }
      RetainedAll(children, objectsToRemove);
      currentModel := None;
    }

    /** The procedural fallback for a location id: the scene is replaced by the fallback scene of its type. */
    method GenerateFallbackScene(locationId: string)
      modifies this`sceneChildren
      ensures sceneChildren == FallbackScene(FallbackSceneType(locationId))
    {
      sceneChildren := FallbackScene(FallbackSceneType(locationId));
    }

    /**
     * loadLocation. The awaited GLTF load is one atomic step whose outcome is
     * `gltfLoads`; a rejected load lands in the catch block, which builds the
     * fallback scene. isLoading is set on entry and cleared by the finally block.
     */
    method LoadLocation(location: Location, gltfLoads: bool)
      requires Valid()
      modifies this
      ensures Valid()
      ensures gltfRequests == old(gltfRequests) + GltfRequestsFor(location)
      ensures sceneChildren == SceneAfterLoad(old(sceneChildren), location, gltfLoads)
      ensures currentModel == ModelAfterLoad(location, gltfLoads)
    {
      isLoading := true;
      ClearScene();
      if AttemptsGltf(location) {
        var path := location.modelPath.value;
        gltfRequests := gltfRequests + [path];
        // await loadGLTFModel(path), still loading
        assert isLoading;
        if gltfLoads {
          var model := GltfModel(path);
          currentModel := Some(model);
          sceneChildren := sceneChildren + [model];
        } else {
          GenerateFallbackScene(location.id);
        }
      } else {
        GenerateFallbackScene(location.id);
      }
      isLoading := false;
    }

    /** dispose: the renderer and controls are foreign; what is left is clearScene. */
    method Dispose()
      modifies this
      ensures sceneChildren == Lights(old(sceneChildren)) && currentModel == None
      ensures isLoading == old(isLoading) && gltfRequests == old(gltfRequests)
    {
      ClearScene();
    }
  }
}
