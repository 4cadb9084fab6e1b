/**
 * The module-level state of the spaceship scene and its key and frame
 * handlers: the wireframe flag and the list of every created material, the
 * orbit flag and the orbit controller, and the scene graph built at load.
 */
module Hw5 {
  import opened Wrappers
  import opened Geometry
  import opened Sizes
  import opened Materials
  import opened SceneGraph
  import opened OrbitControls

  // Node ids, in the order the objects are created.
  const SceneRoot: NodeId := 0
  const CameraNode: NodeId := 1
  const Spaceship: NodeId := 2
  const HullMesh: NodeId := 3
  const HeadMesh: NodeId := 4
  const Wings: NodeId := 5
  const Wing1: NodeId := 6
  const Wing2: NodeId := 7
  const Wing3: NodeId := 8
  const ShipWindows: NodeId := 9
  const Window1: NodeId := 10
  const Window2: NodeId := 11
  const PlanetMesh: NodeId := 12

  /** The node table once the scene has been built, given its five materials. */
  function InitialScene(hull: Material, head: Material, wing: Material,
                        window: Material, planet: Material): seq<Node>
  {
    [ Node(Origin, 0, None, None, [Spaceship, PlanetMesh]),
      Node(Vec3(0.0, 0.0, 5.0), 0, None, None, []),
      Node(Origin, 0, None, Some(SceneRoot), [HullMesh, HeadMesh]),
      Node(Origin, 0, Some(hull), Some(Spaceship), [Wings, ShipWindows]),
      Node(Vec3(0.0, 1.25, 0.0), 0, Some(head), Some(Spaceship), []),
      Node(Vec3(0.0, -1.0, 0.0), 0, None, Some(HullMesh), [Wing1, Wing2, Wing3]),
      Node(Origin, 0, Some(wing), Some(Wings), []),
      Node(Origin, 120, Some(wing), Some(Wings), []),
      Node(Origin, 240, Some(wing), Some(Wings), []),
      Node(Vec3(0.0, 0.0, HullRadius), 0, None, Some(HullMesh), [Window1, Window2]),
      Node(Origin, 0, Some(window), Some(ShipWindows), []),
      Node(Vec3(0.0, 0.4, 0.0), 0, Some(window), Some(ShipWindows), []),
      Node(Vec3(-2.0, 0.0, 0.0), 0, Some(planet), Some(SceneRoot), [])
    ]
  }

  /** The built scene is a forest: links agree both ways and every parent was made first. */
  lemma InitialSceneWellFormed(hull: Material, head: Material, wing: Material,
                               window: Material, planet: Material)
    ensures var t := InitialScene(hull, head, wing, window, planet);
      WellFormed(t) && |t| == 13
  {
    var t := InitialScene(hull, head, wing, window, planet);
    forall n | 0 <= n < |t| ensures NodeOk(t, n) && ParentBefore(t, n) {
      if n < Wings {
        ShipNodesOk(hull, head, wing, window, planet, n);
      } else if n < ShipWindows {
        WingNodesOk(hull, head, wing, window, planet, n);
      } else {
        WindowAndPlanetNodesOk(hull, head, wing, window, planet, n);
      }
    }
  }

  /** The scene, the camera, the ship group, the hull and the head. */
  lemma ShipNodesOk(hull: Material, head: Material, wing: Material,
                    window: Material, planet: Material, n: NodeId)
    requires n < Wings
    ensures var t := InitialScene(hull, head, wing, window, planet);
      n < |t| && NodeOk(t, n) && ParentBefore(t, n)
  {
    var t := InitialScene(hull, head, wing, window, planet);
    if n == SceneRoot { assert NodeOk(t, SceneRoot); }
    else if n == CameraNode { assert NodeOk(t, CameraNode); }
    else if n == Spaceship { assert NodeOk(t, Spaceship); }
    else if n == HullMesh { assert NodeOk(t, HullMesh); }
    else { assert NodeOk(t, HeadMesh); }
  }

  /** The wings group and its three wings. */
  lemma WingNodesOk(hull: Material, head: Material, wing: Material,
                    window: Material, planet: Material, n: NodeId)
    requires Wings <= n < ShipWindows
    ensures var t := InitialScene(hull, head, wing, window, planet);
      n < |t| && NodeOk(t, n) && ParentBefore(t, n)
  {
    var t := InitialScene(hull, head, wing, window, planet);
    if n == Wings { assert NodeOk(t, Wings); }
    else if n == Wing1 { assert NodeOk(t, Wing1); }
    else if n == Wing2 { assert NodeOk(t, Wing2); }
    else { assert NodeOk(t, Wing3); }
  }

  /** The windows group, its two windows, and the planet. */
  lemma WindowAndPlanetNodesOk(hull: Material, head: Material, wing: Material,
                               window: Material, planet: Material, n: NodeId)
    requires ShipWindows <= n <= PlanetMesh
    ensures var t := InitialScene(hull, head, wing, window, planet);
      n < |t| && NodeOk(t, n) && ParentBefore(t, n)
  {
    var t := InitialScene(hull, head, wing, window, planet);
    if n == ShipWindows { assert NodeOk(t, ShipWindows); }
    else if n == Window1 { assert NodeOk(t, Window1); }
    else if n == Window2 { assert NodeOk(t, Window2); }
    else { assert NodeOk(t, PlanetMesh); }
  }

  /** Where the parts of the built scene sit. */
  lemma InitialPlacement(hull: Material, head: Material, wing: Material,
                         window: Material, planet: Material)
    ensures var t := InitialScene(hull, head, wing, window, planet);
      WellFormed(t)
      // the head hangs off the ship group, not off the hull
      && t[HeadMesh].parent == Some(Spaceship)
      && RelativePosition(t, HeadMesh, Spaceship) == Vec3(0.0, 1.25, 0.0)
      // wings and windows are children of the hull mesh
      && t[Wings].parent == Some(HullMesh) && t[ShipWindows].parent == Some(HullMesh)
      && RelativePosition(t, Wings, HullMesh) == Vec3(0.0, -1.0, 0.0)
      // the three wings share one material and sit at 0, 120 and 240 degrees
      && t[Wing1].material == t[Wing2].material == t[Wing3].material == Some(wing)
      && t[Wing1].turnY == 0 && t[Wing2].turnY == 120 && t[Wing3].turnY == 240
      && WorldPosition(t, Wing1) == WorldPosition(t, Wing2) == WorldPosition(t, Wing3)
         == Vec3(0.0, -1.0, 0.0)
      // the second window, relative to the ship
      && RelativePosition(t, Window2, Spaceship) == Vec3(0.0, 0.4, HullRadius)
      && WorldPosition(t, Window2) == Vec3(0.0, 0.4, 0.5)
      && WorldPosition(t, PlanetMesh) == Vec3(-2.0, 0.0, 0.0)
      && WorldPosition(t, CameraNode) == Vec3(0.0, 0.0, 5.0)
  {
    InitialSceneWellFormed(hull, head, wing, window, planet);
    var t := InitialScene(hull, head, wing, window, planet);
    assert Under(t, Window2, Spaceship) by {
      assert Under(t, HullMesh, Spaceship);
      assert Under(t, ShipWindows, Spaceship);
    }
    assert RelativePosition(t, ShipWindows, Spaceship) == Vec3(0.0, 0.0, HullRadius) by {
      assert RelativePosition(t, HullMesh, Spaceship) == Origin;
    }
    assert WorldPosition(t, Spaceship) == Origin;
    assert WorldPosition(t, Wings) == Vec3(0.0, -1.0, 0.0);
    assert WorldPosition(t, ShipWindows) == Vec3(0.0, 0.0, 0.5);
  }

  /** The wing section's steps build the wings group and attach it to the hull. */
  lemma WingsAssembled(o: seq<Node>, hull: NodeId, material: Material)
    requires WellFormed(o) && hull < |o| && o[hull].turnY == 0
    ensures var w := |o|;
      var t1 := AddNode(o, None);
      var t2 := Attach(AddNode(t1, Some(material)), w, w + 1);
      var t3 := RotateY(Attach(AddNode(t2, Some(material)), w, w + 2), w + 2, 120);
      var t4 := RotateY(Attach(AddNode(t3, Some(material)), w, w + 3), w + 3, 240);
      Translate(Attach(t4, hull, w), w, Vec3(0.0, -1.0, 0.0)) ==
        Graft(o, hull,
          [Node(Vec3(0.0, -1.0, 0.0), 0, None, Some(hull), [w + 1, w + 2, w + 3]),
           Node(Origin, 0, Some(material), Some(w), []),
           Node(Origin, 120, Some(material), Some(w), []),
           Node(Origin, 240, Some(material), Some(w), [])])
  {
    var w := |o|;
    var t1 := AddNode(o, None);
    var t2 := Attach(AddNode(t1, Some(material)), w, w + 1);
    var t3 := RotateY(Attach(AddNode(t2, Some(material)), w, w + 2), w + 2, 120);
    var t4 := RotateY(Attach(AddNode(t3, Some(material)), w, w + 3), w + 3, 240);
    var t := Translate(Attach(t4, hull, w), w, Vec3(0.0, -1.0, 0.0));
    var expected := Graft(o, hull,
          [Node(Vec3(0.0, -1.0, 0.0), 0, None, Some(hull), [w + 1, w + 2, w + 3]),
           Node(Origin, 0, Some(material), Some(w), []),
           Node(Origin, 120, Some(material), Some(w), []),
           Node(Origin, 240, Some(material), Some(w), [])]);
    forall k | 0 <= k < |expected| ensures t[k] == expected[k] { }
  }

  /** The window section's steps build the windows group and attach it to the hull. */
  lemma WindowsAssembled(o: seq<Node>, hull: NodeId, material: Material)
    requires WellFormed(o) && hull < |o| && o[hull].turnY == 0
    ensures var w := |o|;
      var t1 := AddNode(o, None);
      var t2 := Attach(AddNode(t1, Some(material)), w, w + 1);
      var t3 := Attach(AddNode(t2, Some(material)), w, w + 2);
      var t4 := Translate(Translate(t3, w + 2, Vec3(0.0, 0.4, 0.0)), w, Vec3(0.0, 0.0, HullRadius));
      Attach(t4, hull, w) ==
        Graft(o, hull,
          [Node(Vec3(0.0, 0.0, HullRadius), 0, None, Some(hull), [w + 1, w + 2]),
           Node(Origin, 0, Some(material), Some(w), []),
           Node(Vec3(0.0, 0.4, 0.0), 0, Some(material), Some(w), [])])
  {
    var w := |o|;
    var t1 := AddNode(o, None);
    var t2 := Attach(AddNode(t1, Some(material)), w, w + 1);
    var t3 := Attach(AddNode(t2, Some(material)), w, w + 2);
    var t4 := Translate(Translate(t3, w + 2, Vec3(0.0, 0.4, 0.0)), w, Vec3(0.0, 0.0, HullRadius));
    var t := Attach(t4, hull, w);
    var expected := Graft(o, hull,
          [Node(Vec3(0.0, 0.0, HullRadius), 0, None, Some(hull), [w + 1, w + 2]),
           Node(Origin, 0, Some(material), Some(w), []),
           Node(Vec3(0.0, 0.4, 0.0), 0, Some(material), Some(w), [])]);
    forall k | 0 <= k < |expected| ensures t[k] == expected[k] { }
  }

  /** The node table once the spaceship group and its four sections are built. */
  function SpaceshipStage(hull: Material, head: Material, wing: Material, window: Material): seq<Node>
  {
    var t0 := AddNode(AddNode(AddNode([], None), None), None);
    var t1 := Graft(t0, Spaceship, [Node(Origin, 0, Some(hull), Some(Spaceship), [])]);
    var t2 := Graft(t1, Spaceship, [Node(Vec3(0.0, 1.25, 0.0), 0, Some(head), Some(Spaceship), [])]);
    var t3 := Graft(t2, HullMesh,
        [Node(Vec3(0.0, -1.0, 0.0), 0, None, Some(HullMesh), [Wing1, Wing2, Wing3]),
         Node(Origin, 0, Some(wing), Some(Wings), []),
         Node(Origin, 120, Some(wing), Some(Wings), []),
         Node(Origin, 240, Some(wing), Some(Wings), [])]);
    Graft(t3, HullMesh,
        [Node(Vec3(0.0, 0.0, HullRadius), 0, None, Some(HullMesh), [Window1, Window2]),
         Node(Origin, 0, Some(window), Some(ShipWindows), []),
         Node(Vec3(0.0, 0.4, 0.0), 0, Some(window), Some(ShipWindows), [])])
  }

  /** The spaceship sections keep the node table a forest. */
  lemma SpaceshipStageWellFormed(hull: Material, head: Material, wing: Material, window: Material)
    ensures WellFormed(SpaceshipStage(hull, head, wing, window))
  {
    var t0 := AddNode(AddNode(AddNode([], None), None), None);
    GraftLeaf(t0, Spaceship, Origin, Some(hull));
    var t1 := Graft(t0, Spaceship, [Node(Origin, 0, Some(hull), Some(Spaceship), [])]);
    GraftLeaf(t1, Spaceship, Vec3(0.0, 1.25, 0.0), Some(head));
    var t2 := Graft(t1, Spaceship, [Node(Vec3(0.0, 1.25, 0.0), 0, Some(head), Some(Spaceship), [])]);
    WingsAssembled(t2, HullMesh, wing);
    var t3 := Graft(t2, HullMesh,
        [Node(Vec3(0.0, -1.0, 0.0), 0, None, Some(HullMesh), [Wing1, Wing2, Wing3]),
         Node(Origin, 0, Some(wing), Some(Wings), []),
         Node(Origin, 120, Some(wing), Some(Wings), []),
         Node(Origin, 240, Some(wing), Some(Wings), [])]);
    WindowsAssembled(t3, HullMesh, window);
  }

  /** The load-time sections, in source order, produce the initial scene. */
  lemma InitialSceneAssembled(hull: Material, head: Material, wing: Material,
                              window: Material, planet: Material)
    ensures WellFormed(SpaceshipStage(hull, head, wing, window))
    ensures var t4 := SpaceshipStage(hull, head, wing, window);
      var t5 := Attach(t4, SceneRoot, Spaceship);
      var t6 := Graft(t5, SceneRoot, [Node(Vec3(-2.0, 0.0, 0.0), 0, Some(planet), Some(SceneRoot), [])]);
      WellFormed(t6) &&
      Translate(t6, CameraNode, Vec3(0.0, 0.0, 5.0)) == InitialScene(hull, head, wing, window, planet)
  {
    SpaceshipStageWellFormed(hull, head, wing, window);
    var t4 := SpaceshipStage(hull, head, wing, window);
    var t5 := Attach(t4, SceneRoot, Spaceship);
    GraftLeaf(t5, SceneRoot, Vec3(-2.0, 0.0, 0.0), Some(planet));
    var t6 := Graft(t5, SceneRoot, [Node(Vec3(-2.0, 0.0, 0.0), 0, Some(planet), Some(SceneRoot), [])]);
    var t := Translate(t6, CameraNode, Vec3(0.0, 0.0, 5.0));
    var expected := InitialScene(hull, head, wing, window, planet);
    forall k | 0 <= k < |expected| ensures t[k] == expected[k] { }
  }

  /** Every mesh of the initial scene uses one of the five registered materials. */
  lemma InitialSceneRegistered(hull: Material, head: Material, wing: Material,
                               window: Material, planet: Material)
    ensures var t := InitialScene(hull, head, wing, window, planet);
      forall n :: 0 <= n < |t| && t[n].material.Some? ==>
        t[n].material.value in [hull, head, wing, window, planet]
  {
  }

  class App {
    var isWireframeEnabled: bool
    var materialsList: seq<Material>
    var isOrbitEnabled: bool
    const graph: NodeTable
    const controls: OrbitControls

    /** Every mesh of the scene uses a registered material. */
    ghost predicate Valid()
      reads this, graph
    {
      graph.Valid() &&
      forall n :: 0 <= n < |graph.nodes| && graph.nodes[n].material.Some? ==>
        graph.nodes[n].material.value in materialsList
    }

    /** Every registered material shows the global wireframe flag. */
    ghost predicate Synced()
      reads this, materialsList
    {
      forall m :: m in materialsList ==> m.wireframe == isWireframeEnabled
    }

    /**
     * Loading the module: build the spaceship and the planet, place the
     * camera, attach the orbit controller, update it once, and run the
     * first frame step.
     */
    constructor ()
      ensures Valid() && Synced() && fresh(graph) && fresh(controls)
      ensures !isWireframeEnabled && isOrbitEnabled
      ensures |materialsList| == 5
      ensures forall i, j :: 0 <= i < j < 5 ==> materialsList[i] != materialsList[j]
      ensures forall i :: 0 <= i < 5 ==> fresh(materialsList[i])
      ensures graph.nodes == InitialScene(materialsList[0], materialsList[1], materialsList[2],
                                          materialsList[3], materialsList[4])
      ensures controls.camera == CameraNode && controls.enabled && controls.updates == [true, true]
    {
      graph := new NodeTable();
      // the controller only records which camera it drives until it is updated
      controls := new OrbitControls(CameraNode);
      isWireframeEnabled := false;
      materialsList := [];
      new;
      LoadScene();
      isOrbitEnabled := true;
      controls.Update();
      // the first frame step runs at load
      Animate();
    }

    /**
     * The load-time scene code: the scene and the camera, the spaceship, the
     * ship added to the scene, the planet, and the camera moved back by 5.
     */
    method LoadScene()
      requires graph.Valid() && graph.nodes == [] && materialsList == [] && !isWireframeEnabled
      modifies this`materialsList, graph
      ensures Valid() && Synced()
      ensures |materialsList| == 5
      ensures forall i, j :: 0 <= i < j < 5 ==> materialsList[i] != materialsList[j]
      ensures forall i :: 0 <= i < 5 ==> fresh(materialsList[i])
      ensures graph.nodes == InitialScene(materialsList[0], materialsList[1], materialsList[2],
                                          materialsList[3], materialsList[4])
    {
      var scene := graph.NewNode(None);
      var camera := graph.NewNode(None);
      var spaceship, hullMaterial, headMaterial, wingMaterial, windowMaterial := LoadSpaceship();
      graph.Add(scene, spaceship);
      var planetMaterial := LoadPlanet(scene);
      graph.ApplyTranslation(camera, Vec3(0.0, 0.0, 5.0));

      assert materialsList == [hullMaterial, headMaterial, wingMaterial, windowMaterial, planetMaterial];
      InitialSceneAssembled(hullMaterial, headMaterial, wingMaterial, windowMaterial, planetMaterial);
      assert graph.nodes == InitialScene(hullMaterial, headMaterial, wingMaterial, windowMaterial, planetMaterial);
      InitialSceneRegistered(hullMaterial, headMaterial, wingMaterial, windowMaterial, planetMaterial);
    }

    /** The spaceship group and its four sections, built after the scene and the camera. */
    method LoadSpaceship() returns (spaceship: NodeId, hullMaterial: Material, headMaterial: Material,
                                    wingMaterial: Material, windowMaterial: Material)
      requires Synced() && !isWireframeEnabled
      requires graph.Valid() && graph.nodes == AddNode(AddNode([], None), None)
      modifies this`materialsList, graph
      ensures Synced() && graph.Valid() && spaceship == Spaceship
      ensures materialsList == old(materialsList) + [hullMaterial, headMaterial, wingMaterial, windowMaterial]
      ensures fresh(hullMaterial) && fresh(headMaterial) && fresh(wingMaterial) && fresh(windowMaterial)
      ensures hullMaterial != headMaterial && hullMaterial != wingMaterial && hullMaterial != windowMaterial
      ensures headMaterial != wingMaterial && headMaterial != windowMaterial && wingMaterial != windowMaterial
      ensures graph.nodes == SpaceshipStage(hullMaterial, headMaterial, wingMaterial, windowMaterial)
    {
      spaceship := graph.NewNode(None);
      var hull;
      hull, hullMaterial := LoadHull(spaceship);
      headMaterial := LoadHead(spaceship);
      wingMaterial := LoadWings(hull);
      windowMaterial := LoadWindows(hull);
      assert graph.nodes == SpaceshipStage(hullMaterial, headMaterial, wingMaterial, windowMaterial);
    }

    /** Ship's hull: a fresh registered material, and its mesh added to the ship group. */
    method LoadHull(spaceship: NodeId) returns (hull: NodeId, material: Material)
      requires Synced() && !isWireframeEnabled
      requires graph.Valid() && spaceship < |graph.nodes| && graph.nodes[spaceship].turnY == 0
      modifies this`materialsList, graph
      ensures Synced() && fresh(material) && materialsList == old(materialsList) + [material]
      ensures graph.Valid() && hull == |old(graph.nodes)|
      ensures graph.nodes == Graft(old(graph.nodes), spaceship,
        [Node(Origin, 0, Some(material), Some(spaceship), [])])
    {
      var m := new Material();
      material := CreateMaterial(m);
      hull := BuildHull(spaceship, material);
    }

    /** Ship's head: a fresh registered material, and its mesh. */
    method LoadHead(spaceship: NodeId) returns (material: Material)
      requires Synced() && !isWireframeEnabled
      requires graph.Valid() && spaceship < |graph.nodes| && graph.nodes[spaceship].turnY == 0
      modifies this`materialsList, graph
      ensures Synced() && fresh(material) && materialsList == old(materialsList) + [material]
      ensures graph.Valid()
      ensures graph.nodes == Graft(old(graph.nodes), spaceship,
        [Node(Vec3(0.0, 1.25, 0.0), 0, Some(material), Some(spaceship), [])])
    {
      var m := new Material();
      material := CreateMaterial(m);
      BuildHead(spaceship, material);
    }

    /** Ship's wings: one fresh registered material shared by the three wing meshes. */
    method LoadWings(hull: NodeId) returns (material: Material)
      requires Synced() && !isWireframeEnabled
      requires graph.Valid() && hull < |graph.nodes| && graph.nodes[hull].turnY == 0
      modifies this`materialsList, graph
      ensures Synced() && fresh(material) && materialsList == old(materialsList) + [material]
      ensures graph.Valid()
      ensures var w := |old(graph.nodes)|;
        graph.nodes == Graft(old(graph.nodes), hull,
          [Node(Vec3(0.0, -1.0, 0.0), 0, None, Some(hull), [w + 1, w + 2, w + 3]),
           Node(Origin, 0, Some(material), Some(w), []),
           Node(Origin, 120, Some(material), Some(w), []),
           Node(Origin, 240, Some(material), Some(w), [])])
    {
      var m := new Material();
      material := CreateMaterial(m);
      BuildWings(hull, material);
    }

    /** Ship's windows: one fresh registered material shared by the two window meshes. */
    method LoadWindows(hull: NodeId) returns (material: Material)
      requires Synced() && !isWireframeEnabled
      requires graph.Valid() && hull < |graph.nodes| && graph.nodes[hull].turnY == 0
      modifies this`materialsList, graph
      ensures Synced() && fresh(material) && materialsList == old(materialsList) + [material]
      ensures graph.Valid()
      ensures var w := |old(graph.nodes)|;
        graph.nodes == Graft(old(graph.nodes), hull,
          [Node(Vec3(0.0, 0.0, HullRadius), 0, None, Some(hull), [w + 1, w + 2]),
           Node(Origin, 0, Some(material), Some(w), []),
           Node(Vec3(0.0, 0.4, 0.0), 0, Some(material), Some(w), [])])
    {
      var m := new Material();
      material := CreateMaterial(m);
      BuildWindows(hull, material);
    }

    /** Planet: a fresh registered material, and its mesh. */
    method LoadPlanet(scene: NodeId) returns (material: Material)
      requires Synced() && !isWireframeEnabled
      requires graph.Valid() && scene < |graph.nodes| && graph.nodes[scene].turnY == 0
      modifies this`materialsList, graph
      ensures Synced() && fresh(material) && materialsList == old(materialsList) + [material]
      ensures graph.Valid()
      ensures graph.nodes == Graft(old(graph.nodes), scene,
        [Node(Vec3(-2.0, 0.0, 0.0), 0, Some(material), Some(scene), [])])
    {
      var m := new Material();
      material := CreateMaterial(m);
      BuildPlanet(scene, material);
    }

    /** Ship's hull: a mesh added to the ship group. */
    method BuildHull(spaceship: NodeId, material: Material) returns (hull: NodeId)
      requires graph.Valid() && spaceship < |graph.nodes| && graph.nodes[spaceship].turnY == 0
      modifies graph
      ensures graph.Valid() && hull == |old(graph.nodes)|
      ensures graph.nodes == Graft(old(graph.nodes), spaceship,
        [Node(Origin, 0, Some(material), Some(spaceship), [])])
    {
      hull := graph.NewNode(Some(material));
      graph.Add(spaceship, hull);
    }

    /** Ship's head: a mesh added to the ship group, then moved up by 1.25. */
    method BuildHead(spaceship: NodeId, material: Material)
      requires graph.Valid() && spaceship < |graph.nodes| && graph.nodes[spaceship].turnY == 0
      modifies graph
      ensures graph.Valid()
      ensures graph.nodes == Graft(old(graph.nodes), spaceship,
        [Node(Vec3(0.0, 1.25, 0.0), 0, Some(material), Some(spaceship), [])])
    {
      var head := graph.NewNode(Some(material));
      graph.Add(spaceship, head);
      graph.ApplyTranslation(head, Vec3(0.0, 1.25, 0.0));
    }

    /**
     * Ship's wings: a group of three meshes sharing one material, the second
     * and third turned by 120 and 240 degrees; the group is added to the hull
     * and then moved down by 1.
     */
    method BuildWings(hull: NodeId, material: Material)
      requires graph.Valid() && hull < |graph.nodes| && graph.nodes[hull].turnY == 0
      modifies graph
      ensures graph.Valid()
      ensures var w := |old(graph.nodes)|;
        graph.nodes == Graft(old(graph.nodes), hull,
          [Node(Vec3(0.0, -1.0, 0.0), 0, None, Some(hull), [w + 1, w + 2, w + 3]),
           Node(Origin, 0, Some(material), Some(w), []),
           Node(Origin, 120, Some(material), Some(w), []),
           Node(Origin, 240, Some(material), Some(w), [])])
    {
      ghost var o := graph.nodes;
      var wings := graph.NewNode(None);
      var wing := graph.NewNode(Some(material));
      graph.Add(wings, wing);
      AddRotatedWing(wings, material, 120);
      AddRotatedWing(wings, material, 240);
      graph.Add(hull, wings);
      graph.ApplyTranslation(wings, Vec3(0.0, -1.0, 0.0));
      WingsAssembled(o, hull, material);
    }

    /** A further wing: a mesh added to the wings group, then turned about Y. */
    method AddRotatedWing(wings: NodeId, material: Material, degrees: int)
      requires graph.Valid() && wings < |graph.nodes| && graph.nodes[wings].turnY == 0
      modifies graph
      ensures graph.Valid()
      ensures var w := |old(graph.nodes)|;
        graph.nodes == RotateY(Attach(AddNode(old(graph.nodes), Some(material)), wings, w), w, degrees)
    {
      var wing := graph.NewNode(Some(material));
      graph.Add(wings, wing);
      graph.ApplyRotationY(wing, degrees);
    }

    /**
     * Ship's windows: a group of two meshes sharing one material, the second
     * moved 0.4 along Y; the group is moved out by the hull radius and then
     * added to the hull.
     */
    method BuildWindows(hull: NodeId, material: Material)
      requires graph.Valid() && hull < |graph.nodes| && graph.nodes[hull].turnY == 0
      modifies graph
      ensures graph.Valid()
      ensures var w := |old(graph.nodes)|;
        graph.nodes == Graft(old(graph.nodes), hull,
          [Node(Vec3(0.0, 0.0, HullRadius), 0, None, Some(hull), [w + 1, w + 2]),
           Node(Origin, 0, Some(material), Some(w), []),
           Node(Vec3(0.0, 0.4, 0.0), 0, Some(material), Some(w), [])])
    {
      ghost var o := graph.nodes;
      var shipWindows := graph.NewNode(None);
      var shipWindow := graph.NewNode(Some(material));
      graph.Add(shipWindows, shipWindow);
      shipWindow := graph.NewNode(Some(material));
      graph.Add(shipWindows, shipWindow);
      graph.ApplyTranslation(shipWindow, Vec3(0.0, 0.4, 0.0));
      graph.ApplyTranslation(shipWindows, Vec3(0.0, 0.0, HullRadius));
      graph.Add(hull, shipWindows);
      WindowsAssembled(o, hull, material);
    }

    /** Planet: a mesh moved to (-2, 0, 0) and added to the scene. */
    method BuildPlanet(scene: NodeId, material: Material)
      requires graph.Valid() && scene < |graph.nodes| && graph.nodes[scene].turnY == 0
      modifies graph
      ensures graph.Valid()
      ensures graph.nodes == Graft(old(graph.nodes), scene,
        [Node(Vec3(-2.0, 0.0, 0.0), 0, Some(material), Some(scene), [])])
    {
      var planet := graph.NewNode(Some(material));
      graph.ApplyTranslation(planet, Vec3(-2.0, 0.0, 0.0));
      graph.Add(scene, planet);
    }

    /** createMaterial: register a material and hand it back. */
    method CreateMaterial(material: Material) returns (r: Material)
      modifies this`materialsList
      ensures r == material
      ensures materialsList == old(materialsList) + [material]
      ensures old(Synced()) && material.wireframe == isWireframeEnabled ==> Synced()
    {
      materialsList := materialsList + [material];
      r := material;
    }

    /** toggleWireframe: on "w", flip the flag and write it into every material. */
    method ToggleWireframe(key: string)
      modifies this`isWireframeEnabled, materialsList
      ensures materialsList == old(materialsList)
      ensures isWireframeEnabled == if key == "w" then !old(isWireframeEnabled) else old(isWireframeEnabled)
      ensures key == "w" ==> Synced()
      ensures key != "w" ==> forall m :: m in materialsList ==> m.wireframe == old(m.wireframe)
      ensures old(Valid()) ==> Valid()
      ensures key == "w" && old(Valid()) ==>
        forall n :: 0 <= n < |graph.nodes| && graph.nodes[n].material.Some? ==>
          graph.nodes[n].material.value.wireframe == isWireframeEnabled
    {
      if key == "w" {
        isWireframeEnabled := !isWireframeEnabled;
        for i := 0 to |materialsList|
          invariant isWireframeEnabled == !old(isWireframeEnabled)
          invariant forall j :: 0 <= j < i ==> materialsList[j].wireframe == isWireframeEnabled
        {
          materialsList[i].wireframe := isWireframeEnabled;
        }
      }
    }

    /** Two "w" key events: the flag is back, every material shows it, the list is as before. */
    method ToggleWireframeTwice()
      modifies this`isWireframeEnabled, materialsList
      ensures isWireframeEnabled == old(isWireframeEnabled)
      ensures materialsList == old(materialsList) && Synced()
    {
      ToggleWireframe("w");
      ToggleWireframe("w");
    }

    /** toggleOrbit: on "o", flip the orbit flag; nothing else changes. */
    method ToggleOrbit(key: string)
      modifies this`isOrbitEnabled
      ensures isOrbitEnabled == if key == "o" then !old(isOrbitEnabled) else old(isOrbitEnabled)
      ensures isWireframeEnabled == old(isWireframeEnabled) && materialsList == old(materialsList)
      ensures unchanged(graph) && unchanged(controls) && unchanged(materialsList)
      ensures Valid() == old(Valid()) && Synced() == old(Synced())
    {
      if key == "o" {
        isOrbitEnabled := !isOrbitEnabled;
      }
    }

    /** The frame step of animate: hand the orbit flag to the controller, then update it. */
    method Animate()
      modifies controls
      ensures controls.enabled == isOrbitEnabled
      ensures controls.updates == old(controls.updates) + [isOrbitEnabled]
      ensures Valid() == old(Valid()) && Synced() == old(Synced())
    {
      controls.enabled := isOrbitEnabled;
      controls.Update();
    }
  }
}
