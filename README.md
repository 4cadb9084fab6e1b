# Spaceship scene state (CG_ex5, `src/hw5.js`)

A model of the scene-state layer of a Three.js exercise. `src/hw5.js` builds a
spaceship and a planet when the module loads and keeps two flags. The `w` key
toggles wireframe rendering on every material. The `o` key toggles whether
the orbit camera controller is enabled. The frame loop hands the orbit flag to
the controller and updates it.

The model has these modules:

- `Geometry`: exact `real` vectors, translation composition, and `degrees_to_radians`.
- `Sizes`: the derived size constants.
- `Materials`: a material, reduced to its `wireframe` field.
- `OrbitControls`: the controller, seen from outside. It has an `enabled` flag,
  and `update` records the flag value each call saw.
- `SceneGraph`: the scene tree as a node table.
  - A node's id is its creation index.
  - Each node has a local translation, a rotation about Y as a whole-degree tag,
    an optional material, a parent link and an ordered child list.
  - `add` and `applyMatrix4` are pure functions on the table, each proved to keep
    it a forest. The class `NodeTable` holds the table of every object of the
    program (the scene object, the camera, groups and meshes) and applies them
    in place.
  - A node's world position is the sum of the translations on its root path.
- `Hw5`: the module-level state (class `App`) with the key handlers, the frame
  step and the load-time construction. It also holds the literal table of the
  built scene and the proofs that the load-time code produces it.

Three facts about the code shape the model:

- `src/hw5.js` has no per-frame ship animations; the frame step only hands the
  orbit flag to the controller and updates it (hw5.js:177-178).
- `planetSize` is `5 * shipSize` (hw5.js:51).
- The head is a child of the ship group, not of the hull (hw5.js:70).

## Model

| member | source | states |
|---|---|---|
| Geometry.DegreesToRadians | src/hw5.js:11-15 | the result times 180 equals the degrees times pi |
| Geometry.DegreesToRadiansFacts | src/hw5.js:11-15 | 180 degrees is pi, and the conversion is additive in the angle |
| Sizes.DerivedSizes | src/hw5.js:43-51 | hullLength = 3·hullRadius = 1.5, headRadius = hullRadius, headLength = 2·hullRadius = 1, planetSize = 5·shipSize = 5 |
| Materials.Material.constructor | src/hw5.js:57 | a new material starts with wireframe off |
| OrbitControls.OrbitControls.constructor | src/hw5.js:155 | the controller drives the given camera, starts enabled and has not been updated |
| OrbitControls.OrbitControls.Update | src/hw5.js:171 | each update call is recorded with the value of `enabled` it saw |
| SceneGraph.AddNode | src/hw5.js:59 | a new object is appended unattached at the origin, unrotated, earlier nodes unchanged, and the table stays a forest |
| SceneGraph.Attach | src/hw5.js:60 | `add` appends the child to the parent's child list and sets the child's parent; no other node changes; the table stays a forest |
| SceneGraph.Translate | src/hw5.js:68-71 | a translation adds v to the node's local offset and changes nothing else |
| SceneGraph.RotateY | src/hw5.js:91-93 | a Y rotation of a childless node at its parent's origin adds the angle mod 360 to its tag and changes nothing else |
| SceneGraph.PathFromRoot | src/hw5.js:131-133 | the root path ends at the node, starts at a parentless node, and each step follows a parent link |
| SceneGraph.WorldPositionIsPathSum | src/hw5.js:126-131 | a node's world position is the sum of the local offsets along its root path |
| SceneGraph.WorldPositionThroughAncestor | src/hw5.js:101-104 | a descendant's world position is its ancestor's plus the relative offset between them |
| SceneGraph.AttachMovesSubtree | src/hw5.js:131 | `add` moves exactly the child's subtree, by the parent's world position; every other node keeps its world position |
| SceneGraph.TranslateMovesSubtree | src/hw5.js:102-104 | translating a node by v moves exactly its subtree by v |
| SceneGraph.RotateMovesNothing | src/hw5.js:91-99 | rotating a wing mesh moves no node |
| SceneGraph.GraftLeaf | src/hw5.js:136-144 | creating a mesh, translating it and adding it under an unrotated node appends exactly that leaf and keeps the table a forest |
| SceneGraph.NodeTable.constructor | src/hw5.js:3-4 | the node table before the scene object (node 0) and the camera (node 1) are created is empty and valid |
| SceneGraph.NodeTable.NewNode | src/hw5.js:40 | the new object gets the next id and the table grows by one unattached node |
| SceneGraph.NodeTable.Add | src/hw5.js:60 | the table becomes `Attach` of the old table and stays a forest |
| SceneGraph.NodeTable.ApplyTranslation | src/hw5.js:71 | the table becomes `Translate` of the old table |
| SceneGraph.NodeTable.ApplyRotationY | src/hw5.js:93 | the table becomes `RotateY` of the old table |
| Hw5.InitialSceneWellFormed | src/hw5.js:40-144 | the 13-node table of the built scene is a forest |
| Hw5.ShipNodesOk | src/hw5.js:55-71 | the scene, camera, ship group, hull and head nodes have consistent links and their parents come first |
| Hw5.WingNodesOk | src/hw5.js:74-104 | the same for the wings group and the three wings |
| Hw5.WindowAndPlanetNodesOk | src/hw5.js:106-144 | the same for the windows group, the two windows and the planet |
| Hw5.InitialPlacement | src/hw5.js:63-151 | head under the ship at (0,1.25,0); wings and windows under the hull; wings group at (0,-1,0) from the hull; one material and turns 0/120/240 for the wings; second window at (0,0.4,hullRadius) from the ship; planet at (-2,0,0); camera at (0,0,5) |
| Hw5.WingsAssembled | src/hw5.js:75-104 | the wing section's adds, rotations and translation build the wings group under the hull |
| Hw5.WindowsAssembled | src/hw5.js:107-131 | the window section's adds and translations build the windows group under the hull |
| Hw5.SpaceshipStageWellFormed | src/hw5.js:40-131 | the node table after the ship sections is a forest |
| Hw5.InitialSceneAssembled | src/hw5.js:133-151 | the table after the ship sections is a forest, and adding the ship to the scene, building the planet and moving the camera give the table of the built scene |
| Hw5.InitialSceneRegistered | src/hw5.js:57-138 | every mesh of the built scene uses one of the five created materials |
| Hw5.App.constructor | src/hw5.js:3-183 | after loading: wireframe off, orbit on, exactly five fresh distinct materials registered in the order hull, head, wing, window, planet, all showing the flag; the scene is the built table; the controller drives the camera, is enabled, and has been updated twice, both times enabled: once after loading and once by the first frame step |
| Hw5.App.LoadScene | src/hw5.js:40-151 | the load-time scene code registers five fresh distinct materials and builds the scene table, every mesh using a registered material |
| Hw5.App.LoadSpaceship | src/hw5.js:40-131 | the ship sections register four fresh distinct materials and build the ship |
| Hw5.App.LoadHull | src/hw5.js:55-60 | the hull section registers one fresh material and adds the hull mesh to the ship |
| Hw5.App.LoadHead | src/hw5.js:63-71 | the head section registers one fresh material and adds the head, moved up 1.25, to the ship |
| Hw5.App.LoadWings | src/hw5.js:75-104 | the wing section registers one fresh material shared by three wing meshes |
| Hw5.App.LoadWindows | src/hw5.js:107-131 | the window section registers one fresh material shared by two window meshes |
| Hw5.App.LoadPlanet | src/hw5.js:136-144 | the planet section registers one fresh material and adds the planet at (-2,0,0) |
| Hw5.App.BuildHull | src/hw5.js:58-60 | the hull mesh becomes the next child of the ship group |
| Hw5.App.BuildHead | src/hw5.js:66-71 | the head mesh becomes the next child of the ship group, at (0,1.25,0) |
| Hw5.App.BuildWings | src/hw5.js:81-104 | the wings group with three meshes turned 0, 120 and 240 degrees becomes the next child of the hull, at (0,-1,0) |
| Hw5.App.AddRotatedWing | src/hw5.js:88-99 | a further wing mesh becomes the next child of the wings group and is turned about Y by the given angle |
| Hw5.App.BuildWindows | src/hw5.js:111-131 | the windows group with its second window at (0,0.4,0) becomes the next child of the hull, at (0,0,hullRadius) |
| Hw5.App.BuildPlanet | src/hw5.js:139-144 | the planet mesh becomes the next child of the scene, at (-2,0,0) |
| Hw5.App.CreateMaterial | src/hw5.js:35-38 | createMaterial returns its argument and appends exactly it to the list; a material that shows the flag keeps every material in sync |
| Hw5.App.ToggleWireframe | src/hw5.js:23-31 | on "w" the flag flips and every registered material shows the new flag; on any other key no flag or material changes; the list never changes; every mesh keeps a registered material, and after "w" every mesh's material shows the new flag |
| Hw5.App.ToggleWireframeTwice | src/hw5.js:26-29 | two "w" events restore the flag, leave every material showing it and leave the list's contents and order unchanged |
| Hw5.App.ToggleOrbit | src/hw5.js:159-163 | on "o" the orbit flag flips, otherwise it stays; the wireframe flag, the materials, the scene graph and the controller never change, so the registration and sync invariants are kept |
| Hw5.App.Animate | src/hw5.js:177-178 | after a frame step the controller's `enabled` equals the orbit flag, and the update that follows saw that value; the registration and sync invariants are kept |

## Left out

- Renderer, canvas and DOM setup, `renderer.render`, `requestAnimationFrame` and the `addEventListener` wiring are host I/O and scheduling. Key events are the `key` string argument of the handlers. A frame is one call of `Animate`.
- `console.log` in the wireframe handler is output only.
- OrbitControls internals are a separate component. Only `enabled` and a call record of `update` are modelled. The camera's own projection parameters are not modelled either.
- OrbitControls.OrbitControls.Update: never touches the camera node. In the program, `controls.update()` rewrites the camera's transform once the user orbits, so in the model the camera stays at (0,0,5) across every frame step.
- Geometries, colours, `side` and material shading are library data with no effect on placement.
- Rotation matrices are not modelled. `makeRotationY(degrees_to_radians(d))` is a whole-degree tag on the node. Positions are therefore sums of translations. This is exact because rotations sit only on childless nodes at their parent's origin.
- `Math.PI` is a parameter of `DegreesToRadians`. Floating-point numbers are exact reals.
- SceneGraph.Attach: requires the child to be created after the parent, the child to have no parent yet, and the parent to be unrotated. Every `add` in the source meets all three. Three.js re-parenting of an attached object is not modelled.
- SceneGraph.RotateY: requires a childless node at its parent's origin, which is how the source uses it. Rotation of a group or of a moved node is not modelled.
- Hw5.App.Animate: models one frame step. The constructor runs the first one. Later frames, scheduled through `requestAnimationFrame`, are further calls.
- Hw5.App.constructor: builds the scene graph through `LoadScene` and its sections. Each section creates its material and then its meshes, in source order. The renderer's first `render` call between camera placement and controller creation is left out. The controller object is created before the scene is built, because it is a constant field set before the object is initialised; hw5.js:155 creates it after the camera is moved. Nothing in the model reads the controller in between, so the end state is the same.
