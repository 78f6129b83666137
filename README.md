# threejs-interact-scene, modelled in Dafny

This project models the per-frame interaction layer of a three.js scene viewer and the small state machines around it, and proves properties about that model. The model covers:

- **Bounce interaction.** An `InteractionState` is updated once per frame. The selection shifts to the nearest ray hit. A newly selected, non-static object gets an impulse, throttled by a per-object cooldown. Every tracked mesh then takes one explicit spring-damper step towards its rest pose, and its rotation "wobbles" with its velocity.
- **Animation slot.** At most one action is active. Playing a clip cross-fades from the active action. Stop, pause, resume, mixer updates and the clip-name listing are modelled too.
- **Outline effect.**
  - A configuration with defaults.
  - An outline pass that exists only if the outline was enabled at setup.
  - The gate that decides which objects the pass outlines.
  - Configuration updates that change only the fields supplied.
- **Model loading.**
  - The clip-name → action table.
  - Marking floor and wall meshes static by a case-insensitive name match.
  - Registering every mesh's rest pose and a zero velocity.
  - Material tuning and centring the model.
- **The page.** The static-objects switch, the frame loop's call order, and what happens when loading fails.
- **Camera input.**
  - Wheel zoom accepted only inside a distance band.
  - The orbit drag state machine with its clamped polar angle.
  - The camera panel's Blender→three.js axis swap, reset, and degree→radian push.

Everything is one Dafny program in eleven modules, one file each:

| file | module |
|---|---|
| `options.dfy` | `Options` |
| `vectors.dfy` | `Vectors` |
| `scene_graph.dfy` | `SceneGraph` |
| `js_maps.dfy` | `JsMaps` |
| `bounce_interaction.dfy` | `BounceInteraction` |
| `animations.dfy` | `Animations` |
| `visual_effects.dfy` | `VisualEffects` |
| `model_loader.dfy` | `ModelLoader` |
| `scene_initializer.dfy` | `SceneInitializer` |
| `camera_controls.dfy` | `CameraControls` |
| `page.dfy` | `Page` |

Modelling choices:

- **Numbers and vectors.** Vectors are triples of `real`, and arithmetic is exact.
- **Objects and the scene.**
  - Objects are identified by their `uuid` (an `int`).
  - A scene subtree is the array of its nodes in `traverse` order.
  - The three per-object tables are Dafny maps.
  - A JavaScript `Map` whose key order is observable is an `OrderedMap`, a key list plus a table.
  - Materials are objects that meshes share, so they live in a table keyed by material identity.
- **Inputs.**
  - Ray hits arrive as a sequence, nearest first.
  - `Date.now()` and `clock.getDelta()` are parameters.
- **Library maths.** `normalize`, `distanceTo`, `acos`, `atan2`, `sin`, `cos`, `lookAt`, `Spherical.setFromVector3` and the bounding-box centre are function parameters or inputs. The two lemmas that need more state the laws they assume: Euclidean length and normalisation, and the Pythagorean identity.
- **Animation actions.** Each three.js animation action is a `paused` flag plus a log of the calls made on it. The mixer is a log of its time advances.

Where the code and its surrounding description differ, the model follows the code. Five such points:

- `updateInteractions` is called from the frame loop without its highlight argument. The highlight list is therefore always empty there, and the outline never shows anything, whatever the checkbox says (`Page.AnimateFrame`, `Page.Initialize`).
- `MeshPhysicalMaterial` derives from `MeshStandardMaterial`, so it is handled by the standard branch. The separate physical branch of `optimizeMaterials` is never reached, and it does the same thing.
- A material shared by several meshes is tuned once per mesh that uses it. Roughness and lightness compound (`ModelLoader.SharedMaterialTunedPerMesh`, `ModelLoader.RoughnessCompounds`).
- The initial camera is about 32.9 units from the origin, outside the zoom band [2, 20]. Under the usual laws for `normalize` and `distanceTo`, every wheel event with |deltaY| < 2400 is rejected (`SceneInitializer.InitialCameraRejectsZoom`).
- The page never calls `updateAnimations`. On the page the mixer therefore never advances, and a playing clip stays at its first frame (`Animations.AnimationContext.UpdateAnimations` models the function as written; `Page.AnimateFrame` does not call it).

## Model

| member | source | states |
|---|---|---|
| `SceneGraph.Lower` | src/components/three/ModelLoader.ts:82-84 | `toLowerCase` on ASCII: same length; A–Z mapped to a–z, every other character kept |
| `SceneGraph.Includes` | src/components/three/ModelLoader.ts:82-84 | a match needs the pattern to fit in the string, and a pattern at the start of the string is a match |
| `SceneGraph.IncludesIffOccurs` | src/components/three/ModelLoader.ts:82-84 | `includes(p)` holds exactly when `p` occurs at some index of the string |
| `SceneGraph.IsFloorOrWallName` | src/components/three/ModelLoader.ts:82-84 | holds exactly when "floor" or "wall" occurs at some offset of the lower-cased name |
| `SceneGraph.WithStaticFlag` | src/app/page.tsx:99-116 | exactly the meshes whose lower-cased name contains "floor" or "wall" get the flag; every other node, and every other field, is unchanged |
| `SceneGraph.WithStaticFlagIdempotent` | src/app/page.tsx:99-116 | applying the static switch twice with the same flag equals applying it once |
| `SceneGraph.WithStaticFlagLastWins` | src/app/page.tsx:99-116 | a later switch overrides an earlier one completely |
| `SceneGraph.NameExamples` | src/components/three/ModelLoader.ts:80-90 | "Main_FLOOR" and "BackWall" are floor/wall names (case-insensitive substring match) |
| `JsMaps.Set` | src/components/three/ModelLoader.ts:43 | `Map.set` keeps the key list duplicate-free; an existing key keeps its place, a new key is appended |
| `JsMaps.FirstIndex` | src/components/three/Animations.ts:73-75 | the position of an element's first occurrence: it holds the element and no earlier position does |
| `JsMaps.FirstOccurrences` | src/components/three/Animations.ts:73-75 | the key list of a `Map` filled in order: the same members as the input, each once |
| `JsMaps.FirstOccurrencesInOrder` | src/components/three/Animations.ts:73-75 | the keys come in the order of the elements' first occurrences in the input |
| `JsMaps.FirstOccurrencesOfDistinct` | src/components/three/Animations.ts:73-75 | without duplicate names the key order is the insertion order itself |
| `BounceInteraction.PointerToNdc` | src/components/three/BounceInteraction.ts:49-51 | the rect's left/right edges map to x = −1/+1, top/bottom to y = +1/−1, and points inside the rect land in [−1, 1]² |
| `BounceInteraction.InteractionState.constructor` | src/components/three/BounceInteraction.ts:20-35 | nothing selected, empty tables and highlight list; impulse 1, spring 50, damping 0.95, cooldown 500 |
| `BounceInteraction.InteractionState.HandleMouseMove` | src/components/three/BounceInteraction.ts:44-52 | the stored pointer is the event position in normalised device coordinates |
| `BounceInteraction.FirstHit` | src/components/three/BounceInteraction.ts:68 | the new selection is the uuid of the scene node the first hit names, or none exactly when there are no hits |
| `BounceInteraction.Triggers` | src/components/three/BounceInteraction.ts:76-81 | no impulse when nothing is selected; with a selection, an impulse exactly when it differs from the previous one |
| `BounceInteraction.TriggerCases` | src/components/three/BounceInteraction.ts:76-81 | no impulse on A→A, A→none or none→none; an impulse on none→A and on A→B for B ≠ A |
| `BounceInteraction.HighlightSet` | src/components/three/BounceInteraction.ts:70-74 | at most one element; an object is highlighted iff highlighting is on and it is the selection |
| `BounceInteraction.BounceAllowed` | src/components/three/BounceInteraction.ts:92-105 | never for a static object; otherwise exactly when `now` minus the stored time (0 when none is stored) reaches the cooldown |
| `BounceInteraction.ImpulseVector` | src/components/three/BounceInteraction.ts:109-122 | zero strength gives the zero impulse; otherwise the impulse divided by the strength is the normalised direction from the hit point to the object |
| `BounceInteraction.LastBounceOf` | src/components/three/BounceInteraction.ts:101 | a missing timestamp reads as 0, a stored one as itself |
| `BounceInteraction.Kick` | src/components/three/BounceInteraction.ts:116-122 | the impulse is added to the target's velocity (new − old = impulse); no other entry changes and no entry is created |
| `BounceInteraction.BouncedVelocities` | src/components/three/BounceInteraction.ts:92-122 | the keys and every other entry are kept; a refused bounce changes nothing; an allowed one adds exactly the impulse to the target's existing velocity |
| `BounceInteraction.BouncedTimes` | src/components/three/BounceInteraction.ts:99-107 | every other entry is kept; an allowed bounce stores `now` for the target, a refused one changes nothing |
| `BounceInteraction.StaticNeverBounces` | src/components/three/BounceInteraction.ts:92-98 | a static target changes neither the velocities nor the timestamps |
| `BounceInteraction.SecondBounceWithinCooldownIgnored` | src/components/three/BounceInteraction.ts:99-107 | after a successful impulse, a second attempt on the same object within the cooldown changes nothing |
| `BounceInteraction.SecondBounceAfterCooldownStacks` | src/components/three/BounceInteraction.ts:99-122 | after the cooldown a second impulse adds to the first (never replaces it) and the timestamp moves to the second time |
| `BounceInteraction.InteractionState.ApplyBounceEffect` | src/components/three/BounceInteraction.ts:86-123 | with no selection nothing changes; otherwise the velocity and timestamp tables become the bounced tables for the scene node the hit names (static exemption, cooldown, timestamp recorded even without a velocity entry) |
| `BounceInteraction.Wobble` | src/components/three/BounceInteraction.ts:156-158 | the offset from the rest rotation is 0.1 times the velocity with its components cycled (z, x, y); zero velocity gives the rest rotation; a velocity along x alone tilts only the y angle |
| `BounceInteraction.Integrate` | src/components/three/BounceInteraction.ts:141-158 | the position moves by velocity·dt; the new velocity minus the damped one is the spring pull toward the new position's rest offset times dt; the rotation is the wobble of the new velocity; dt = 0 keeps the position |
| `BounceInteraction.RestIsFixedPoint` | src/components/three/BounceInteraction.ts:136-159 | a mesh at its rest position with zero velocity stays there with zero velocity, and its rotation becomes exactly the rest rotation |
| `BounceInteraction.DampingIsPerTick` | src/components/three/BounceInteraction.ts:141-154 | with dt = 0 the position stays and the spring adds nothing, but the velocity is still damped |
| `BounceInteraction.WorkedExample` | src/components/three/BounceInteraction.ts:141-158 | from velocity (−1, 0, 0) at rest with dt = 0.016: position (−0.016, 0, 0), velocity (−0.9372, 0, 0), rotation y tilted by −0.09372 |
| `BounceInteraction.Tracked` | src/components/three/BounceInteraction.ts:131-140 | a node that is not a mesh, is static, or has no velocity entry is never stepped |
| `BounceInteraction.StepNode` | src/components/three/BounceInteraction.ts:131-159 | an untracked node (not a mesh, static, or missing any of the three entries) and the tables are unchanged; otherwise only position, rotation and its own velocity change |
| `BounceInteraction.PhysicsUpTo` | src/components/three/BounceInteraction.ts:130-161 | visiting n nodes yields n nodes and keeps the velocity keys |
| `BounceInteraction.Physics` | src/components/three/BounceInteraction.ts:130-161 | the whole traversal yields one node per node and keeps the velocity keys |
| `BounceInteraction.PhysicsKeepsIdentity` | src/components/three/BounceInteraction.ts:130-161 | the traversal changes at most a node's position and rotation |
| `BounceInteraction.PhysicsSkipsUntracked` | src/components/three/BounceInteraction.ts:131-140 | a node untracked at the start of the tick is left exactly as it was |
| `BounceInteraction.PhysicsPrefixStable` | src/components/three/BounceInteraction.ts:130 | visiting more nodes leaves the results for the nodes already visited in place |
| `BounceInteraction.PhysicsUntouchedEntry` | src/components/three/BounceInteraction.ts:138-154 | a velocity entry that none of the visited nodes owns is unchanged |
| `BounceInteraction.StepNodeReadsOwnEntry` | src/components/three/BounceInteraction.ts:136-158 | a node's step depends only on its own velocity entry, and writes an equal entry from equal entries |
| `BounceInteraction.PhysicsLastStep` | src/components/three/BounceInteraction.ts:130-161 | the last visited node is stepped from its velocity of the start of the tick when no earlier node shares its uuid |
| `BounceInteraction.PhysicsPerNode` | src/components/three/BounceInteraction.ts:130-161 | with unique uuids each node and its velocity entry afterwards are its own single step from the tick's starting velocities |
| `BounceInteraction.StaticMeshUntouched` | src/components/three/BounceInteraction.ts:131-134 | a static mesh keeps its position, rotation and velocity through the physics step |
| `BounceInteraction.StaticNodeUnaffectedByTick` | src/components/three/BounceInteraction.ts:54-162 | with unique uuids, a static node keeps its pose, its velocity entry and its timestamp through a whole tick, whatever is hit or was selected |
| `BounceInteraction.InteractionState.UpdatePhysics` | src/components/three/BounceInteraction.ts:125-162 | the nodes and velocities after the in-place loop are those of the traversal `Physics` |
| `BounceInteraction.InteractionState.StepAt` | src/components/three/BounceInteraction.ts:131-159 | the callback for the node at i: only that node changes, to its `StepNode` result, and the velocity table becomes the step's |
| `BounceInteraction.InteractionState.ShiftSelection` | src/components/three/BounceInteraction.ts:67-74 | previous := old selection; selection := the first hit's node; highlight recomputed from it |
| `BounceInteraction.InteractionState.BounceNewSelection` | src/components/three/BounceInteraction.ts:76-81 | on a trigger, the tables become the bounced tables for the first hit's node; otherwise they are unchanged |
| `BounceInteraction.InteractionState.UpdateInteractions` | src/components/three/BounceInteraction.ts:54-84 | previous := old selection, selection := the first hit's scene node, highlight recomputed, impulse attempted on that node only on a trigger, then the physics step from the kicked velocities; pointer and rest tables unchanged |
| `Animations.Action.constructor` | src/components/three/ModelLoader.ts:42 | a new action is not paused and has had no calls |
| `Animations.Action.Reset` | src/components/three/Animations.ts:37 | `reset` clears `paused` and is logged |
| `Animations.Action.SetLoopForever` | src/components/three/Animations.ts:38 | `setLoop(mode, Infinity)` is logged with its mode |
| `Animations.Action.FadeIn` | src/components/three/Animations.ts:39 | `fadeIn` is logged with its duration |
| `Animations.Action.FadeOut` | src/components/three/Animations.ts:34 | `fadeOut` is logged with its duration |
| `Animations.Action.Play` | src/components/three/Animations.ts:40 | `play` is logged |
| `Animations.Mixer.constructor` | src/components/three/ModelLoader.ts:39 | a new mixer has not advanced |
| `Animations.Mixer.Update` | src/components/three/Animations.ts:69 | `mixer.update` appends its time step to the mixer's log |
| `Animations.AnimationContext.constructor` | src/components/three/Animations.ts:9-18 | a fresh context has an empty slot |
| `Animations.AnimationContext.PlayAnimation` | src/components/three/Animations.ts:20-43 | unknown name: nothing changes. Known name: that action fills the slot, unpaused, having been reset, looped forever, faded in and played; a different previous action got one fade-out; replaying the active one issues no fade-out |
| `Animations.AnimationContext.StopAnimation` | src/components/three/Animations.ts:45-53 | the slot is empty afterwards; a previously active action got exactly one fade-out |
| `Animations.AnimationContext.PauseAnimation` | src/components/three/Animations.ts:55-59 | only the active action's `paused` flag is set; the slot and the call log are unchanged |
| `Animations.AnimationContext.ResumeAnimation` | src/components/three/Animations.ts:61-65 | only `paused` is cleared; no reset is issued |
| `Animations.AnimationContext.UpdateAnimations` | src/components/three/Animations.ts:67-71 | the mixer advances by the given time whether or not an action is active |
| `Animations.AnimationContext.ListAnimations` | src/components/three/Animations.ts:73-75 | the names are exactly the action-map keys, without repetition, in insertion order |
| `Animations.CrossFadeScenario` | src/components/three/Animations.ts:20-65 | playing "walk" then "run": walk is reset, looped, faded in, played and then faded out; run gets the same start without a fade-out; pausing and resuming leaves both unpaused |
| `VisualEffects.WithDefaults` | src/components/three/VisualEffects.ts:22-28 | each field keeps its supplied value or defaults to true / "#ffffff" / 1 / 3 / 0.5 |
| `VisualEffects.Merge` | src/components/three/VisualEffects.ts:88 | supplied fields overwrite, the others keep their value |
| `VisualEffects.DefaultsAreMergeOverDefault` | src/components/three/VisualEffects.ts:22-28 | defaulting at setup equals merging the supplied fields over the default configuration |
| `VisualEffects.MergeLaws` | src/components/three/VisualEffects.ts:88 | merging nothing is the identity; merging the same fields twice is merging them once; a full update overrides any earlier one |
| `VisualEffects.OutlinePass.constructor` | src/components/three/VisualEffects.ts:43-60 | a new pass takes strength, glow, thickness and colour from the configuration, hidden-edge colour #190a05, and outlines nothing |
| `VisualEffects.VisualEffectsContext.constructor` | src/components/three/VisualEffects.ts:18-41 | the configuration is the defaulted one, and a pass exists iff it is enabled |
| `VisualEffects.OutlinedObjects` | src/components/three/VisualEffects.ts:67-74 | the highlight list when both the configuration and the call enable the outline, otherwise nothing |
| `VisualEffects.VisualEffectsContext.UpdateVisualEffects` | src/components/three/VisualEffects.ts:62-75 | with a pass, it outlines exactly the gated list and keeps its other settings; without a pass nothing changes |
| `VisualEffects.VisualEffectsContext.ToggleOutlineEffect` | src/components/three/VisualEffects.ts:77-81 | only the enabled flag changes, and only when a pass exists |
| `VisualEffects.VisualEffectsContext.UpdateEffectConfig` | src/components/three/VisualEffects.ts:83-106 | the configuration is the merge; the pass receives only the supplied strength, glow, thickness and colour, and keeps its hidden colour and selection |
| `ModelLoader.TunedLightness` | src/components/three/ModelLoader.ts:125-128 | min(l·1.2, 1): never above 1 nor above l·1.2, non-negative for non-negative l, never darker for l in [0, 1] |
| `ModelLoader.OptimizeMaterial` | src/components/three/ModelLoader.ts:112-160 | per kind: standard and physical get roughness ×0.8 (0.6 if unset) and metalness kept (0.2 if unset); the colour map (and the emissive map except on basic) switches to sRGB; lightness tuned with hue and saturation kept; other kinds untouched |
| `ModelLoader.RoughnessCompounds` | src/components/three/ModelLoader.ts:119 | tuning is not idempotent: twice gives roughness ×0.64 |
| `ModelLoader.ColorSpacesSettle` | src/components/three/ModelLoader.ts:122-123 | the colour-space settings, unlike roughness and lightness, settle after one tuning |
| `ModelLoader.TuneMaterials` | src/components/three/ModelLoader.ts:112-117 | tuning a mesh's materials keeps the material table's keys |
| `ModelLoader.TuneMeshMaterials` | src/components/three/ModelLoader.ts:98-108 | tuning every mesh's materials keeps the material table's keys |
| `ModelLoader.TunedTimesAdd` | src/components/three/ModelLoader.ts:112-160 | tuning a times and then b times is tuning a + b times |
| `ModelLoader.TuneMaterialsCounts` | src/components/three/ModelLoader.ts:112-117 | each material is tuned once per entry of the mesh's list that names it |
| `ModelLoader.TuneMaterialsTunesListedOnce` | src/components/three/ModelLoader.ts:112-117 | a material the list names once becomes `OptimizeMaterial` of its old value |
| `ModelLoader.TuneMeshMaterialsCounts` | src/components/three/ModelLoader.ts:98-117 | over the traversal, each material is tuned once per time a mesh lists it |
| `ModelLoader.TuneMeshMaterialsTunesListedOnce` | src/components/three/ModelLoader.ts:98-117 | a material listed exactly once among all meshes becomes `OptimizeMaterial` of its old value |
| `ModelLoader.TuneMaterialsKeepsLightnessInRange` | src/components/three/ModelLoader.ts:125-128 | tuning one mesh's materials keeps every lightness within [0, 1] |
| `ModelLoader.TuneMaterialsLeavesOthers` | src/components/three/ModelLoader.ts:112-117 | a material not in the mesh's list is unchanged |
| `ModelLoader.TuneMeshMaterialsKeepsLightnessInRange` | src/components/three/ModelLoader.ts:125-157 | however often materials are tuned, every lightness stays within [0, 1] |
| `ModelLoader.TuneMeshMaterialsLeavesUnused` | src/components/three/ModelLoader.ts:98-117 | a material no mesh uses is unchanged |
| `ModelLoader.SharedMaterialTunedPerMesh` | src/components/three/ModelLoader.ts:98-117 | a material shared by two meshes is tuned twice |
| `ModelLoader.MeshIds` | src/components/three/ModelLoader.ts:99 | exactly the uuids of the meshes of the traversal |
| `ModelLoader.RegisterMeshes` | src/components/three/ModelLoader.ts:98-105 | the table's keys grow by exactly the mesh uuids (so the three tables grow identically) |
| `ModelLoader.RegisterMeshesValue` | src/components/three/ModelLoader.ts:102-104 | with unique uuids every mesh is stored with its own position, rotation or zero velocity |
| `ModelLoader.RegisterMeshesKeeps` | src/components/three/ModelLoader.ts:98-105 | an id that is no mesh of the traversal keeps its stored value |
| `ModelLoader.ActionTable` | src/components/three/ModelLoader.ts:40-45 | one entry per distinct clip name |
| `ModelLoader.ActionTableLastWins` | src/components/three/ModelLoader.ts:40-45 | a name used by several clips maps to the action of the last of them |
| `ModelLoader.BuildActionMap` | src/components/three/ModelLoader.ts:40-45 | the loop builds a valid ordered map whose keys are the clip names in first-occurrence order and whose entries are `ActionTable` |
| `ModelLoader.IdentifyStaticObjects` | src/components/three/ModelLoader.ts:80-90 | the nodes become `WithStaticFlag(nodes, true)`: floor/wall meshes flagged, nothing else touched |
| `ModelLoader.OptimizeMaterials` | src/components/three/ModelLoader.ts:112-160 | a mesh's materials are tuned in place, in list order |
| `ModelLoader.OptimizeModel` | src/components/three/ModelLoader.ts:92-110 | the three tables are the registrations of the meshes, and the materials are those of `TuneMeshMaterials` |
| `ModelLoader.CenterModel` | src/components/three/ModelLoader.ts:162-169 | the model's position is the negated bounding-box centre |
| `ModelLoader.OnModelLoaded` | src/components/three/ModelLoader.ts:35-54 | action table, static marking, registration and tuning, and centring, composed in the callback's order |
| `SceneInitializer.Camera.constructor` | src/components/three/SceneInitializer.ts:42-51 | a camera takes the given pose with rotation order XYZ |
| `SceneInitializer.InitializeScene` | src/components/three/SceneInitializer.ts:31-103 | camera at (23.6, 2.98, −22.7) with rotation (81°, −2.3°, 144°) in radians; controls min 2, max 20, zoom speed 0.5, rotation speed 1, not dragging |
| `SceneInitializer.OrbitZoomControls.constructor` | src/components/three/SceneInitializer.ts:74-92 | the control defaults, the spherical pose of the camera, and no drag in progress |
| `SceneInitializer.ZoomDelta` | src/components/three/SceneInitializer.ts:116 | 100 times the step is deltaY·zoomSpeed; zero wheel delta gives zero step; for positive speed the step is positive exactly when deltaY is |
| `SceneInitializer.ZoomCandidate` | src/components/three/SceneInitializer.ts:118-120 | the candidate is the position moved by −ZoomDelta along the unit vector toward the origin; a zero wheel delta proposes the current position |
| `SceneInitializer.OrbitZoomControls.Wheel` | src/components/three/SceneInitializer.ts:113-132 | accepted iff the candidate's distance lies in [min, max]; then the camera moves there and the radius is that distance; otherwise position and radius are unchanged |
| `SceneInitializer.InitialCameraRejectsZoom` | src/components/three/SceneInitializer.ts:113-131 | from the initial camera, with Euclidean `distanceTo` and true `normalize`, no wheel event with \|deltaY\| < 2400 is accepted |
| `SceneInitializer.OrbitZoomControls.MouseDown` | src/components/three/SceneInitializer.ts:152-166 | left button: spherical pose read off the camera, dragging starts, pointer recorded; any other button changes nothing |
| `SceneInitializer.OrbitZoomControls.MouseUp` | src/components/three/SceneInitializer.ts:168-173 | dragging stops |
| `SceneInitializer.ClampPhi` | src/components/three/SceneInitializer.ts:189-195 | the result lies in [0.1, π − 0.1], is the identity inside it, and is the nearer bound outside |
| `SceneInitializer.ClampPhiIdempotent` | src/components/three/SceneInitializer.ts:189-195 | clamping twice is clamping once |
| `SceneInitializer.ClampPhiMonotone` | src/components/three/SceneInitializer.ts:189-195 | clamping preserves the order of angles |
| `SceneInitializer.DragTheta` | src/components/three/SceneInitializer.ts:184-187 | 100 times the change of azimuth is −dx·rotationSpeed; no horizontal motion keeps the azimuth; with positive speed, moving right decreases it |
| `SceneInitializer.DragPhi` | src/components/three/SceneInitializer.ts:185-195 | the result lies in [0.1, π − 0.1]; no vertical motion only clamps; with non-negative speed, moving down never raises the angle |
| `SceneInitializer.DownwardDragLowersPhi` | src/components/three/SceneInitializer.ts:185-195 | a downward drag with non-negative speed never raises the clamped polar angle |
| `SceneInitializer.DragThetaRoundTrip` | src/components/three/SceneInitializer.ts:184-187 | dragging by dx and back by −dx restores the azimuth |
| `SceneInitializer.OrbitPosition` | src/components/three/SceneInitializer.ts:197-201 | radius 0 puts the camera at the origin; sin φ = 0 puts it on the y axis |
| `SceneInitializer.OrbitPositionOnSphere` | src/components/three/SceneInitializer.ts:197-201 | with sin² + cos² = 1 the camera stays on the sphere of the orbit radius |
| `SceneInitializer.OrbitZoomControls.MouseMove` | src/components/three/SceneInitializer.ts:175-204 | not dragging: nothing changes. Dragging: pointer recorded, azimuth stepped, polar angle stepped and clamped into [0.1, π − 0.1], radius kept, camera placed on the sphere and aimed at the origin |
| `CameraControls.Convert` | src/components/three/CameraControls.tsx:51-73 | 'blender-to-three' is undone by the inverse axis swap; 'reset' gives the reset pose; 'direct' and unknown names keep the pose |
| `CameraControls.BlenderPositionToThree` | src/components/three/CameraControls.tsx:56-61 | the inverse swap gives back the Blender position, and Blender's z becomes three.js's y |
| `CameraControls.BlenderRotationToThree` | src/components/three/CameraControls.tsx:62-66 | the inverse swap gives back the Blender rotation |
| `CameraControls.AxisSwapRoundTrips` | src/components/three/CameraControls.tsx:56-66 | the axis swap and its inverse undo each other on positions and rotations |
| `CameraControls.FourConversions` | src/components/three/CameraControls.tsx:56-66 | four conversions restore the position and turn the rotation by −360° about x |
| `CameraControls.ToRadians` | src/components/three/CameraControls.tsx:26-29 | every component is scaled by π/180; 180° becomes π |
| `CameraControls.ResetPoseAgainstInitialCamera` | src/components/three/CameraControls.tsx:68-70 | the reset rotation is the scene's initial rotation; the reset position converted from Blender axes is the initial position (23.6, 2.98, −22.7), but that conversion turns the rotation away from the initial one |
| `CameraControls.CameraPanel.constructor` | src/components/three/CameraControls.tsx:10-15 | the panel starts at position (−4.40, −10.3, −87.5), rotation (0, −180, 0) |
| `CameraControls.CameraPanel.UpdateCamera` | src/components/three/CameraControls.tsx:17-37 | with a camera: position copied, angles × π/180, order XYZ; without one: nothing |
| `CameraControls.CameraPanel.ApplyConversionSystem` | src/components/three/CameraControls.tsx:51-73 | the pose becomes `Convert`; for the three known names the camera then shows it; an unknown name leaves the camera alone |
| `Page.ApplyStaticObjectsState` | src/app/page.tsx:99-116 | the in-place traversal yields `WithStaticFlag(nodes, flag)` |
| `Page.SwitchOverridesLoader` | src/app/page.tsx:61 | the page's switch overrides the loader's marking |
| `Page.PageEffectsConfig` | src/app/page.tsx:40-45 | the page's effects configuration is the default one with the outline enabled flag taken from the checkbox |
| `Page.FrameStep` | src/components/three/BounceInteraction.ts:54-84 | one frame on values: the previous selection takes the old one, and the selection becomes the first hit's node |
| `Page.Frames` | src/app/page.tsx:64-69 | the frames applied in order keep the number of nodes |
| `Page.FrameStepKeepsIdentity` | src/components/three/BounceInteraction.ts:125-162 | one frame changes at most each node's position and rotation |
| `Page.FramesKeepIdentity` | src/app/page.tsx:64-69 | any number of frames changes at most each node's position and rotation |
| `Page.StaticNodeUnaffectedByFrames` | src/app/page.tsx:64-69 | with unique uuids a static node, its velocity entry and its timestamp come through any number of frames unchanged |
| `Page.AnimateFrame` | src/app/page.tsx:64-69 | one frame: the selection pair, velocities, timestamps and nodes become `FrameStep` of the old ones; highlight list empty, outline cleared and its style kept; identity fields, pointer and rest tables kept |
| `Page.RunFrames` | src/app/page.tsx:64-71 | the `requestAnimationFrame` loop over the given frames: the state it leaves is `Frames` of the starting state, the tuning, pointer and outline style are kept, the static flags hold, and the highlight and outline stay empty |
| `Page.AfterModelLoaded` | src/app/page.tsx:57-71 | once the model has loaded: the static switch is applied and the frames then run from the switched nodes, so the state left is `Frames` of it; the switch's flags hold at the end, highlight and outline stay empty, and the outline style is kept |
| `Page.Initialize` | src/app/page.tsx:33-74 | a load failure runs no frame and changes no node, position or material; after a load every frame runs and the static switch's value holds at the end; the outline is empty and styled from the page's configuration |

## Left out

- Raycasting.
  - `Raycaster.setFromCamera` and `intersectObjects` are library calls.
  - Their result is an input sequence of hits, nearest first.
  - A hit names its object by its position in the node traversal, so only the model's nodes can be hit. In the source the raycast targets are all descendants of the scene. On this page the scene holds only the lights and the model, and lights have no geometry to hit, so the index-based hits cover every object that can be hit.
- Rendering and WebGL: the renderer and its settings, lights, `EffectComposer`, `composer.addPass`, the `OutlinePass` internals, the render call, and the shadow flags set in `optimizeModel`.
- The grid shaders and the UI-only files: grid controls, grid preview, grid config, and the camera panel's markup and code-string generator.
- Asynchronous and external behaviour.
  - GLTF/DRACO loading and its promise are file and network I/O. The outcome is an input (`Page.LoadOutcome`) and the loaded model a parameter.
  - `requestAnimationFrame` is reduced to a finite sequence of frames.
  - The resize handler, event-listener registration and removal, `cleanupInteraction` and `disposeScene` are left out. The two teardown functions remove freshly created handlers, so they detach nothing.
  - React state and effects are modelled only in `CameraPanel.ApplyConversionSystem`, as the update that follows a state change. The effect on mount and the 500 ms timer are not modelled.
  - The teardown race when the page effect re-runs is concurrency and is not modelled.
- Numerics.
  - IEEE-754 rounding, NaN and infinities are not modelled.
  - The HSL round trip through RGB is not modelled: a colour's hue, saturation and lightness are stored directly.
  - Library trigonometry and lengths are parameters.
- Animation internals. `AnimationMixer` blending and time advance are reduced to call logs.
- `SceneGraph.Lower`: models `toLowerCase` for ASCII letters only, because Unicode case mapping has no counterpart here.
- `BounceInteraction.PointerToNdc`: requires a non-zero rectangle width and height. The source would divide by zero and produce infinities or NaN.
- Update order.
  - `BounceInteraction.InteractionState.UpdatePhysics` runs over the nodes given to it. The page passes the model's nodes, while the source traverses the whole scene. The other scene objects are never registered, so the physics step leaves them unchanged.
  - `ModelLoader.OnModelLoaded`: `scene.add(model)` is not modelled, and the bounding-box centre of `centerModel` is an input.
- `VisualEffects.Merge`: models `Object.assign` with absent fields only. A field supplied explicitly as `undefined` would be copied by the source.
- `ModelLoader.OptimizeMaterials`: a material identity missing from the material table is skipped. In the source every listed material exists.
- `Animations.Action`: `setLoop`, `fadeIn`, `fadeOut` and `play` are recorded, not simulated. `reset` clears `paused`, as three.js does.
