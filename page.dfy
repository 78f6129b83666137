/**
 * The application page: it builds the scene, the visual effects and the
 * interaction state, waits for the model, applies the static-objects switch
 * and then runs the frame loop. A frame updates the interactions, then the
 * outline with the interaction state's highlight list, then renders.
 */
module Page {
  import opened Options
  import opened Vectors
  import opened SceneGraph
  import opened BounceInteraction
  import opened VisualEffects
  import opened ModelLoader
  import SceneInitializer

  /**
   * `applyStaticObjectsState`: every mesh whose name mentions a floor or a
   * wall gets the given flag; nothing else changes.
   */
  method ApplyStaticObjectsState(nodes: array<Node>, isStatic: bool)
    modifies nodes
    ensures nodes[..] == WithStaticFlag(old(nodes[..]), isStatic)
  {
    for i := 0 to nodes.Length
      invariant forall k :: 0 <= k < i ==>
        nodes[k] == (if IsStaticCandidate(old(nodes[k])) then old(nodes[k]).(isStatic := isStatic) else old(nodes[k]))
      invariant forall k :: i <= k < nodes.Length ==> nodes[k] == old(nodes[k])
    {
      if nodes[i].isMesh {
        var isFloor := IsFloorOrWallName(nodes[i].name);
        if isFloor {
          nodes[i] := nodes[i].(isStatic := isStatic);
        }
      }
    }
  }

  /**
   * The page's switch wins over the loader's marking: whatever the loader
   * flagged, after the switch the candidates carry the switch's value.
   */
  lemma SwitchOverridesLoader(nodes: seq<Node>, staticObjectsEnabled: bool)
    ensures WithStaticFlag(WithStaticFlag(nodes, true), staticObjectsEnabled) == WithStaticFlag(nodes, staticObjectsEnabled)
  {
    WithStaticFlagLastWins(nodes, true, staticObjectsEnabled);
  }

  /** The configuration the page passes to `setupVisualEffects`; the thickness is left to its default. */
  function PageEffectsConfig(highlightEnabled: bool): (p: PartialConfig)
    ensures WithDefaults(p) == DefaultConfig.(outlineEnabled := highlightEnabled)
  {
    PartialConfig(Some(highlightEnabled), Some("#ffffff"), None, Some(3.0), Some(0.5))
  }

  /** What the raycaster and the clock supply to one frame. */
  datatype FrameInput = FrameInput(hits: seq<Hit>, dt: real, now: int)

  /** What a frame changes: the selection pair, the velocity and timestamp tables, and the nodes. */
  datatype FrameState = FrameState(previousSelected: Option<ObjectId>, selected: Option<ObjectId>,
                                   velocities: map<ObjectId, Vec3>, lastBounceTime: map<ObjectId, int>,
                                   nodes: seq<Node>)

  /** What no frame changes: the rest tables and the tuning constants. */
  datatype Tuning = Tuning(restPositions: map<ObjectId, Vec3>, restRotations: map<ObjectId, Vec3>,
                           impulseStrength: real, bounceCooldown: int, springStrength: real, damping: real)

  ghost function FrameOf(state: InteractionState, nodes: array<Node>): FrameState
    reads state, nodes
  {
    FrameState(state.previousSelected, state.selected, state.velocities, state.lastBounceTime, nodes[..])
  }

  ghost function TuningOf(state: InteractionState): Tuning
    reads state
  {
    Tuning(state.restPositions, state.restRotations, state.impulseStrength, state.bounceCooldown,
           state.springStrength, state.damping)
  }

  /**
   * One frame on values: the selection moves to the first hit, a newly
   * selected object may be kicked, and then every node takes its physics step.
   */
  function FrameStep(s: FrameState, input: FrameInput, t: Tuning, unit: Vec3 -> Vec3): (r: FrameState)
    requires HitsIn(input.hits, |s.nodes|)
    ensures |r.nodes| == |s.nodes|
    ensures r.previousSelected == s.selected && r.selected == FirstHit(input.hits, s.nodes)
  {
    var selected := FirstHit(input.hits, s.nodes);
    var fire := Triggers(s.selected, selected);
    var times := if fire then BouncedTimes(s.lastBounceTime, s.nodes[input.hits[0].index], input.now, t.bounceCooldown)
                 else s.lastBounceTime;
    var kicked := if fire then BouncedVelocities(s.velocities, s.lastBounceTime, s.nodes[input.hits[0].index],
                                                 input.hits[0].point, input.now, t.impulseStrength,
                                                 t.bounceCooldown, unit)
                  else s.velocities;
    var r := Physics(s.nodes, t.restPositions, t.restRotations, kicked, t.springStrength, t.damping, input.dt);
    FrameState(s.selected, selected, r.1, times, r.0)
  }

  /** The frames in order, each starting from the state the previous one left. */
  function Frames(s: FrameState, frames: seq<FrameInput>, t: Tuning, unit: Vec3 -> Vec3): (r: FrameState)
    requires forall f :: f in frames ==> HitsIn(f.hits, |s.nodes|)
    ensures |r.nodes| == |s.nodes|
    decreases |frames|
  {
    if |frames| == 0 then s
    else
      var last := frames[|frames| - 1];
      assert last in frames;
      FrameStep(Frames(s, frames[..|frames| - 1], t, unit), last, t, unit)
  }

  /** A frame changes at most a node's position and rotation. */
  lemma FrameStepKeepsIdentity(s: FrameState, input: FrameInput, t: Tuning, unit: Vec3 -> Vec3)
    requires HitsIn(input.hits, |s.nodes|)
    ensures forall k :: 0 <= k < |s.nodes| ==>
      FrameStep(s, input, t, unit).nodes[k].(position := s.nodes[k].position, rotation := s.nodes[k].rotation)
        == s.nodes[k]
  {
    var selected := FirstHit(input.hits, s.nodes);
    var kicked := if Triggers(s.selected, selected)
                  then BouncedVelocities(s.velocities, s.lastBounceTime, s.nodes[input.hits[0].index],
                                         input.hits[0].point, input.now, t.impulseStrength, t.bounceCooldown, unit)
                  else s.velocities;
    PhysicsKeepsIdentity(s.nodes, |s.nodes|, t.restPositions, t.restRotations, kicked, t.springStrength, t.damping,
                         input.dt);
  }

  /** Any number of frames changes at most a node's position and rotation. */
  lemma {:induction false} FramesKeepIdentity(s: FrameState, frames: seq<FrameInput>, t: Tuning, unit: Vec3 -> Vec3)
    requires forall f :: f in frames ==> HitsIn(f.hits, |s.nodes|)
    ensures forall k :: 0 <= k < |s.nodes| ==>
      Frames(s, frames, t, unit).nodes[k].(position := s.nodes[k].position, rotation := s.nodes[k].rotation)
        == s.nodes[k]
    decreases |frames|
  {
    if |frames| > 0 {
      var last := frames[|frames| - 1];
      assert last in frames;
      var mid := Frames(s, frames[..|frames| - 1], t, unit);
      FramesKeepIdentity(s, frames[..|frames| - 1], t, unit);
      FrameStepKeepsIdentity(mid, last, t, unit);
      assert Frames(s, frames, t, unit) == FrameStep(mid, last, t, unit);
    }
  }

  /**
   * With unique uuids a static node comes through any number of frames as it
   * was, with its velocity entry and its timestamp, whatever the frames hit.
   */
  lemma {:induction false} StaticNodeUnaffectedByFrames(s: FrameState, frames: seq<FrameInput>, t: Tuning,
                                                        unit: Vec3 -> Vec3, i: int)
    requires UniqueIds(s.nodes) && forall f :: f in frames ==> HitsIn(f.hits, |s.nodes|)
    requires 0 <= i < |s.nodes| && s.nodes[i].isStatic
    ensures Frames(s, frames, t, unit).nodes[i] == s.nodes[i]
    ensures SameEntry(Frames(s, frames, t, unit).velocities, s.velocities, s.nodes[i].id)
    ensures SameEntry(Frames(s, frames, t, unit).lastBounceTime, s.lastBounceTime, s.nodes[i].id)
    decreases |frames|
  {
    if |frames| > 0 {
      var last := frames[|frames| - 1];
      assert last in frames;
      var mid := Frames(s, frames[..|frames| - 1], t, unit);
      StaticNodeUnaffectedByFrames(s, frames[..|frames| - 1], t, unit, i);
      FramesKeepIdentity(s, frames[..|frames| - 1], t, unit);
      assert forall a :: 0 <= a < |s.nodes| ==> mid.nodes[a].id == s.nodes[a].id;
      StaticNodeUnaffectedByTick(mid.nodes, last.hits, mid.selected, mid.velocities, mid.lastBounceTime,
                                 t.restPositions, t.restRotations, last.now, t.impulseStrength, t.bounceCooldown,
                                 t.springStrength, t.damping, last.dt, unit, i);
      assert Frames(s, frames, t, unit) == FrameStep(mid, last, t, unit);
    }
  }

  /**
   * One `animate` frame. `updateInteractions` is called without its highlight
   * argument, so the highlight list is empty and the outline is cleared on
   * every frame, whatever the checkbox says.
   */
  method AnimateFrame(state: InteractionState, effects: VisualEffectsContext, nodes: array<Node>,
                      input: FrameInput, unit: Vec3 -> Vec3, highlightEnabled: bool)
    requires HitsIn(input.hits, nodes.Length)
    modifies state, nodes, effects.outlinePass
    ensures state.previousSelected == old(state.selected) && state.selected == FirstHit(input.hits, old(nodes[..]))
    ensures state.highlight == []
    ensures effects.outlinePass != null ==> effects.outlinePass.selectedObjects == []
    ensures forall i :: 0 <= i < nodes.Length ==>
      nodes[i].(position := old(nodes[i].position), rotation := old(nodes[i].rotation)) == old(nodes[i])
    ensures state.restPositions == old(state.restPositions) && state.restRotations == old(state.restRotations)
    ensures state.mouse == old(state.mouse)
    ensures FrameOf(state, nodes) == FrameStep(old(FrameOf(state, nodes)), input, TuningOf(state), unit)
    ensures effects.outlinePass != null ==> effects.outlinePass.Style() == old(effects.outlinePass.Style())
  {
    ghost var before := FrameOf(state, nodes);
    state.UpdateInteractions(nodes, input.hits, input.dt, input.now, unit, false);
    FrameStepKeepsIdentity(before, input, TuningOf(state), unit);
    effects.UpdateVisualEffects(state.highlight, highlightEnabled);
  }

  /**
   * The `animate` loop, cut to the given frames: the state it leaves is that of
   * `Frames`, every frame leaves the static flags as they are, and the
   * highlight list and the outline stay empty.
   */
  method RunFrames(state: InteractionState, effects: VisualEffectsContext, nodes: array<Node>,
                   frames: seq<FrameInput>, unit: Vec3 -> Vec3, highlightEnabled: bool)
    returns (framesRun: nat)
    requires forall f :: f in frames ==> HitsIn(f.hits, nodes.Length)
    requires state.highlight == []
    requires effects.outlinePass != null ==> effects.outlinePass.selectedObjects == []
    modifies state, nodes, effects.outlinePass
    ensures framesRun == |frames|
    ensures FrameOf(state, nodes) == Frames(old(FrameOf(state, nodes)), frames, TuningOf(state), unit)
    ensures TuningOf(state) == old(TuningOf(state)) && state.mouse == old(state.mouse)
    ensures effects.outlinePass != null ==> effects.outlinePass.Style() == old(effects.outlinePass.Style())
    ensures forall i :: 0 <= i < nodes.Length ==> nodes[i].isStatic == old(nodes[i].isStatic)
    ensures state.highlight == []
    ensures effects.outlinePass != null ==> effects.outlinePass.selectedObjects == []
  {
    ghost var start := FrameOf(state, nodes);
    ghost var tuning := TuningOf(state);
    framesRun := 0;
    while framesRun < |frames|
      invariant framesRun <= |frames|
      invariant TuningOf(state) == tuning && state.mouse == old(state.mouse)
      invariant effects.outlinePass != null ==> effects.outlinePass.Style() == old(effects.outlinePass.Style())
      invariant FrameOf(state, nodes) == Frames(start, frames[..framesRun], tuning, unit)
      invariant state.highlight == []
      invariant effects.outlinePass != null ==> effects.outlinePass.selectedObjects == []
      decreases |frames| - framesRun
    {
      assert frames[framesRun] in frames;
      AnimateFrame(state, effects, nodes, frames[framesRun], unit, highlightEnabled);
      assert frames[..framesRun + 1][..framesRun] == frames[..framesRun];
      framesRun := framesRun + 1;
    }
    assert frames[..framesRun] == frames;
    FramesKeepIdentity(start, frames, tuning, unit);
  }

  /**
   * What `initialize` does once the model has loaded: apply the static
   * switch, then run the frame loop over the switched nodes.
   */
  method AfterModelLoaded(state: InteractionState, effects: VisualEffectsContext, nodes: array<Node>,
                          staticObjectsEnabled: bool, frames: seq<FrameInput>, unit: Vec3 -> Vec3,
                          highlightEnabled: bool)
    returns (framesRun: nat)
    requires forall f :: f in frames ==> HitsIn(f.hits, nodes.Length)
    requires state.highlight == []
    requires effects.outlinePass != null ==> effects.outlinePass.selectedObjects == []
    modifies state, nodes, effects.outlinePass
    ensures framesRun == |frames|
    ensures FrameOf(state, nodes)
            == Frames(old(FrameOf(state, nodes)).(nodes := WithStaticFlag(old(nodes[..]), staticObjectsEnabled)),
                      frames, TuningOf(state), unit)
    ensures forall i :: 0 <= i < nodes.Length ==>
      nodes[i].isStatic == WithStaticFlag(old(nodes[..]), staticObjectsEnabled)[i].isStatic
    ensures state.highlight == []
    ensures effects.outlinePass != null ==> effects.outlinePass.selectedObjects == []
    ensures effects.outlinePass != null ==> effects.outlinePass.Style() == old(effects.outlinePass.Style())
  {
    ApplyStaticObjectsState(nodes, staticObjectsEnabled);
    ghost var switched := nodes[..];
    assert FrameOf(state, nodes) == old(FrameOf(state, nodes)).(nodes := switched);
    framesRun := RunFrames(state, effects, nodes, frames, unit, highlightEnabled);
  }

  /** How `loadModel` settles: with the parsed clips and the model's bounding-box centre, or rejected. */
  datatype LoadOutcome<A> = Loaded(clips: seq<Clip<A>>, center: Vec3) | LoadFailed

  /**
   * `initialize`, with the frame loop cut to the given frames. On a load
   * failure the rejection ends `initialize` before the static switch and the
   * loop. Once loaded, the candidates carry the switch's value and keep it
   * through every frame, and the outline never shows anything.
   */
  method Initialize<A>(highlightEnabled: bool, staticObjectsEnabled: bool, model: ModelGroup, load: LoadOutcome<A>,
                       frames: seq<FrameInput>, sphericalOf: Vec3 -> SceneInitializer.Spherical, unit: Vec3 -> Vec3)
    returns (state: InteractionState, effects: VisualEffectsContext, framesRun: nat)
    requires forall f :: f in frames ==> HitsIn(f.hits, model.nodes.Length)
    modifies model, model.nodes
    ensures fresh(state) && fresh(effects)
    ensures effects.config == DefaultConfig.(outlineEnabled := highlightEnabled)
    ensures (effects.outlinePass != null) == highlightEnabled
    ensures effects.outlinePass != null ==> effects.outlinePass.selectedObjects == []
    ensures effects.outlinePass != null ==> effects.outlinePass.Style() == StyleOf(effects.config)
    ensures load.LoadFailed? ==>
      && framesRun == 0 && model.nodes[..] == old(model.nodes[..])
      && model.position == old(model.position) && model.materials == old(model.materials)
      && state.restPositions == map[] && state.velocities == map[] && state.selected == None
    ensures load.Loaded? ==> framesRun == |frames|
    ensures load.Loaded? ==> forall i :: 0 <= i < model.nodes.Length ==>
      model.nodes[i].isStatic == WithStaticFlag(old(model.nodes[..]), staticObjectsEnabled)[i].isStatic
    ensures state.highlight == []
  {
    var camera, controls := SceneInitializer.InitializeScene(sphericalOf);
    effects := new VisualEffectsContext(PageEffectsConfig(highlightEnabled));
    state := new InteractionState();
    framesRun := 0;
    if load.LoadFailed? {
      return;
    }
    var actions := OnModelLoaded(model, load.clips, load.center, state);
    SwitchOverridesLoader(old(model.nodes[..]), staticObjectsEnabled);
    framesRun := AfterModelLoaded(state, effects, model.nodes, staticObjectsEnabled, frames, unit, highlightEnabled);
  }
}
