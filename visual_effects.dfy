/**
 * The outline effect: configuration with defaults, an outline pass that exists
 * only when the outline was enabled at setup, and the gate that decides which
 * objects the pass outlines. Rendering itself is not modelled.
 */
module VisualEffects {
  import opened Options
  import opened SceneGraph

  datatype Config = Config(
    outlineEnabled: bool,
    outlineColor: string,
    outlineThickness: real,
    outlineStrength: real,
    outlineGlow: real)

  /** `Partial<VisualEffectsConfig>`: a missing field is `None`. */
  datatype PartialConfig = PartialConfig(
    outlineEnabled: Option<bool>,
    outlineColor: Option<string>,
    outlineThickness: Option<real>,
    outlineStrength: Option<real>,
    outlineGlow: Option<real>)

  const NoChanges: PartialConfig := PartialConfig(None, None, None, None, None)

  const DefaultConfig: Config := Config(true, "#ffffff", 1.0, 3.0, 0.5)

  /** The colour of edges hidden behind other geometry, fixed at creation. */
  const HiddenEdgeColor: string := "#190a05"

  /** `setupVisualEffects`' defaulting: each field keeps its supplied value, or takes its default. */
  function WithDefaults(p: PartialConfig): (c: Config)
    ensures p.outlineEnabled.Some? ==> c.outlineEnabled == p.outlineEnabled.value
    ensures p.outlineEnabled.None? ==> c.outlineEnabled
    ensures p.outlineColor.Some? ==> c.outlineColor == p.outlineColor.value
    ensures p.outlineColor.None? ==> c.outlineColor == "#ffffff"
    ensures p.outlineThickness.Some? ==> c.outlineThickness == p.outlineThickness.value
    ensures p.outlineThickness.None? ==> c.outlineThickness == 1.0
    ensures p.outlineStrength.Some? ==> c.outlineStrength == p.outlineStrength.value
    ensures p.outlineStrength.None? ==> c.outlineStrength == 3.0
    ensures p.outlineGlow.Some? ==> c.outlineGlow == p.outlineGlow.value
    ensures p.outlineGlow.None? ==> c.outlineGlow == 0.5
  {
    Config(
      p.outlineEnabled.GetOr(true),
      p.outlineColor.GetOr("#ffffff"),
      p.outlineThickness.GetOr(1.0),
      p.outlineStrength.GetOr(3.0),
      p.outlineGlow.GetOr(0.5))
  }

  /** `Object.assign(config, partial)`: the supplied fields overwrite, the others stay. */
  function Merge(c: Config, p: PartialConfig): (r: Config)
    ensures p.outlineEnabled.Some? ==> r.outlineEnabled == p.outlineEnabled.value
    ensures p.outlineEnabled.None? ==> r.outlineEnabled == c.outlineEnabled
    ensures p.outlineColor.Some? ==> r.outlineColor == p.outlineColor.value
    ensures p.outlineColor.None? ==> r.outlineColor == c.outlineColor
    ensures p.outlineThickness.Some? ==> r.outlineThickness == p.outlineThickness.value
    ensures p.outlineThickness.None? ==> r.outlineThickness == c.outlineThickness
    ensures p.outlineStrength.Some? ==> r.outlineStrength == p.outlineStrength.value
    ensures p.outlineStrength.None? ==> r.outlineStrength == c.outlineStrength
    ensures p.outlineGlow.Some? ==> r.outlineGlow == p.outlineGlow.value
    ensures p.outlineGlow.None? ==> r.outlineGlow == c.outlineGlow
  {
    Config(
      p.outlineEnabled.GetOr(c.outlineEnabled),
      p.outlineColor.GetOr(c.outlineColor),
      p.outlineThickness.GetOr(c.outlineThickness),
      p.outlineStrength.GetOr(c.outlineStrength),
      p.outlineGlow.GetOr(c.outlineGlow))
  }

  /** Defaulting at setup is merging the supplied fields over the default configuration. */
  lemma DefaultsAreMergeOverDefault(p: PartialConfig)
    ensures WithDefaults(p) == Merge(DefaultConfig, p)
  {
  }

  /** Merging nothing changes nothing; merging the same fields twice is merging them once. */
  lemma MergeLaws(c: Config, p: PartialConfig, q: PartialConfig)
    ensures Merge(c, NoChanges) == c
    ensures Merge(Merge(c, p), p) == Merge(c, p)
    ensures (q.outlineEnabled.Some? && q.outlineColor.Some? && q.outlineThickness.Some?
             && q.outlineStrength.Some? && q.outlineGlow.Some?) ==> Merge(Merge(c, p), q) == Merge(c, q)
  {
  }

  /** How an outline pass draws: edge strength, glow, thickness and the two edge colours. */
  datatype OutlineStyle = OutlineStyle(strength: real, glow: real, thickness: real,
                                       visibleColor: string, hiddenColor: string)

  /** The style `createOutlinePass` gives a pass built from `config`. */
  function StyleOf(config: Config): OutlineStyle
  {
    OutlineStyle(config.outlineStrength, config.outlineGlow, config.outlineThickness, config.outlineColor,
                 HiddenEdgeColor)
  }

  /** The part of `OutlinePass` the effect writes. */
  class OutlinePass {
    var edgeStrength: real
    var edgeGlow: real
    var edgeThickness: real
    var visibleEdgeColor: string
    var hiddenEdgeColor: string
    var selectedObjects: seq<ObjectId>

    /** `createOutlinePass`: a pass styled from the configuration, outlining nothing yet. */
    constructor (config: Config)
      ensures edgeStrength == config.outlineStrength && edgeGlow == config.outlineGlow
      ensures edgeThickness == config.outlineThickness && visibleEdgeColor == config.outlineColor
      ensures hiddenEdgeColor == HiddenEdgeColor && selectedObjects == []
    {
      edgeStrength := config.outlineStrength;
      edgeGlow := config.outlineGlow;
      edgeThickness := config.outlineThickness;
      visibleEdgeColor := config.outlineColor;
      hiddenEdgeColor := HiddenEdgeColor;
      selectedObjects := [];
    }

    /** The pass's current style. */
    ghost function Style(): OutlineStyle
      reads this
    {
      OutlineStyle(edgeStrength, edgeGlow, edgeThickness, visibleEdgeColor, hiddenEdgeColor)
    }
  }

  /** The objects the pass outlines after `updateVisualEffects`: the list only when every gate is open. */
  function OutlinedObjects(config: Config, highlightObjects: seq<ObjectId>, enabled: bool): (r: seq<ObjectId>)
    ensures config.outlineEnabled && enabled ==> r == highlightObjects
    ensures !(config.outlineEnabled && enabled) ==> r == []
  {
    if !config.outlineEnabled || !enabled then [] else highlightObjects
  }

  /** `VisualEffectsContext`. */
  class VisualEffectsContext {
    const outlinePass: OutlinePass?
    var config: Config

    /** `setupVisualEffects`: the pass is created if and only if the resulting configuration enables it. */
    constructor (p: PartialConfig)
      ensures config == WithDefaults(p)
      ensures (outlinePass != null) == config.outlineEnabled
      ensures outlinePass != null ==> fresh(outlinePass)
      ensures outlinePass != null ==>
        && outlinePass.edgeStrength == config.outlineStrength && outlinePass.edgeGlow == config.outlineGlow
        && outlinePass.edgeThickness == config.outlineThickness && outlinePass.visibleEdgeColor == config.outlineColor
        && outlinePass.hiddenEdgeColor == HiddenEdgeColor && outlinePass.selectedObjects == []
    {
      var c := WithDefaults(p);
      var pass: OutlinePass? := null;
      if c.outlineEnabled {
        pass := new OutlinePass(c);
      }
      outlinePass := pass;
      config := c;
    }

    /**
     * `updateVisualEffects`: without a pass nothing happens; otherwise the pass
     * outlines the highlight list when the configuration and `enabled` both
     * allow it, and nothing otherwise.
     */
    method UpdateVisualEffects(highlightObjects: seq<ObjectId>, enabled: bool := true)
      modifies outlinePass
      ensures outlinePass != null ==>
        outlinePass.selectedObjects == OutlinedObjects(config, highlightObjects, enabled)
        && outlinePass.edgeStrength == old(outlinePass.edgeStrength)
        && outlinePass.edgeGlow == old(outlinePass.edgeGlow)
        && outlinePass.edgeThickness == old(outlinePass.edgeThickness)
        && outlinePass.visibleEdgeColor == old(outlinePass.visibleEdgeColor)
        && outlinePass.hiddenEdgeColor == old(outlinePass.hiddenEdgeColor)
    {
      if outlinePass == null || !config.outlineEnabled || !enabled {
        if outlinePass != null {
          outlinePass.selectedObjects := [];
        }
        return;
      }
      outlinePass.selectedObjects := highlightObjects;
    }

    /** `toggleOutlineEffect`: flips the configuration flag, but only when a pass exists. */
    method ToggleOutlineEffect(enabled: bool)
      modifies this
      ensures outlinePass != null ==> config == old(config).(outlineEnabled := enabled)
      ensures outlinePass == null ==> config == old(config)
    {
      if outlinePass != null {
        config := config.(outlineEnabled := enabled);
      }
    }

    /**
     * `updateEffectConfig`: merge the supplied fields into the configuration
     * and push only the supplied strength, glow, thickness and colour to the pass.
     */
    method UpdateEffectConfig(newConfig: PartialConfig)
      modifies this, outlinePass
      ensures config == Merge(old(config), newConfig)
      ensures outlinePass != null ==>
        outlinePass.edgeStrength == newConfig.outlineStrength.GetOr(old(outlinePass.edgeStrength))
        && outlinePass.edgeGlow == newConfig.outlineGlow.GetOr(old(outlinePass.edgeGlow))
        && outlinePass.edgeThickness == newConfig.outlineThickness.GetOr(old(outlinePass.edgeThickness))
        && outlinePass.visibleEdgeColor == newConfig.outlineColor.GetOr(old(outlinePass.visibleEdgeColor))
        && outlinePass.hiddenEdgeColor == old(outlinePass.hiddenEdgeColor)
        && outlinePass.selectedObjects == old(outlinePass.selectedObjects)
    {
      config := Config(
        newConfig.outlineEnabled.GetOr(config.outlineEnabled),
        newConfig.outlineColor.GetOr(config.outlineColor),
        newConfig.outlineThickness.GetOr(config.outlineThickness),
        newConfig.outlineStrength.GetOr(config.outlineStrength),
        newConfig.outlineGlow.GetOr(config.outlineGlow));
      if outlinePass != null {
        if newConfig.outlineStrength.Some? {
          outlinePass.edgeStrength := newConfig.outlineStrength.value;
        }
        if newConfig.outlineGlow.Some? {
          outlinePass.edgeGlow := newConfig.outlineGlow.value;
        }
        if newConfig.outlineThickness.Some? {
          outlinePass.edgeThickness := newConfig.outlineThickness.value;
        }
        if newConfig.outlineColor.Some? {
          outlinePass.visibleEdgeColor := newConfig.outlineColor.value;
        }
      }
    }
  }
}
