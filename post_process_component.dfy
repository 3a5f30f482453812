/**
 * `UCustomLensFlarePostProcessComponent`: a component that keeps its config
 * among the blendables of its owner, with its weight, while the weight is
 * positive, and takes it out otherwise. The owner's blendables are a map
 * from config to weight; the owner is a post-process volume, or an actor
 * that may carry a post-process component.
 */
module PostProcessComponent {
  import opened Common

  /** A config asset, by identity. */
  type ConfigId = nat

  type Blendables = map<ConfigId, real>

  /** `RemoveBlendable` on a settings block: every entry of the config goes; removing null changes nothing. */
  function Removed(b: Blendables, config: Option<ConfigId>): (r: Blendables)
    ensures config.Some? ==> config.value !in r
    ensures forall k :: k in r <==> k in b && config != Some(k)
    ensures forall k :: k in r ==> r[k] == b[k]
  {
    if config.Some? then b - {config.value} else b
  }

  /**
   * The blendables after `SetWeight(NewWeight)`: without a config or with a
   * weight that is not positive the config is removed, otherwise it is
   * added or updated with exactly that weight.
   */
  function AfterSetWeight(b: Blendables, config: Option<ConfigId>, weight: real): Blendables {
    if config.None? || weight <= 0.0 then Removed(b, config) else b[config.value := weight]
  }

  /** The config is among the blendables afterwards exactly when it exists and the weight is positive, and then with that weight. */
  lemma SetWeightGate(b: Blendables, config: Option<ConfigId>, weight: real)
    ensures config.Some? ==>
      (config.value in AfterSetWeight(b, config, weight) <==> weight > 0.0)
    ensures config.Some? && weight > 0.0 ==> AfterSetWeight(b, config, weight)[config.value] == weight
    ensures config.None? ==> AfterSetWeight(b, config, weight) == b
  {
  }

  /** Every other config keeps its entry and its weight. */
  lemma SetWeightKeepsOthers(b: Blendables, config: Option<ConfigId>, weight: real, k: ConfigId)
    requires config != Some(k)
    ensures k in AfterSetWeight(b, config, weight) <==> k in b
    ensures k in b ==> AfterSetWeight(b, config, weight)[k] == b[k]
  {
  }

  /** Setting the same weight twice is setting it once; the last weight set wins. */
  lemma SetWeightLastWins(b: Blendables, config: Option<ConfigId>, w1: real, w2: real)
    ensures AfterSetWeight(AfterSetWeight(b, config, w1), config, w2) == AfterSetWeight(b, config, w2)
  {
    var once := AfterSetWeight(b, config, w1);
    if config.Some? {
      var c := config.value;
      if w2 <= 0.0 {
        assert Removed(once, config) == Removed(b, config);
      } else {
        assert once[c := w2] == b[c := w2];
      }
    }
  }

  /** Deactivating after any `SetWeight` leaves the blendables as a plain removal would. */
  lemma DeactivateUndoesSetWeight(b: Blendables, config: Option<ConfigId>, weight: real)
    ensures Removed(AfterSetWeight(b, config, weight), config) == Removed(b, config)
  {
    if config.Some? && weight > 0.0 {
      assert Removed(b[config.value := weight], config) == Removed(b, config);
    }
  }

  /** The actor that owns the component: its own settings when it is a volume, else those of its post-process component, if any. */
  class Owner {
    const isPostProcessVolume: bool
    const hasPostProcessComponent: bool
    /** `APostProcessVolume::Settings` blendables. */
    var volumeBlendables: Blendables
    /** `UPostProcessComponent::Settings` blendables. */
    var componentBlendables: Blendables

    constructor(isPostProcessVolume: bool, hasPostProcessComponent: bool)
      ensures this.isPostProcessVolume == isPostProcessVolume
      ensures this.hasPostProcessComponent == hasPostProcessComponent
      ensures volumeBlendables == map[] && componentBlendables == map[]
    {
      this.isPostProcessVolume := isPostProcessVolume;
      this.hasPostProcessComponent := hasPostProcessComponent;
      volumeBlendables := map[];
      componentBlendables := map[];
    }
  }

  class LensFlarePostProcessComponent {
    const owner: Owner
    /** `CustomLensFlareConfig`: null when none is set. */
    var config: Option<ConfigId>
    var weight: real
    /** `LastUsedConfig`: the config last put into the blendables. */
    var lastUsedConfig: Option<ConfigId>
    const autoActivate: bool
    const canEverTick: bool

    /** A new component auto-activates, never ticks, and has weight 1 and no config. */
    constructor(owner: Owner)
      ensures this.owner == owner
      ensures autoActivate && !canEverTick
      ensures weight == 1.0 && config == None && lastUsedConfig == None
    {
      this.owner := owner;
      autoActivate := true;
      canEverTick := false;
      weight := 1.0;
      config := None;
      lastUsedConfig := None;
    }

    /**
     * `RemoveBlendable`: from the owner's volume settings when the owner is
     * a volume, else from its post-process component when it has one.
     */
    method RemoveBlendable(configToRemove: Option<ConfigId>)
      modifies owner
      ensures owner.isPostProcessVolume ==>
        owner.volumeBlendables == Removed(old(owner.volumeBlendables), configToRemove)
        && owner.componentBlendables == old(owner.componentBlendables)
      ensures !owner.isPostProcessVolume ==> owner.volumeBlendables == old(owner.volumeBlendables)
      ensures !owner.isPostProcessVolume && owner.hasPostProcessComponent ==>
        owner.componentBlendables == Removed(old(owner.componentBlendables), configToRemove)
      ensures !owner.isPostProcessVolume && !owner.hasPostProcessComponent ==>
        owner.componentBlendables == old(owner.componentBlendables)
    {
      if owner.isPostProcessVolume {
        owner.volumeBlendables := Removed(owner.volumeBlendables, configToRemove);
      } else if owner.hasPostProcessComponent {
        owner.componentBlendables := Removed(owner.componentBlendables, configToRemove);
      }
    }

    /**
     * `SetWeight`: stores the weight; then removes the config when there is
     * none or the weight is not positive, and otherwise records it as the
     * last used config and adds or updates it with that weight, in the
     * volume's settings before the post-process component's.
     */
    method SetWeight(newWeight: real)
      modifies this, owner
      ensures weight == newWeight && config == old(config)
      ensures lastUsedConfig == (if config.Some? && newWeight > 0.0 then config else old(lastUsedConfig))
      ensures owner.isPostProcessVolume ==>
        owner.volumeBlendables == AfterSetWeight(old(owner.volumeBlendables), config, newWeight)
        && owner.componentBlendables == old(owner.componentBlendables)
      ensures !owner.isPostProcessVolume ==> owner.volumeBlendables == old(owner.volumeBlendables)
      ensures !owner.isPostProcessVolume && owner.hasPostProcessComponent ==>
        owner.componentBlendables == AfterSetWeight(old(owner.componentBlendables), config, newWeight)
      ensures !owner.isPostProcessVolume && !owner.hasPostProcessComponent ==>
        owner.componentBlendables == old(owner.componentBlendables)
    {
      weight := newWeight;
      if config.None? || newWeight <= 0.0 {
        RemoveBlendable(config);
        return;
      }
      lastUsedConfig := config;
      if owner.isPostProcessVolume {
        owner.volumeBlendables := owner.volumeBlendables[config.value := newWeight];
      } else if owner.hasPostProcessComponent {
        owner.componentBlendables := owner.componentBlendables[config.value := newWeight];
      }
    }

    /** `Activate`: applies the stored weight again. */
    method Activate()
      modifies this, owner
      ensures weight == old(weight) && config == old(config)
      ensures lastUsedConfig == (if config.Some? && weight > 0.0 then config else old(lastUsedConfig))
      ensures owner.isPostProcessVolume ==>
        owner.volumeBlendables == AfterSetWeight(old(owner.volumeBlendables), config, weight)
        && owner.componentBlendables == old(owner.componentBlendables)
      ensures !owner.isPostProcessVolume ==> owner.volumeBlendables == old(owner.volumeBlendables)
      ensures !owner.isPostProcessVolume && owner.hasPostProcessComponent ==>
        owner.componentBlendables == AfterSetWeight(old(owner.componentBlendables), config, weight)
      ensures !owner.isPostProcessVolume && !owner.hasPostProcessComponent ==>
        owner.componentBlendables == old(owner.componentBlendables)
    {
      SetWeight(weight);
    }

    /** `Deactivate`: takes the current config out of the owner's blendables. */
    method Deactivate()
      modifies owner
      ensures owner.isPostProcessVolume ==>
        owner.volumeBlendables == Removed(old(owner.volumeBlendables), config)
        && owner.componentBlendables == old(owner.componentBlendables)
      ensures !owner.isPostProcessVolume ==> owner.volumeBlendables == old(owner.volumeBlendables)
      ensures !owner.isPostProcessVolume && owner.hasPostProcessComponent ==>
        owner.componentBlendables == Removed(old(owner.componentBlendables), config)
      ensures !owner.isPostProcessVolume && !owner.hasPostProcessComponent ==>
        owner.componentBlendables == old(owner.componentBlendables)
    {
      RemoveBlendable(config);
    }
  }
}
