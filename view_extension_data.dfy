/**
 * The per-view lens-flare data of a view family
 * (`FCustomLensFlareSceneViewExtensionData`), the shared `BaseConfig` that
 * seeds it, and `UCustomLensFlareConfig::OverrideBlendableSettings`, which
 * blends a config into the entry of one view. Creating an entry applies the
 * base config at full weight through `OverrideBlendableSettings`, which in
 * turn looks the entry up again: the two methods are mutually recursive, and
 * the recursion stops after one level because the entry is inserted first.
 */
module ViewExtensionData {
  import opened Common
  import opened Settings

  /** `SceneView.State`: an opaque address, used only as a map key. */
  type ViewStateKey = nat

  /** `UCustomLensFlareConfig`: an asset whose settings the blend reads and never writes. */
  class ConfigAsset {
    const settings: LensFlareSettings

    constructor(settings: LensFlareSettings)
      ensures this.settings == settings
    {
      this.settings := settings;
    }

    /**
     * `OverrideBlendableSettings(View, Weight)`: finds (creating them when
     * needed) the family's extension data and the view's entry, then moves
     * every number and colour of the entry toward this config by `Weight`
     * and takes its two texture references outright.
     */
    method OverrideBlendableSettings(view: SceneView, weight: real)
      requires view.family.Valid()
      modifies view.family, view.family.extensionData, view.family.baseConfig
      decreases if view.family.extensionData != null && view.state in view.family.extensionData.perViewData then 1 else 3
      ensures view.family.Valid()
      ensures old(view.family.extensionData) != null ==> unchanged(view.family) && unchanged(view.family.baseConfig)
      ensures old(view.family.extensionData) == null ==> fresh(view.family.extensionData)
      ensures view.family.baseConfig.asset == old(view.family.SeededBase())
      ensures view.family.extensionData.perViewData
           == old(view.family.Table())[view.state := Blend(EntryBefore(old(view.family.Table()), view.state,
                                                                      view.family.baseConfig.AssetSettings()), settings, weight)]
    {
      var data := view.family.GetOrCreateExtensionData();
      var key := data.GetOrCreateViewExtensionData(view);
      data.perViewData := data.perViewData[key := Blend(data.perViewData[key], settings, weight)];
    }
  }

  /** `BaseConfig`, the static every extension data shares, and the asset `ConfigPath` in the engine ini names. */
  class BaseConfigSlot {
    var asset: ConfigAsset?
    /** What loading `ConfigPath` yields: null when the ini has no such entry. */
    const iniConfig: ConfigAsset?

    constructor(iniConfig: ConfigAsset?)
      ensures asset == null && this.iniConfig == iniConfig
    {
      asset := null;
      this.iniConfig := iniConfig;
    }

    /** The settings of the asset `BaseConfig` holds, or nothing while it is not valid. */
    function AssetSettings(): Option<LensFlareSettings>
      reads this
    {
      if asset == null then None else Some(asset.settings)
    }
  }

  class ExtensionData {
    /** `PerViewData`: one record per view state; entries are added and never removed. */
    var perViewData: map<ViewStateKey, LensFlareSettings>
    const baseConfig: BaseConfigSlot

    /** The constructor loads `BaseConfig` from the ini only when it is not valid yet. */
    constructor(baseConfig: BaseConfigSlot)
      modifies baseConfig
      ensures perViewData == map[] && this.baseConfig == baseConfig
      ensures baseConfig.asset == (if old(baseConfig.asset) != null then old(baseConfig.asset) else baseConfig.iniConfig)
    {
      perViewData := map[];
      this.baseConfig := baseConfig;
      if baseConfig.asset == null {
        if baseConfig.iniConfig != null {
          baseConfig.asset := baseConfig.iniConfig;
        }
      }
    }

    /**
     * `GetOrCreateViewExtensionData`: the entry of the view's state. A new
     * entry starts from the record's defaults, and the base config is then
     * blended into it at weight 1 (when there is a base config; see the
     * findings). An existing entry is returned as it is.
     */
    method GetOrCreateViewExtensionData(view: SceneView) returns (key: ViewStateKey)
      requires view.family.Valid() && view.family.extensionData == this
      modifies this, view.family, baseConfig
      decreases if view.state in perViewData then 0 else 2
      ensures view.family.Valid() && view.family.extensionData == this
      ensures unchanged(view.family) && unchanged(baseConfig)
      ensures key == view.state && key in perViewData
      ensures perViewData == old(perViewData)[key := EntryBefore(old(perViewData), key, baseConfig.AssetSettings())]
      ensures old(perViewData).Keys <= perViewData.Keys
      ensures forall k :: k in old(perViewData) ==> perViewData[k] == old(perViewData)[k]
    {
      if view.state !in perViewData {
        perViewData := perViewData[view.state := DefaultPerViewData()];
        if baseConfig.asset != null {
          baseConfig.asset.OverrideBlendableSettings(view, 1.0);
        }
      }
      key := view.state;
    }

    /** `GetViewExtensionData`: the entry of the view's state, or nothing; it never inserts. */
    function GetViewExtensionData(view: SceneView): (r: Option<LensFlareSettings>)
      reads this
      ensures r.Some? <==> view.state in perViewData
      ensures r.Some? ==> r.value == perViewData[view.state]
    {
      if view.state in perViewData then Some(perViewData[view.state]) else None
    }
  }

  /** `FSceneViewFamily`, reduced to its slot for this plugin's extension data. */
  class SceneViewFamily {
    var extensionData: ExtensionData?
    const baseConfig: BaseConfigSlot

    constructor(baseConfig: BaseConfigSlot)
      ensures extensionData == null && this.baseConfig == baseConfig
    {
      extensionData := null;
      this.baseConfig := baseConfig;
    }

    /** The family's extension data shares the family's view of the `BaseConfig` static. */
    predicate Valid()
      reads this, extensionData
    {
      extensionData != null ==> extensionData.baseConfig == baseConfig
    }

    /** The per-view table, empty while there is no extension data. */
    function Table(): map<ViewStateKey, LensFlareSettings>
      reads this, extensionData
    {
      if extensionData == null then map[] else extensionData.perViewData
    }

    /** What `BaseConfig` holds once the family's extension data exists. */
    function SeededBase(): ConfigAsset?
      reads this, baseConfig
    {
      if extensionData == null && baseConfig.asset == null then baseConfig.iniConfig else baseConfig.asset
    }

    /** `GetOrCreateExtentionData`: the existing extension data, or a new one constructed on demand. */
    method GetOrCreateExtensionData() returns (data: ExtensionData)
      requires Valid()
      modifies this, baseConfig
      ensures Valid() && extensionData == data
      ensures old(extensionData) != null ==> data == old(extensionData) && unchanged(this) && unchanged(baseConfig)
      ensures old(extensionData) == null ==> fresh(data) && data.perViewData == map[]
      ensures baseConfig.asset == old(SeededBase())
    {
      if extensionData == null {
        data := new ExtensionData(baseConfig);
        extensionData := data;
      } else {
        data := extensionData;
      }
    }
  }

  /** `FSceneView`: its family and its view state. */
  class SceneView {
    const family: SceneViewFamily
    const state: ViewStateKey

    constructor(family: SceneViewFamily, state: ViewStateKey)
      ensures this.family == family && this.state == state
    {
      this.family := family;
      this.state := state;
    }
  }

  /**
   * The entry a blend starts from: the existing one, or for a new key the
   * defaults with the base config applied at full weight.
   */
  function EntryBefore(table: map<ViewStateKey, LensFlareSettings>, key: ViewStateKey,
                       base: Option<LensFlareSettings>): (e: LensFlareSettings)
    ensures key in table ==> e == table[key]
    ensures key !in table ==> e == SeededEntry(base)
  {
    if key in table then table[key] else SeededEntry(base)
  }

  /**
   * A new entry right after `GetOrCreateViewExtensionData`: the defaults
   * blended with the base config at weight 1, which is the base config
   * itself; the defaults when there is no base config.
   */
  function SeededEntry(base: Option<LensFlareSettings>): (e: LensFlareSettings)
    ensures base.Some? ==> e == base.value
    ensures base.None? ==> e == DefaultPerViewData()
  {
    if base.Some? then Blend(DefaultPerViewData(), base.value, 1.0) else DefaultPerViewData()
  }

  // ---------------------------------------------------------------------
  // GetOrCreateViewExtensionData as written: BaseConfig dereferenced unchecked
  // ---------------------------------------------------------------------

  /** What a call comes to: a value, or a dereference of null. */
  datatype Outcome<T> = Returned(value: T) | NullDereference

  /**
   * The table after `GetOrCreateViewExtensionData` exactly as written: a
   * new key calls `BaseConfig->OverrideBlendableSettings` whether or not
   * `BaseConfig` holds anything.
   */
  function GetOrCreateAsWritten(table: map<ViewStateKey, LensFlareSettings>, key: ViewStateKey,
                                base: Option<LensFlareSettings>): (r: Outcome<map<ViewStateKey, LensFlareSettings>>)
    ensures r == NullDereference <==> key !in table && base.None?
  {
    if key in table then Returned(table)
    else if base.None? then NullDereference
    else Returned(table[key := Blend(DefaultPerViewData(), base.value, 1.0)])
  }

  /**
   * The guarded lookup the methods above implement differs from the code as
   * written only where the code dereferences null: with a base config, or
   * for a key already present, both give the same table.
   */
  lemma GuardedAgreesWithAsWritten(table: map<ViewStateKey, LensFlareSettings>, key: ViewStateKey,
                                   base: Option<LensFlareSettings>)
    ensures GetOrCreateAsWritten(table, key, base) != NullDereference
        ==> GetOrCreateAsWritten(table, key, base) == Returned(table[key := EntryBefore(table, key, base)])
  {
    if key in table {
      assert table[key := table[key]] == table;
    }
  }

  /**
   * When the engine ini has no `ConfigPath`, the extension data is still
   * constructed, with no base config; its first lookup of any view, as
   * written, dereferences the null `BaseConfig`.
   */
  method MissingConfigPath(key: ViewStateKey) returns (data: ExtensionData)
    ensures data.baseConfig.AssetSettings() == None && data.perViewData == map[]
    ensures GetOrCreateAsWritten(data.perViewData, key, data.baseConfig.AssetSettings()) == NullDereference
  {
    var slot := new BaseConfigSlot(null);
    data := new ExtensionData(slot);
  }
}
