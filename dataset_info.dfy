/**
 * Dataset descriptions of the data-selection applet: construction and its
 * axis-tag check, the metadata a description hands to its data provider,
 * and reading a description back from a project-file group.
 *
 * Axis tags are modelled by their keys, one character per axis ("tzyxc").
 */
module DatasetInfos {
  import opened Wrappers

  /** Element types of lane data. Only `uint8` gets a default display range. */
  datatype Dtype = UInt8 | UInt16 | UInt32 | UInt64 | Int8 | Int16 | Int32 | Int64 | Float32 | Float64

  /** The keys of an axis-tags object, in axis order. */
  type AxisKeys = string

  /** A display range `(low, high)`. */
  datatype Range = Range(lo: real, hi: real)

  /** A sub-volume of interest: per-axis start and stop. */
  datatype Roi = Roi(start: seq<int>, stop: seq<int>)

  /** The attributes a dataset description stores. */
  datatype RawInfo = RawInfo(
    laneShape: seq<nat>,
    laneDtype: Dtype,
    defaultTags: AxisKeys,
    allowLabels: bool,
    subvolumeRoi: Option<Roi>,
    axistags: AxisKeys,
    displayMode: string,
    nickname: string,
    normalizeDisplay: bool,
    drange: Option<Range>)

  /** A constructed description: construction refuses tags that do not fit the shape. */
  type DatasetInfo = i: RawInfo | |i.axistags| == |i.laneShape|
    witness RawInfo([], UInt8, "", true, None, "", "default", "", false, None)

  datatype InfoError =
    | UnsuitedAxistags(axistags: AxisKeys, shape: seq<nat>)
    | MissingKey(key: string)

  /**
   * `axistags or default_tags`: Python's `or` falls back to the default tags
   * both when no tags are given and when the given tags are empty (falsy).
   */
  function EffectiveTags(axistags: Option<AxisKeys>, defaultTags: AxisKeys): (r: AxisKeys)
    ensures r == defaultTags || (axistags.Some? && r == axistags.value && r != [])
    ensures axistags.Some? && axistags.value != [] ==> r == axistags.value
  {
    if axistags.Some? && |axistags.value| > 0 then axistags.value else defaultTags
  }

  /** The constructor `DatasetInfo.__init__`, with the keyword defaults of the source. */
  function NewDatasetInfo(
    laneShape: seq<nat>,
    laneDtype: Dtype,
    defaultTags: AxisKeys,
    allowLabels: bool := true,
    subvolumeRoi: Option<Roi> := None,
    axistags: Option<AxisKeys> := None,
    displayMode: string := "default",
    nickname: string := "",
    normalizeDisplay: Option<bool> := None,
    drange: Option<Range> := None): (r: Result<DatasetInfo, InfoError>)
    ensures r.Failure? <==> |EffectiveTags(axistags, defaultTags)| != |laneShape|
    ensures r.Failure? ==> r.error == UnsuitedAxistags(EffectiveTags(axistags, defaultTags), laneShape)
    ensures r.Success? ==>
      && r.value.axistags == EffectiveTags(axistags, defaultTags)
      && r.value.laneShape == laneShape && r.value.laneDtype == laneDtype
      && r.value.defaultTags == defaultTags && r.value.allowLabels == allowLabels
      && r.value.subvolumeRoi == subvolumeRoi && r.value.displayMode == displayMode
      && r.value.nickname == nickname && r.value.drange == drange
    // normalizeDisplay defaults to "a display range was given"
    ensures r.Success? && normalizeDisplay.None? ==> r.value.normalizeDisplay == drange.Some?
    ensures r.Success? && normalizeDisplay.Some? ==> r.value.normalizeDisplay == normalizeDisplay.value
  {
    var tags := EffectiveTags(axistags, defaultTags);
    var normalize := if normalizeDisplay.None? then drange.Some? else normalizeDisplay.value;
    if |tags| != |laneShape| then Failure(UnsuitedAxistags(tags, laneShape))
    else Success(RawInfo(laneShape, laneDtype, defaultTags, allowLabels, subvolumeRoi, tags,
                         displayMode, nickname, normalize, drange))
  }

  // -----------------------------------------------------------------------
  // Provider metadata (get_provider_slot)

  datatype MetaValue =
    | Text(text: string)
    | Tags(keys: AxisKeys)
    | DisplayRange(range: Range)
    | Flag(flag: bool)
    | Region(roi: Roi)
    | Names(names: seq<string>)

  /** A metadata dictionary. */
  type Metadata = map<string, MetaValue>

  /**
   * The metadata injected in front of the raw provider: display mode and axis
   * tags, overridden by the caller's `meta`, then the description's display
   * range (or (0, 255) for uint8 data), normalisation flag and sub-volume.
   */
  function ProviderMetadata(info: DatasetInfo, meta: Metadata): Metadata
  {
    var base := map["display_mode" := Text(info.displayMode), "axistags" := Tags(info.axistags)] + meta;
    var withRange :=
      if info.drange.Some? then base["drange" := DisplayRange(info.drange.value)]
      else if info.laneDtype == UInt8 then base["drange" := DisplayRange(Range(0.0, 255.0))]
      else base;
    var withFlag := withRange["normalizeDisplay" := Flag(info.normalizeDisplay)];
    if info.subvolumeRoi.Some? then withFlag["subvolume_roi" := Region(info.subvolumeRoi.value)]
    else withFlag
  }

  /** The entries the metadata injection provides, and which source wins for each. */
  lemma ProviderMetadataEntries(info: DatasetInfo, meta: Metadata)
    ensures var r := ProviderMetadata(info, meta);
      && r.Keys == meta.Keys + {"display_mode", "axistags", "normalizeDisplay"}
                  + (if info.drange.Some? || info.laneDtype == UInt8 then {"drange"} else {})
                  + (if info.subvolumeRoi.Some? then {"subvolume_roi"} else {})
      && r["normalizeDisplay"] == Flag(info.normalizeDisplay)
      // the description's display range overrides the caller's
      && (info.drange.Some? ==> r["drange"] == DisplayRange(info.drange.value))
      && (info.drange.None? && info.laneDtype == UInt8 ==> r["drange"] == DisplayRange(Range(0.0, 255.0)))
      && (info.drange.None? && info.laneDtype != UInt8 && "drange" in meta ==> r["drange"] == meta["drange"])
      && (info.subvolumeRoi.Some? ==> r["subvolume_roi"] == Region(info.subvolumeRoi.value))
      // the caller's entries win over display mode and axis tags (see CallerEntriesKept)
      && ("display_mode" !in meta ==> r["display_mode"] == Text(info.displayMode))
      && ("axistags" !in meta ==> r["axistags"] == Tags(info.axistags))
  {
  }

  /** A caller's entry other than the range, the normalisation flag and the subvolume reaches the provider unchanged. */
  lemma CallerEntriesKept(info: DatasetInfo, meta: Metadata, k: string)
    requires k in meta && k != "drange" && k != "normalizeDisplay" && k != "subvolume_roi"
    ensures k in ProviderMetadata(info, meta) && ProviderMetadata(info, meta)[k] == meta[k]
  {
  }

  /** A description built without an explicit normalisation flag normalises exactly when it has a range. */
  lemma NormalizeFollowsRange(laneShape: seq<nat>, dtype: Dtype, defaultTags: AxisKeys,
                              drange: Option<Range>, meta: Metadata)
    requires NewDatasetInfo(laneShape, dtype, defaultTags, drange := drange).Success?
    ensures ProviderMetadata(NewDatasetInfo(laneShape, dtype, defaultTags, drange := drange).value, meta)
              ["normalizeDisplay"] == Flag(drange.Some?)
  {
  }

  // -----------------------------------------------------------------------
  // Reading a description back (from_h5_group)

  /**
   * The entries of a stored description group; `None` is a missing entry.
   * `axistags` holds the keys decoded from the stored JSON, `axisorder` the
   * legacy axis-order string.
   */
  datatype H5Group = H5Group(
    allowLabels: Option<bool>,
    nickname: Option<string>,
    axistags: Option<AxisKeys>,
    axisorder: Option<string>,
    subvolumeRoi: Option<Roi>,
    normalizeDisplay: Option<bool>,
    drange: Option<Range>,
    displayMode: Option<string>)

  /** The stored tags win; only without them the legacy axis order (as default tags of that order) is used. */
  function StoredAxistags(g: H5Group): (r: Option<AxisKeys>)
    ensures g.axistags.Some? ==> r == g.axistags
    ensures g.axistags.None? ==> r == g.axisorder
  {
    if g.axistags.Some? then g.axistags
    else if g.axisorder.Some? then Some(g.axisorder.value)
    else None
  }

  /**
   * `DatasetInfo.from_h5_group`: the subclass supplies shape, type and default
   * tags; the group supplies the rest. `allowLabels` and `nickname` are required.
   */
  function FromH5Group(g: H5Group, laneShape: seq<nat>, laneDtype: Dtype, defaultTags: AxisKeys)
    : (r: Result<DatasetInfo, InfoError>)
    ensures g.allowLabels.None? ==> r == Failure(MissingKey("allowLabels"))
    ensures g.allowLabels.Some? && g.nickname.None? ==> r == Failure(MissingKey("nickname"))
    ensures r.Success? <==>
      g.allowLabels.Some? && g.nickname.Some?
      && |EffectiveTags(StoredAxistags(g), defaultTags)| == |laneShape|
    ensures r.Success? ==>
      && r.value.axistags == EffectiveTags(StoredAxistags(g), defaultTags)
      && r.value.allowLabels == g.allowLabels.value && r.value.nickname == g.nickname.value
      && r.value.drange == g.drange && r.value.subvolumeRoi == g.subvolumeRoi
      && r.value.displayMode == (if g.displayMode.Some? then g.displayMode.value else "default")
      && r.value.normalizeDisplay == (if g.normalizeDisplay.Some? then g.normalizeDisplay.value else g.drange.Some?)
  {
    if g.allowLabels.None? then Failure(MissingKey("allowLabels"))
    else if g.nickname.None? then Failure(MissingKey("nickname"))
    else
      NewDatasetInfo(laneShape, laneDtype, defaultTags,
                     allowLabels := g.allowLabels.value,
                     subvolumeRoi := g.subvolumeRoi,
                     axistags := StoredAxistags(g),
                     displayMode := if g.displayMode.Some? then g.displayMode.value else "default",
                     nickname := g.nickname.value,
                     normalizeDisplay := g.normalizeDisplay,
                     drange := g.drange)
  }
}
