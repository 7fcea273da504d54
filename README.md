# ilastik: dataset selection, tracking colours and region-feature bookkeeping

A Dafny model of three pieces of domain logic from ilastik. Each runs on top of the lazyflow dataflow engine. Slots are modelled as "ready or not, plus a value"; the engine itself is not modelled.

- **Dataset selection** (`ilastik/applets/dataSelection/opDataSelection.py`)
  - `DatasetInfo` construction, which checks the axis tags against the lane shape.
  - The metadata dictionary that `get_provider_slot` injects.
  - The legacy axis-tag choice of `from_h5_group`.
  - The per-role channel names.
  - The choice of the forced output axis order: the shortest allowed order that covers every non-singleton axis, with `c` appended.
  - The reader list of `OpDataSelection`, which is cleaned up in reverse and rolled back when `setupOutputs` fails.
  - The wiring of the `Image`/`Image1`/`Image2` convenience outputs of `OpDataSelectionGroup`.
  - The lane operations of `OpMultiLaneDataSelectionGroup`:
    - `addLane` appends only.
    - `removeLane` only shrinks.
    - `pushLane` undoes itself when it fails.
    - `dropLastLane` removes the last lane.
- **Tracking base operator** (`ilastik/applets/tracking/base/opTrackingBase.py`)
  - `_setLabel2Color`: per-frame appearance, move, division and merger events become one label→colour map per frame, drawing fresh colours from a running counter. Filtered labels are then marked with colour 0.
  - `execute`: relabels or zeroes the requested frames in place, and enumerates `AllBlocks`.
  - The cache block shape.
  - `_checkConstraints`.
  - `propagateDirty` and `setInSlot`.
  - The range filter of `_generate_traxelstore`, with its `filtered_labels` and `empty_frame` bookkeeping.
- **Region-feature plugin** (`ilastik/plugins_default/vigra_objfeats.py`)
  - `cleanup_key`, `cleanup_value` and `cleanup`.
  - `find_properties`.
  - The name extension of `availableFeatures`.
  - The request splitting of `compute_global` and `compute_local`.

Files, one module each:

| file | module | contents |
|---|---|---|
| `wrappers.dfy` | `Wrappers` | `Option`, `Result`, `Outcome` |
| `builtins.dfy` | `Builtins` | `str(n)` with `int(str(n)) == n`; Python list indexing with negative indices; `min`/`max`; the substring test `sub in s` |
| `dataset_info.dfy` | `DatasetInfos` | `DatasetInfo.__init__`, `get_provider_slot` metadata, `from_h5_group` |
| `op_data_selection.dfy` | `DataSelection` | channel names, axis-order choice, class `OpDataSelection` |
| `data_selection_group.dfy` | `DataSelectionGroups` | class `OpDataSelectionGroup` (convenience outputs), class `LaneGroup` (the multi-lane wrapper) |
| `tracking_colours.dfy` | `TrackingColours` | `_setLabel2Color` as functions, with its lemmas |
| `op_tracking_base.dfy` | `Tracking` | the loops of `_setLabel2Color`, block shape, constraints, class `OpTrackingBase` |
| `traxel_filter.dfy` | `TraxelFilter` | the range filter of `_generate_traxelstore` |
| `vigra_objfeats.dfy` | `ObjFeats` | the feature-plugin functions and class `VigraObjFeats` |

Python's `dict` iteration order is part of what the code does where a later entry overwrites an earlier one, so dictionaries that are iterated are given as sequences of pairs in iteration order. The tracking operator is Python 2 code, whose dictionaries iterate in hash order; there the sequence order is an assumption, listed under "Left out".

## Model

| member | source | states |
|---|---|---|
| Builtins.ParseNatToString | ilastik/applets/tracking/base/opTrackingBase.py:171-176 | reading the decimal text of a frame number back gives the number (`int(str(n)) == n`) |
| Builtins.NatToStringInjective | ilastik/applets/tracking/base/opTrackingBase.py:171-176 | two transitions never share an event key: equal decimal texts come from equal numbers |
| Builtins.PyIndex | ilastik/applets/dataSelection/opDataSelection.py:999-1000 | a list index denotes a position iff `-len <= i < len`; a negative index counts from the end, otherwise IndexError |
| Builtins.SeqMin | ilastik/applets/tracking/base/opTrackingBase.py:277 | `min` of a non-empty list is an element no larger than any element |
| Builtins.SeqMax | ilastik/applets/tracking/base/opTrackingBase.py:277 | `max` of a non-empty list is an element no smaller than any element |
| Builtins.ContainsIff | ilastik/plugins_default/vigra_objfeats.py:96-125 | the left-to-right scan for `sub in s` succeeds exactly when `sub` occurs at some position of `s` |
| Builtins.ContainsTransitive | ilastik/plugins_default/vigra_objfeats.py:96-101 | a substring of a substring is a substring |
| Builtins.NoSpaceNoSpacedSub | ilastik/plugins_default/vigra_objfeats.py:75 | a name without spaces does not contain the neighbourhood suffix, which has one |
| Builtins.ContainsSuffix | ilastik/plugins_default/vigra_objfeats.py:72-76 | `x + suffix` contains `suffix` |
| DatasetInfos.EffectiveTags | ilastik/applets/dataSelection/opDataSelection.py:98 | `axistags or default_tags`: the given tags when they are non-empty, otherwise the default tags |
| DatasetInfos.NewDatasetInfo | ilastik/applets/dataSelection/opDataSelection.py:72-100 | construction fails with UnsuitedAxistags exactly when the effective tags and the lane shape differ in length; on success every field comes from its argument or its default; the normalisation flag defaults to "a range was given" |
| DatasetInfos.ProviderMetadataEntries | ilastik/applets/dataSelection/opDataSelection.py:114-124 | the injected metadata holds the caller's keys plus display mode, axis tags and normalisation flag; it also holds a range when the info has one or the dtype is uint8, and a subvolume when the info has one. The info's range overrides the caller's; uint8 data without a range gets (0, 255); display mode and axis tags come from the info only when the caller did not give them |
| DatasetInfos.CallerEntriesKept | ilastik/applets/dataSelection/opDataSelection.py:114-115 | every caller entry other than range, normalisation flag and subvolume reaches the injector unchanged |
| DatasetInfos.NormalizeFollowsRange | ilastik/applets/dataSelection/opDataSelection.py:96-122 | without an explicit flag, the injected `normalizeDisplay` is true exactly when a range was given |
| DatasetInfos.StoredAxistags | ilastik/applets/dataSelection/opDataSelection.py:160-164 | the stored axis tags win; only without them is the legacy axis order used |
| DatasetInfos.FromH5Group | ilastik/applets/dataSelection/opDataSelection.py:157-174 | a missing `allowLabels` or `nickname` entry is a KeyError (in that order); otherwise the result is construction with the stored entries as keyword arguments, and fails exactly as construction does |
| DataSelection.TaggedShape | ilastik/applets/dataSelection/opDataSelection.py:761 | the tagged shape has exactly the axis keys as its keys |
| DataSelection.TaggedShapeLastWins | ilastik/applets/dataSelection/opDataSelection.py:761 | each key maps to the extent at its last occurrence: a repeated key keeps its last extent, as `dict(zip(...))` does |
| DataSelection.ChannelNames | ilastik/applets/dataSelection/opDataSelection.py:740-743 | `[role]` when there is at most one channel, otherwise exactly `role-0 … role-(c-1)` |
| DataSelection.ChannelNamesDistinct | ilastik/applets/dataSelection/opDataSelection.py:740-743 | no two channel names of one role are equal |
| DataSelection.ShortestCovering | ilastik/applets/dataSelection/opDataSelection.py:766-776 | none exactly when no allowed order covers the non-singleton axes; otherwise a covering order no longer than any other covering order, and strictly shorter than every earlier one (the stable sort's tie-break) |
| DataSelection.WithChannelAxis | ilastik/applets/dataSelection/opDataSelection.py:783-784 | the output order contains `c` and keeps every axis of the order it extends |
| DataSelection.ConfigureFailure | ilastik/applets/dataSelection/opDataSelection.py:749-774 | configuration fails exactly when `x` or `y` is missing, or when a forced order was requested and none covers the non-singleton axes; the axis check comes first |
| DataSelection.ConfiguredOrder | ilastik/applets/dataSelection/opDataSelection.py:754-784 | a configured output order contains `c` and every non-singleton axis; without forced orders it is the data's own order plus `c`; with them it is a shortest covering allowed order plus `c` |
| DataSelection.ConfiguredChannelNames | ilastik/applets/dataSelection/opDataSelection.py:740-744 | the provider metadata carries the role's channel names |
| DataSelection.OpDataSelection.constructor | ilastik/applets/dataSelection/opDataSelection.py:691-725 | a new operator has no readers and its Image, AllowLabels and ImageName outputs are not ready |
| DataSelection.OpDataSelection.InternalCleanup | ilastik/applets/dataSelection/opDataSelection.py:727-732 | afterwards the reader list is empty; when there were readers, Image is disconnected and the readers were cleaned up last-first; with none, nothing changes |
| DataSelection.OpDataSelection.SetupOutputs | ilastik/applets/dataSelection/opDataSelection.py:734-800 | the old readers are cleaned up first, last first; on a failure the error is raised again after the new provider was cleaned up too, the reader list emptied and Image disconnected, and nothing else changed; on success the readers are the metadata provider and the reorderer, Image has the chosen order, AllowLabels is set, the reader's nickname (if any) replaces the dataset's, and ImageName is the nickname |
| DataSelection.ReversedCons | ilastik/applets/dataSelection/opDataSelection.py:730 | reversing `[x] + s` puts `x` last |
| DataSelectionGroups.ConvenienceLinks | ilastik/applets/dataSelection/opDataSelection.py:900-927 | with no images all five convenience outputs are disconnected; otherwise Image, ImageName and AllowLabels follow image 0; Image1 is connected (to image 1) iff there are at least 2 images, and Image2 (to image 2) iff there are at least 3 |
| DataSelectionGroups.OpDataSelectionGroup.constructor | ilastik/applets/dataSelection/opDataSelection.py:837-847 | a new group has no inner operators and no roles |
| DataSelectionGroups.OpDataSelectionGroup.SetupOutputs | ilastik/applets/dataSelection/opDataSelection.py:873-927 | the inner operators are rebuilt exactly when the role list changed; each gets its role name; iterating inner operators never built is a TypeError; the convenience outputs follow the number of images |
| DataSelectionGroups.EmptyLane | ilastik/applets/dataSelection/opDataSelection.py:958-966 | a new lane has one unset dataset slot per role |
| DataSelectionGroups.ConfiguredLane | ilastik/applets/dataSelection/opDataSelection.py:868-871 | `configure(infos)` sets exactly the roles named in `infos` and leaves the others unset |
| DataSelectionGroups.LaneGroup.constructor | ilastik/applets/dataSelection/opDataSelection.py:940-956 | the wrapper starts with no lanes and broadcasts its roles |
| DataSelectionGroups.LaneGroup.AddLane | ilastik/applets/dataSelection/opDataSelection.py:958-966 | a lane is appended only when asked for the next index, otherwise nothing changes; the returned lane is `get_lane(laneIndex)`, which is IndexError for an index outside the list |
| DataSelectionGroups.LaneGroup.RemoveTrailingLane | ilastik/applets/dataSelection/opDataSelection.py:972 | the wrapper's own removal takes off the trailing lane and refuses any other index |
| DataSelectionGroups.LaneGroup.RemoveLane | ilastik/applets/dataSelection/opDataSelection.py:968-972 | the lane count changes only when it exceeds `finalLength`, and then only the trailing lane is removed |
| DataSelectionGroups.LaneGroup.ConfigureLane | ilastik/applets/dataSelection/opDataSelection.py:868-871 | configuring a lane succeeds exactly when every given description configures its role, and then the lane holds them; on failure the error names the first role, in role order, whose description is rejected, with that setup's error, and the lane holds the descriptions of that role and the roles before it while later roles stay unset; every other lane is untouched, whether configuration succeeds or fails |
| DataSelectionGroups.LaneGroup.PushLane | ilastik/applets/dataSelection/opDataSelection.py:982-990 | succeeds exactly when the new lane configures and the workflow accepts it, and then one configured lane is appended; on failure the lanes are those before the call, and the error is the first rejected role's setup error or, when every role configures, the workflow's refusal |
| DataSelectionGroups.LaneGroup.DropLastLane | ilastik/applets/dataSelection/opDataSelection.py:992-993 | removes the last lane; with no lanes the removal of index -1 is refused |
| TrackingColours.Appear | ilastik/applets/tracking/base/opTrackingBase.py:194-199 | an appearing object gets the next fresh colour in the new frame, and the counter advances |
| TrackingColours.FreshPrev | ilastik/applets/tracking/base/opTrackingBase.py:202-215 | a source without a colour in the previous frame gets the next fresh colour there, and the counter advances |
| TrackingColours.Move | ilastik/applets/tracking/base/opTrackingBase.py:201-208 | the target gets the source's colour; the source gets a fresh colour first exactly when it had none or has already moved in this frame |
| TrackingColours.Divide | ilastik/applets/tracking/base/opTrackingBase.py:210-218 | both children get the parent's colour; the parent gets a fresh colour first exactly when it had none |
| TrackingColours.Merge | ilastik/applets/tracking/base/opTrackingBase.py:220-221 | a merger records its object count in the current merger map and changes no colour |
| TrackingColours.Frame | ilastik/applets/tracking/base/opTrackingBase.py:187-221 | each transition appends one colour map and one merger map |
| TrackingColours.Initial | ilastik/applets/tracking/base/opTrackingBase.py:159-168 | one map of each kind, plus one per frame before the start time; the counter starts at 1 |
| TrackingColours.FramesLength | ilastik/applets/tracking/base/opTrackingBase.py:170-187 | after `n` transitions there are `n` more maps of each kind |
| TrackingColours.FramesKeys | ilastik/applets/tracking/base/opTrackingBase.py:170-176 | the transitions succeed exactly when every key `"1"` … `str(n)` has events; otherwise they fail with the first missing key |
| TrackingColours.Label2ColorLength | ilastik/applets/tracking/base/opTrackingBase.py:149-248 | a successful colouring has a non-empty time range, and `1 + max(0, tmin) + (tmax - tmin)` maps of each kind, which is `time_max + 1` for a non-negative start |
| TrackingColours.Label2ColorErrors | ilastik/applets/tracking/base/opTrackingBase.py:149-238 | a missing time range is a KeyError; an empty range fails; a missing frame key fails with the first one; with a valid range and every key present, the colouring succeeds exactly when marking the filtered labels succeeds, and otherwise fails with marking's error |
| TrackingColours.FreshColourUnused | ilastik/applets/tracking/base/opTrackingBase.py:163-216 | the next fresh colour is used by no label yet |
| TrackingColours.RunAppsBounded | ilastik/applets/tracking/base/opTrackingBase.py:194-199 | appearances keep every colour below the counter and advance it by one per appearance |
| TrackingColours.MoveBounded | ilastik/applets/tracking/base/opTrackingBase.py:201-208 | a move keeps every colour a handed-out id below the counter, and never lowers the counter |
| TrackingColours.DivideBounded | ilastik/applets/tracking/base/opTrackingBase.py:210-218 | a division keeps every colour a handed-out id below the counter, and never lowers the counter |
| TrackingColours.FramesBounded | ilastik/applets/tracking/base/opTrackingBase.py:163-221 | the transitions keep every colour below the counter and never lower the counter |
| TrackingColours.MarkLabelsAddsZeros | ilastik/applets/tracking/base/opTrackingBase.py:235-238 | marking one frame adds exactly the given labels to it, each with colour 0, keeps every existing colour, and leaves every other frame unchanged |
| TrackingColours.MarkEntryAddsZeros | ilastik/applets/tracking/base/opTrackingBase.py:232-238 | an entry whose frame lies beyond the list leaves the colouring unchanged; otherwise only the frame it refers to (by Python indexing) changes, gaining exactly the entry's labels with colour 0, and every existing colour is kept |
| TrackingColours.MarkAddsZeros | ilastik/applets/tracking/base/opTrackingBase.py:232-238 | marking all entries keeps every existing colour; each frame gains exactly the labels that the entries referring to it give, each with colour 0 |
| TrackingColours.Label2ColorColours | ilastik/applets/tracking/base/opTrackingBase.py:163-238 | in the result every colour lies in `[0, next)` with `next >= 1`; every filtered label of a frame its key refers to has colour 0, and colour 0 is given to filtered labels only |
| TrackingColours.MarkLabelsFailure | ilastik/applets/tracking/base/opTrackingBase.py:235-237 | marking one frame fails exactly when a label is coloured already or repeats an earlier one, and then with AlreadyColoured for the first such label |
| TrackingColours.MarkEntryFailure | ilastik/applets/tracking/base/opTrackingBase.py:232-237 | one entry fails exactly when its frame is not beyond the list and either its index is out of range and it has a label (IndexError), or one of its labels clashes; the error is that of the first label where this happens |
| TrackingColours.MarkFailure | ilastik/applets/tracking/base/opTrackingBase.py:232-237 | marking all entries fails exactly when it stops at some label (out-of-range frame index, label coloured already, or marked before by this or an earlier entry), and then with the error of the first such label in marking order |
| Tracking.AppearLoop | ilastik/applets/tracking/base/opTrackingBase.py:194-199 | the appearance loop computes the appearance fold |
| Tracking.MoveLoop | ilastik/applets/tracking/base/opTrackingBase.py:201-208 | the move loop, with its `moves_at` list, computes the move fold |
| Tracking.DivideLoop | ilastik/applets/tracking/base/opTrackingBase.py:210-218 | the division loop computes the division fold |
| Tracking.MergerLoop | ilastik/applets/tracking/base/opTrackingBase.py:220-221 | the merger loop computes the merger fold |
| Tracking.FrameStep | ilastik/applets/tracking/base/opTrackingBase.py:187-221 | one transition's body computes the transition |
| Tracking.InitialLists | ilastik/applets/tracking/base/opTrackingBase.py:159-168 | the initial lists are the initial colouring |
| Tracking.FramesFailureSticks | ilastik/applets/tracking/base/opTrackingBase.py:170-176 | once a frame key is missing, later transitions do not change the error |
| Tracking.FrameLoop | ilastik/applets/tracking/base/opTrackingBase.py:170-221 | the loop over the time range computes the transition fold, stopping at the first missing key |
| Tracking.MarkLabelsLoop | ilastik/applets/tracking/base/opTrackingBase.py:235-238 | the inner marking loop computes the marking of one frame, failing on the first label already coloured |
| Tracking.MarkLoop | ilastik/applets/tracking/base/opTrackingBase.py:232-238 | the outer marking loop computes the marking of all entries |
| Tracking.ComputeLabel2Color | ilastik/applets/tracking/base/opTrackingBase.py:142-238 | the imperative `_setLabel2Color` computes the colouring function |
| Tracking.BlockShape | ilastik/applets/tracking/base/opTrackingBase.py:62-66 | the cache block shape is the label-image shape with the first (time) extent replaced by 1 |
| Tracking.BlankedEqual | ilastik/applets/tracking/base/opTrackingBase.py:89-91 | two tagged shapes with `c` set to None are equal exactly when the shapes agree on every axis but `c` |
| Tracking.TimeCheck | ilastik/applets/tracking/base/opTrackingBase.py:73-87 | an image passes exactly when it has a time axis with at least 2 steps; a missing axis is a KeyError |
| Tracking.CheckConstraints | ilastik/applets/tracking/base/opTrackingBase.py:72-98 | passes exactly when every ready image has at least 2 timesteps and, when both are ready, their tagged shapes agree except on `c`; raw data is checked first, then the label image, then the shapes |
| Tracking.Zeroed | ilastik/applets/tracking/base/opTrackingBase.py:113 | a zeroed frame has the shape of the original and only zeros |
| Tracking.OutputFrameCases | ilastik/applets/tracking/base/opTrackingBase.py:107-114 | frame `t` is relabelled in channel 0 (other channels kept) iff it lies within the time range and `t < len(label2color)`; otherwise it is all zeros |
| Tracking.TimeBlocksPartition | ilastik/applets/tracking/base/opTrackingBase.py:122-128 | every point of the volume lies in exactly the block of its time step, and each block lies within the volume |
| Tracking.TimeBlockIsCacheBlock | ilastik/applets/tracking/base/opTrackingBase.py:62-66 | each enumerated block has the cache block shape |
| Tracking.SetInSlot | ilastik/applets/tracking/base/opTrackingBase.py:139-140 | `setInSlot` accepts exactly the InputHdf5 slot |
| Tracking.OpTrackingBase.constructor | ilastik/applets/tracking/base/opTrackingBase.py:38-41 | a new operator has no colour maps and no merger maps, and its value inputs hold their defaults |
| Tracking.OpTrackingBase.SetLabel2Color | ilastik/applets/tracking/base/opTrackingBase.py:142-248 | with an input not ready nothing changes; a failing colouring raises and changes nothing; otherwise the colour and merger maps are replaced and the whole output is marked dirty |
| Tracking.OpTrackingBase.PropagateDirty | ilastik/applets/tracking/base/opTrackingBase.py:133-137 | a dirty label image marks the same region of the output dirty; a dirty event list recomputes the colours; other inputs change nothing |
| Tracking.OpTrackingBase.ExecuteOutput | ilastik/applets/tracking/base/opTrackingBase.py:100-114 | without parameters it raises and leaves the buffer alone; otherwise every frame of the buffer is relabelled or zeroed in place |
| Tracking.OpTrackingBase.AllBlocks | ilastik/applets/tracking/base/opTrackingBase.py:115-130 | no blocks while nothing is coloured; otherwise exactly one block per time step, the t-th spanning `[t, t+1)` on the time axis and the full extent on the others |
| Tracking.OpTrackingBase.GenerateTraxelFilter | ilastik/applets/tracking/base/opTrackingBase.py:269-461 | without parameters it raises; otherwise the time range becomes `[min, max]` of the requested steps, and the filtered labels and the empty-frame flag are those of the range filter |
| TraxelFilter.Objects | ilastik/applets/tracking/base/opTrackingBase.py:309-313 | the background row is dropped from a non-empty centre array |
| TraxelFilter.Counts | ilastik/applets/tracking/base/opTrackingBase.py:325-327 | the background entry is dropped from a non-empty count array |
| TraxelFilter.Center3 | ilastik/applets/tracking/base/opTrackingBase.py:364-371 | a centre has 2 or 3 coordinates, otherwise the frame fails; 2-D centres get `z = 0` |
| TraxelFilter.ScanObjectsCorrect | ilastik/applets/tracking/base/opTrackingBase.py:360-379 | the scan succeeds exactly when every object has a valid centre and a count; then the label `idx+1` is recorded iff the object lies outside one of its half-open ranges, labels are increasing, and passed plus filtered objects are all objects |
| TraxelFilter.GatherSucceeds | ilastik/applets/tracking/base/opTrackingBase.py:308-453 | the traxel loop succeeds exactly when every frame scans, and otherwise fails with the first failing frame's error |
| TraxelFilter.GatherEntries | ilastik/applets/tracking/base/opTrackingBase.py:446-447 | a frame's filtered labels are stored, under `t - time_range[0]`, exactly when they are non-empty |
| TraxelFilter.GatherEmptyFrame | ilastik/applets/tracking/base/opTrackingBase.py:450-451 | `empty_frame` is true iff some frame passed no object |
| TraxelFilter.GatherTotal | ilastik/applets/tracking/base/opTrackingBase.py:446-453 | for frame scans in which every object is filtered or passed, the frame loop's passed total plus its stored filtered labels is the number of objects |
| TraxelFilter.FilterAllTotal | ilastik/applets/tracking/base/opTrackingBase.py:361-453 | every object either passes or is filtered: the passed total plus the number of stored filtered labels equals the number of objects, so the total is at most that number |
| TraxelFilter.GatherKeysDistinct | ilastik/applets/tracking/base/opTrackingBase.py:446-447 | frames with distinct time steps store under distinct keys, each the offset of some frame |
| TraxelFilter.ScanFrameLoop | ilastik/applets/tracking/base/opTrackingBase.py:360-379 | the per-object loop computes the frame scan |
| TraxelFilter.ScanAll | ilastik/applets/tracking/base/opTrackingBase.py:308-379 | scanning the frames in order gives each frame's scan |
| TraxelFilter.GatherLoop | ilastik/applets/tracking/base/opTrackingBase.py:304-453 | the per-frame loop with its counters computes the gathered summary |
| TraxelFilter.FilterFrames | ilastik/applets/tracking/base/opTrackingBase.py:304-453 | the whole range filter computes its specification |
| ObjFeats.RemoveSpaces | ilastik/plugins_default/vigra_objfeats.py:28-29 | the cleaned key has no space, is no longer than the key, and keeps every other character as often as the key has it |
| ObjFeats.RemoveSpacesAppend | ilastik/plugins_default/vigra_objfeats.py:28-29 | cleaning a concatenation is concatenating the cleaned parts, so the kept characters stay in their order |
| ObjFeats.RemoveSpacesChar | ilastik/plugins_default/vigra_objfeats.py:28-29 | a single character is removed exactly when it is a space |
| ObjFeats.RemoveSpacesNoSpace | ilastik/plugins_default/vigra_objfeats.py:28-29 | a key without spaces is unchanged |
| ObjFeats.RemoveSpacesIdempotent | ilastik/plugins_default/vigra_objfeats.py:28-29 | cleaning a cleaned key changes nothing |
| ObjFeats.FilledColumn | ilastik/plugins_default/vigra_objfeats.py:38-39 | the zero column overwritten by the scalar holds the scalar in every row |
| ObjFeats.CleanupValue | ilastik/plugins_default/vigra_objfeats.py:31-50 | the imperative `cleanup_value` computes the value cleaning |
| ObjFeats.CleanValueShape | ilastik/plugins_default/vigra_objfeats.py:31-50 | a global value without exactly one element fails; so does an empty array of three or more axes, whose reshape is ambiguous; a first axis that is not `nObjects` long fails the assertion. Otherwise there are `nObjects - 1` rows without the background: the scalar repeated for global values, one-element rows for vectors, and the flattened rows otherwise |
| ObjFeats.CleanAllFailure | ilastik/plugins_default/vigra_objfeats.py:53 | cleaning all values succeeds exactly when each does; otherwise it fails with the error of the first failing value |
| ObjFeats.CleanAllKeys | ilastik/plugins_default/vigra_objfeats.py:53 | the cleaned dictionary's keys are exactly the cleaned input keys |
| ObjFeats.CleanAllLastWins | ilastik/plugins_default/vigra_objfeats.py:53 | a key that no later item shares maps to its own cleaned value (a later item with the same cleaned key wins) |
| ObjFeats.CleanupKeys | ilastik/plugins_default/vigra_objfeats.py:52-55 | the keys of `cleanup` are exactly the cleaned input keys that are requested features; it fails exactly when cleaning does |
| ObjFeats.CentralMomentIsMoment | ilastik/plugins_default/vigra_objfeats.py:96-101 | a central-moment name is also a moment name |
| ObjFeats.FindPropertiesEntries | ilastik/plugins_default/vigra_objfeats.py:85-132 | exactly the keys tooltip, advanced, displaytext and detailtext; display and detail text are the name, while `Count` gets "Size in pixels" and its fixed detail text; advanced iff the name contains `PowerSum<`, `Principal<` or `DivideByCount<`; the tooltip is the base text followed by the PCA note, exactly one of the coordinate/raw-value notes, the per-pixel note and the neighbourhood note, each when its condition holds |
| ObjFeats.CleanedNames | ilastik/plugins_default/vigra_objfeats.py:69 | the supported names without spaces have no space |
| ObjFeats.FirstWord | ilastik/plugins_default/vigra_objfeats.py:171 | `x.split(' ')[0]` is the space-free prefix of `x`, ended by a space or by the end of `x` |
| ObjFeats.FirstWordOfSpaced | ilastik/plugins_default/vigra_objfeats.py:171 | the first word of `w + " …"` is `w` when `w` has no space |
| ObjFeats.LocalRequestIsLocal | ilastik/plugins_default/vigra_objfeats.py:168-171 | `compute_local` asks the extractor for exactly the local features whose neighbourhood name was requested |
| ObjFeats.VigraObjFeats.constructor | ilastik/plugins_default/vigra_objfeats.py:65 | the dimensionality is unknown at first |
| ObjFeats.VigraObjFeats.AvailableFeatures | ilastik/plugins_default/vigra_objfeats.py:67-83 | the offered names are the cleaned supported names plus the neighbourhood names of the local ones, each with its entry |
| ObjFeats.VigraObjFeats.DescribeAll | ilastik/plugins_default/vigra_objfeats.py:73-81 | the loop over the names gives every name its entry |
| ObjFeats.VigraObjFeats.Describe | ilastik/plugins_default/vigra_objfeats.py:75-81 | one name's entry: a zero margin when it contains the suffix, then its properties |
| ObjFeats.FeatureEntryMargin | ilastik/plugins_default/vigra_objfeats.py:75-76 | an entry has a margin exactly when its name contains the neighbourhood suffix, and that margin is 0 |
| ObjFeats.VigraObjFeats.ComputeGlobal | ilastik/plugins_default/vigra_objfeats.py:149-163 | the request keeps exactly the requested names that are no neighbourhood name; ndim is 3 iff the z extent exceeds 1, else 2 |
| ObjFeats.MarginExactlyForNeighbourhood | ilastik/plugins_default/vigra_objfeats.py:69-77 | among the offered names, exactly the added neighbourhood names carry `margin = 0` |

## Left out

- The lazyflow engine is not modelled: graphs, slot connection, `OperatorWrapper`, `OpReorderAxes`, `OpMetadataInjector`, `OpCompressedCache`, dirty-notification delivery. Slots are ready flags with values. A connected output is a recorded link. Marking dirty is an appended record.
- Filesystem and file-format code of `opDataSelection.py`: path expansion and globbing, HDF5/N5 access, relative paths, UUID generation, nicknames, JSON export. These depend on the filesystem or on code not shown.
- Axis tags are modelled by their keys only. The reader's nickname (the `Image.meta.nickname` that `setupOutputs` copies) is a parameter of `SetupOutputs`.
- `removeLane` of the base multi-lane wrapper is not part of this model. `LaneGroup.RemoveTrailingLane` removes only the trailing lane and refuses any other index.
- `_setLabel2Color` with `successive_ids=False` is left out: it draws random colours.
- The `multiMove` events are left out: they index the colour list with Python wrap-around and are not among the modelled events. The `dis` events are left out because they are only printed.
- Printing, `np.median` of object sizes, and the pgmlink traxel store are left out: `_generate_traxelstore` writes every traxel to a foreign store.
- `Tracking.OpTrackingBase.GenerateTraxelFilter` models `_generate_traxelstore` with `with_div`, `with_local_centers`, `with_opt_correction`, `with_coordinate_list`, `with_classifier_prior` and `median_object_size` all off, and no `coordinate_map`. The values the `with_*` options compute feed only the traxel store. `median_object_size` is a caller's list whose first element receives the median object size, and `coordinate_map` is a caller's object that is initialised and filled with object coordinates; neither effect is modelled. Their error paths are not modelled either, although they can raise before `FilteredLabels` is set: an untrained division or object-count classifier, a missing `RegionCenter_corr`, and a coordinate list of a dimension other than 2 or 3.
- The unused `max_traxel_id_at` list and the `MergerOutput` dirtying are left out.
- `Tracking.OpTrackingBase.SetLabel2Color` marks the filtered entries in the order of the stored sequence, which `GenerateTraxelFilter` writes in frame order. The source iterates `filtered_labels.keys()` of a Python 2 dictionary, in hash order. Whether marking fails, and the colours it gives on success, are the same in every order, because a label clashes with any other occurrence for the same frame whichever comes first. Only the reported error can differ when several entries would fail.
- `TraxelFilter.FilterAll` visits the frames in the order of its sequence. The source iterates `feats.keys()`, a Python 2 dictionary, in hash order. The order decides which failing frame's error is reported and the order of the stored entries, not their contents.
- `relabel` is not part of this model. It is a function parameter of `ExecuteOutput`.
- The parameters dictionary of the tracking operator keeps only `time_range`. `_generate_traxelstore` updates the dictionary in place. The model stores the result as the new parameter value, which assumes the dictionary is the slot's own value.
- `Tracking.OpTrackingBase.AllBlocks` requires a five-axis shape, as the source's comment assumes (t, x, y, z, c).
- `Tracking.OpTrackingBase.ExecuteOutput` requires each frame to have at least one channel, which the relabelling of channel 0 needs.
- `TraxelFilter.FilterFrames` scans every frame before it folds the scans. The source stops at the first failing frame, and so does the fold, so the result is the same.
- The filtered labels are written under `str(t - time_range[0])` and read back with `int(...)`. The model carries these keys as integers, because `int(str(n)) == n`. The event keys are kept as strings.
- `ObjFeats.VigraObjFeats.DescribeAll` visits the offered names as a set. Each name's entry depends only on the name, so the order does not matter.
- Region-feature extraction (`vigra.analysis.extractRegionFeatures`, `supportedRegionFeatures`, float32 casts) is foreign and left out. The supported names and the extractor's values are inputs.
- `_do_4d` is left out: its object count comes from the extractor's result.
- `compute_local`'s bounding boxes, `max_margin`, `update_keys` and `combine_dicts` are not part of this model. Only its request splitting is modelled.
- Feature values are real numbers rather than numpy arrays of a dtype. Entry keys of `availableFeatures` (`margin`, `tooltip`, …) are an enumeration rather than strings.
- `datasetDetailedInfoTableModel.py` (a Qt table model) is left out as user-interface code. So are `watershedSegmentationSerializer.py` (a serializer wrapper) and `server.py` (HTTP routes and shell calls).
- The mismatch message of `_checkConstraints` refers to an attribute the operator lacks. The model states only that an error is raised.
