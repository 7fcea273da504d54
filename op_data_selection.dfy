/**
 * The single-image data-selection operator: per-role channel names, the
 * checks and the forced axis-order choice of its configuration step, and the
 * list of internal readers it builds up and tears down again on failure.
 *
 * The provider's output is assumed to have the description's lane shape,
 * and its axis tags are the description's (nothing in the injected metadata
 * replaces them).
 */
module DataSelection {
  import opened Wrappers
  import opened Builtins
  import opened DatasetInfos

  datatype SelectionError =
    /** DatasetConstraintError: the data lacks an x or a y axis. */
    | MissingSpatialAxes
    /** DatasetConstraintError: no allowed axis order keeps every non-singleton axis. */
    | IncompatibleAxes(axes: AxisKeys, allowed: seq<string>)

  // -----------------------------------------------------------------------
  // Tagged shapes

  /** `dict(zip(keys, shape))`: a repeated key keeps its last extent. */
  function TaggedShape(keys: AxisKeys, shape: seq<nat>): (m: map<char, nat>)
    requires |keys| == |shape|
    ensures m.Keys == set i | 0 <= i < |keys| :: keys[i]
    decreases |keys|
  {
    if keys == [] then map[]
    else
      var n := |keys| - 1;
      TaggedShape(keys[..n], shape[..n])[keys[n] := shape[n]]
  }

  /** Key `keys[i]` maps to `shape[i]` when it does not occur again later. */
  lemma {:induction false} TaggedShapeLastWins(keys: AxisKeys, shape: seq<nat>, i: nat)
    requires |keys| == |shape| && i < |keys|
    requires forall j :: i < j < |keys| ==> keys[j] != keys[i]
    ensures TaggedShape(keys, shape)[keys[i]] == shape[i]
    decreases |keys|
  {
    var n := |keys| - 1;
    if i < n {
      TaggedShapeLastWins(keys[..n], shape[..n], i);
    }
  }

  /** The axes of extent greater than one. */
  function NonSingletonAxes(keys: AxisKeys, shape: seq<nat>): set<char>
    requires |keys| == |shape|
  {
    var m := TaggedShape(keys, shape);
    set k | k in m && m[k] > 1
  }

  /** The channel extent of the description's 5-D shape; a missing `c` axis counts as 1. */
  function ChannelCount(info: DatasetInfo): nat {
    var m := TaggedShape(info.axistags, info.laneShape);
    if 'c' in m then m['c'] else 1
  }

  // -----------------------------------------------------------------------
  // Channel names

  /** `[role]` for at most one channel, else `role-0`, ..., `role-(c-1)`. */
  function ChannelNames(role: string, channels: nat): (r: seq<string>)
    ensures channels <= 1 ==> r == [role]
    ensures channels > 1 ==> |r| == channels
    ensures channels > 1 ==> forall i :: 0 <= i < channels ==> r[i] == role + "-" + NatToString(i)
  {
    if channels > 1 then seq(channels, i requires 0 <= i => role + "-" + NatToString(i))
    else [role]
  }

  /** Different channels of one role never share a name. */
  lemma ChannelNamesDistinct(role: string, channels: nat, i: nat, j: nat)
    requires i < j < |ChannelNames(role, channels)|
    ensures ChannelNames(role, channels)[i] != ChannelNames(role, channels)[j]
  {
    var names := ChannelNames(role, channels);
    var p := role + "-";
    assert names[i] == p + NatToString(i) && names[j] == p + NatToString(j);
    if names[i] == names[j] {
      assert (p + NatToString(i))[|p|..] == NatToString(i);
      assert (p + NatToString(j))[|p|..] == NatToString(j);
      NatToStringInjective(i, j);
    }
  }

  // -----------------------------------------------------------------------
  // Forced axis order

  /** An allowed order is a candidate when it contains every required axis. */
  predicate Covers(order: string, axes: set<char>) {
    forall k :: k in axes ==> k in order
  }

  /**
   * `sorted(candidates, key=len)[0]`: the index of the shortest covering order,
   * the earliest one among equally short ones (the sort is stable).
   */
  function ShortestCovering(orders: seq<string>, axes: set<char>): (r: Option<nat>)
    ensures r.None? <==> forall j :: 0 <= j < |orders| ==> !Covers(orders[j], axes)
    ensures r.Some? ==> r.value < |orders| && Covers(orders[r.value], axes)
    ensures r.Some? ==> forall j :: 0 <= j < |orders| && Covers(orders[j], axes) ==>
                          |orders[r.value]| <= |orders[j]|
    ensures r.Some? ==> forall j :: 0 <= j < r.value && Covers(orders[j], axes) ==>
                          |orders[r.value]| < |orders[j]|
    decreases |orders|
  {
    if orders == [] then None
    else
      var rest := ShortestCovering(orders[1..], axes);
      assert forall j :: 1 <= j < |orders| ==> orders[j] == orders[1..][j - 1];
      if Covers(orders[0], axes) && (rest.None? || |orders[0]| <= |orders[1..][rest.value]|) then Some(0)
      else if rest.Some? then Some(rest.value + 1)
      else None
  }

  /** The order the reordering stage is given, before the channel axis is added. */
  function ForcedOrder(info: DatasetInfo, forceAxisOrder: seq<string>): Result<string, SelectionError> {
    if forceAxisOrder == [] then Success(info.axistags)
    else
      match ShortestCovering(forceAxisOrder, NonSingletonAxes(info.axistags, info.laneShape))
      case None => Failure(IncompatibleAxes(info.axistags, forceAxisOrder))
      case Some(k) => Success(forceAxisOrder[k])
  }

  function WithChannelAxis(order: string): (r: string)
    ensures 'c' in r
    ensures forall k :: k in order ==> k in r
  {
    if 'c' in order then order else order + "c"
  }

  // -----------------------------------------------------------------------
  // Configuration (setupOutputs)

  /** What a successful configuration builds: the provider's metadata and the output axis order. */
  datatype Setup = Setup(providerMeta: Metadata, outputOrder: string)

  function ChannelMeta(info: DatasetInfo, role: string): Metadata {
    map["channel_names" := Names(ChannelNames(role, ChannelCount(info)))]
  }

  /** The outcome of `setupOutputs` for description `info` under role `role`. */
  function Configure(info: DatasetInfo, role: string, forceAxisOrder: seq<string>): Result<Setup, SelectionError> {
    var meta := ProviderMetadata(info, ChannelMeta(info, role));
    if 'x' !in info.axistags || 'y' !in info.axistags then Failure(MissingSpatialAxes)
    else
      match ForcedOrder(info, forceAxisOrder)
      case Failure(e) => Failure(e)
      case Success(order) => Success(Setup(meta, WithChannelAxis(order)))
  }

  /** Configuration fails exactly for data without x or y, or when no allowed order fits. */
  lemma ConfigureFailure(info: DatasetInfo, role: string, forceAxisOrder: seq<string>)
    ensures Configure(info, role, forceAxisOrder).Failure? <==>
      || 'x' !in info.axistags || 'y' !in info.axistags
      || (forceAxisOrder != [] &&
          forall j :: 0 <= j < |forceAxisOrder| ==>
            !Covers(forceAxisOrder[j], NonSingletonAxes(info.axistags, info.laneShape)))
    ensures 'x' !in info.axistags || 'y' !in info.axistags ==>
      Configure(info, role, forceAxisOrder) == Failure(MissingSpatialAxes)
  {
  }

  /**
   * A successful configuration keeps every axis of extent greater than one,
   * always has a channel axis, and with forced orders picks the first of the
   * shortest allowed orders that keep those axes.
   */
  lemma ConfiguredOrder(info: DatasetInfo, role: string, forceAxisOrder: seq<string>)
    requires Configure(info, role, forceAxisOrder).Success?
    ensures var order := Configure(info, role, forceAxisOrder).value.outputOrder;
      && 'c' in order
      && (forall k :: k in NonSingletonAxes(info.axistags, info.laneShape) ==> k in order)
      && (forceAxisOrder == [] ==> order == WithChannelAxis(info.axistags))
      && (forceAxisOrder != [] ==>
            exists k :: 0 <= k < |forceAxisOrder| && order == WithChannelAxis(forceAxisOrder[k])
                     && Covers(forceAxisOrder[k], NonSingletonAxes(info.axistags, info.laneShape))
                     && (forall j :: 0 <= j < |forceAxisOrder| &&
                           Covers(forceAxisOrder[j], NonSingletonAxes(info.axistags, info.laneShape))
                           ==> |forceAxisOrder[k]| <= |forceAxisOrder[j]|))
  {
    var axes := NonSingletonAxes(info.axistags, info.laneShape);
    var order := Configure(info, role, forceAxisOrder).value.outputOrder;
    if forceAxisOrder == [] {
      var m := TaggedShape(info.axistags, info.laneShape);
      forall k | k in axes ensures k in order {
        assert k in m.Keys;
        var i :| 0 <= i < |info.axistags| && info.axistags[i] == k;
      }
    } else {
      var k := ShortestCovering(forceAxisOrder, axes).value;
      assert order == WithChannelAxis(forceAxisOrder[k]);
    }
  }

  /** The channel names handed to the provider (inside `Configure`'s metadata). */
  lemma ConfiguredChannelNames(info: DatasetInfo, role: string, forceAxisOrder: seq<string>)
    requires Configure(info, role, forceAxisOrder).Success?
    ensures Configure(info, role, forceAxisOrder).value.providerMeta["channel_names"]
              == Names(ChannelNames(role, ChannelCount(info)))
  {
  }

  // -----------------------------------------------------------------------
  // The operator and its internal readers

  /** An internal operator: the metadata-injecting provider, or the axis-reordering stage. */
  datatype Reader = Provider(meta: Metadata) | Reorder(order: string)

  class OpDataSelection {
    const forceAxisOrder: seq<string>
    /** The RoleName input. */
    var roleName: string
    /** The Dataset input: the description, whose nickname setup may update. */
    var dataset: DatasetInfo
    /** `_opReaders`. */
    var readers: seq<Reader>
    /** Readers whose `cleanUp` has run, in the order it ran. */
    var retired: seq<Reader>
    /** The Image output: connected to a reordering stage with this order, or disconnected. */
    var image: Option<string>
    var allowLabels: Option<bool>
    var imageName: Option<string>

    constructor (forceAxisOrder: seq<string>, roleName: string, dataset: DatasetInfo)
      ensures this.forceAxisOrder == forceAxisOrder && this.roleName == roleName && this.dataset == dataset
      ensures readers == [] && retired == [] && image.None? && allowLabels.None? && imageName.None?
    {
      this.forceAxisOrder := forceAxisOrder;
      this.roleName := roleName;
      this.dataset := dataset;
      readers := [];
      retired := [];
      image := None;
      allowLabels := None;
      imageName := None;
    }

    /** `internalCleanup`: disconnect Image and clean the readers up, last first. */
    method InternalCleanup()
      modifies this
      ensures readers == []
      ensures old(readers) == [] ==> image == old(image) && retired == old(retired)
      ensures old(readers) != [] ==> image.None? && retired == old(retired) + Reversed(old(readers))
      ensures roleName == old(roleName) && dataset == old(dataset)
      ensures allowLabels == old(allowLabels) && imageName == old(imageName)
    {
      if |readers| > 0 {
        image := None;
        var i := |readers|;
        while i > 0
          invariant 0 <= i <= |readers|
          invariant retired == old(retired) + Reversed(readers[i..])
          invariant readers == old(readers) && image.None?
          invariant roleName == old(roleName) && dataset == old(dataset)
          invariant allowLabels == old(allowLabels) && imageName == old(imageName)
        {
          ReversedCons(readers[i - 1], readers[i..]);
          assert readers[i - 1..] == [readers[i - 1]] + readers[i..];
          retired := retired + [readers[i - 1]];
          i := i - 1;
        }
        readers := [];
      }
    }

    /**
     * `setupOutputs`: on success Image is the reordered provider output and the
     * readers are the provider and the reordering stage; on any failure the
     * readers are cleaned up again and the error is passed on.
     * `readerNickname` is the nickname the reader reports in its metadata, if any.
     */
    method SetupOutputs(readerNickname: Option<string>) returns (outcome: Outcome<SelectionError>)
      modifies this
      ensures roleName == old(roleName)
      ensures match Configure(old(dataset), old(roleName), forceAxisOrder)
        case Failure(e) =>
          && outcome == Fail(e) && readers == [] && image.None? && dataset == old(dataset)
          && allowLabels == old(allowLabels) && imageName == old(imageName)
          // the old readers are cleaned up first, and the new provider on the way out
          && retired == old(retired) + Reversed(old(readers))
                        + [Provider(ProviderMetadata(old(dataset), ChannelMeta(old(dataset), old(roleName))))]
        case Success(setup) =>
          && outcome.Pass?
          && retired == old(retired) + Reversed(old(readers))
          && readers == [Provider(setup.providerMeta), Reorder(setup.outputOrder)]
          && image == Some(setup.outputOrder)
          && allowLabels == Some(old(dataset).allowLabels)
          && dataset == (if readerNickname.Some? then old(dataset).(nickname := readerNickname.value) else old(dataset))
          && imageName == Some(dataset.nickname)
    {
      InternalCleanup();
      assert Reversed<Reader>([]) == [];
      var info := dataset;
      var role := roleName;
      var meta := ProviderMetadata(info, ChannelMeta(info, role));
      readers := readers + [Provider(meta)];
      assert Reversed(readers) == [Provider(meta)] by {
        assert readers[1..] == [];
      }
      // the checks for x and y and the choice among the forced orders
      var setup := Configure(info, role, forceAxisOrder);
      if setup.Failure? {
        InternalCleanup();
        return Fail(setup.error);
      }
      var order := setup.value.outputOrder;
      readers := readers + [Reorder(order)];
      image := Some(order);
      allowLabels := Some(info.allowLabels);
      if readerNickname.Some? {
        dataset := info.(nickname := readerNickname.value);
      }
      imageName := Some(dataset.nickname);
      outcome := Pass;
    }
  }

  function Reversed<T>(s: seq<T>): (r: seq<T>)
    ensures |r| == |s|
    decreases |s|
  {
    if s == [] then [] else Reversed(s[1..]) + [s[0]]
  }

  lemma ReversedCons<T>(x: T, s: seq<T>)
    ensures Reversed([x] + s) == Reversed(s) + [x]
  {
    assert ([x] + s)[1..] == s;
  }
}
