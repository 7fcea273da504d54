/**
 * The tracking base operator: cache block shape, the dataset constraint
 * check, its two computed outputs (the relabelled label image and the list
 * of per-timestep blocks), dirty propagation, the colour assignment
 * `_setLabel2Color` run as the loops it is, and the filter bookkeeping of
 * `_generate_traxelstore`.
 *
 * The slots of the dataflow graph are modelled as "ready or not, plus a
 * value" (`Option`); the graph itself is not modelled.
 */
module Tracking {
  import opened Wrappers
  import opened Builtins
  import opened DatasetInfos
  import opened TrackingColours
  import opened TraxelFilter

  // -----------------------------------------------------------------------
  // The loops of `_setLabel2Color` (with successive ids)

  /** `for e in app`: each appearing id gets the next fresh colour in the newest frame. */
  method AppearLoop(c: Colouring, app: seq<int>) returns (r: Colouring)
    requires Opened(c)
    ensures r == RunApps(c, app)
  {
    var label2color := c.l2c;
    var maxId := c.next;
    var cur := |label2color| - 1;
    var j := 0;
    while j < |app|
      invariant 0 <= j <= |app| && |label2color| == |c.l2c|
      invariant c.(l2c := label2color, next := maxId) == RunApps(c, app[..j])
    {
      label2color := label2color[cur := label2color[cur][app[j] := maxId]];
      maxId := maxId + 1;
      assert app[..j + 1][..j] == app[..j];
      j := j + 1;
    }
    assert app[..j] == app;
    return c.(l2c := label2color, next := maxId);
  }

  /**
   * `for e in mov`: a source without a colour in the previous frame, or one
   * that already moved in this frame, first gets a fresh colour there; the
   * target inherits the source's colour.
   */
  method MoveLoop(c: Colouring, mov: seq<(int, int)>) returns (r: Colouring)
    requires Opened(c)
    ensures r == RunMoves(c, mov)
  {
    var label2color := c.l2c;
    var movesAt := c.movesAt;
    var maxId := c.next;
    var prev := |label2color| - 2;
    var cur := |label2color| - 1;
    var j := 0;
    while j < |mov|
      invariant 0 <= j <= |mov| && |label2color| == |c.l2c|
      invariant Colouring(label2color, c.mergers, movesAt, maxId) == RunMoves(c, mov[..j])
    {
      var e := mov[j];
      if e.0 !in label2color[prev] || e.0 in movesAt {
        label2color := label2color[prev := label2color[prev][e.0 := maxId]];
        maxId := maxId + 1;
      }
      label2color := label2color[cur := label2color[cur][e.1 := label2color[prev][e.0]]];
      movesAt := movesAt + [e.0];
      assert mov[..j + 1][..j] == mov[..j];
      j := j + 1;
    }
    assert mov[..j] == mov;
    return Colouring(label2color, c.mergers, movesAt, maxId);
  }

  /** `for e in div`: a parent without a colour gets a fresh one; both children inherit it. */
  method DivideLoop(c: Colouring, div: seq<(int, int, int)>) returns (r: Colouring)
    requires Opened(c)
    ensures r == RunDivs(c, div)
  {
    var label2color := c.l2c;
    var maxId := c.next;
    var prev := |label2color| - 2;
    var cur := |label2color| - 1;
    var j := 0;
    while j < |div|
      invariant 0 <= j <= |div| && |label2color| == |c.l2c|
      invariant c.(l2c := label2color, next := maxId) == RunDivs(c, div[..j])
    {
      var e := div[j];
      if e.0 !in label2color[prev] {
        label2color := label2color[prev := label2color[prev][e.0 := maxId]];
        maxId := maxId + 1;
      }
      var ancestorColor := label2color[prev][e.0];
      label2color := label2color[cur := label2color[cur][e.1 := ancestorColor][e.2 := ancestorColor]];
      assert div[..j + 1][..j] == div[..j];
      j := j + 1;
    }
    assert div[..j] == div;
    return c.(l2c := label2color, next := maxId);
  }

  /** `for e in merger`: the newest merger map records each merger's object count. */
  method MergerLoop(c: Colouring, merger: seq<(int, int)>) returns (r: Colouring)
    requires Opened(c)
    ensures r == RunMergers(c, merger)
  {
    var mergers := c.mergers;
    var cur := |mergers| - 1;
    var j := 0;
    while j < |merger|
      invariant 0 <= j <= |merger| && |mergers| == |c.mergers|
      invariant c.(mergers := mergers) == RunMergers(c, merger[..j])
    {
      var e := merger[j];
      mergers := mergers[cur := mergers[cur][e.0 := e.1]];
      assert merger[..j + 1][..j] == merger[..j];
      j := j + 1;
    }
    assert merger[..j] == merger;
    return c.(mergers := mergers);
  }

  /** One pass of the frame loop: new empty maps, then the four event loops in order. */
  method FrameStep(c: Colouring, ev: FrameEvents) returns (r: Colouring)
    requires |c.l2c| >= 1
    ensures r == Frame(c, ev)
  {
    r := Colouring(c.l2c + [map[]], c.mergers + [map[]], [], c.next);
    r := AppearLoop(r, ev.app);
    r := MoveLoop(r, ev.mov);
    r := DivideLoop(r, ev.div);
    r := MergerLoop(r, ev.merger);
  }

  /** The lists before the frame loop: one empty map, and one more per frame before the start time. */
  method InitialLists(tmin: int) returns (c: Colouring)
    ensures c == Initial(tmin)
  {
    var label2color: seq<map<int, int>> := [map[]];
    var mergers: seq<map<int, int>> := [map[]];
    var i := 0;
    while i < tmin
      invariant 0 <= i <= Max0(tmin)
      invariant label2color == seq(i + 1, _ => map[]) && mergers == seq(i + 1, _ => map[])
    {
      label2color := label2color + [map[]];
      mergers := mergers + [map[]];
      i := i + 1;
    }
    return Colouring(label2color, mergers, [], 1);
  }

  /** Once the frame loop fails, the rest of it fails with the same error. */
  lemma {:induction false} FramesFailureSticks(c0: Colouring, events: map<string, FrameEvents>, j: nat, k: nat)
    requires |c0.l2c| >= 1 && j <= k
    requires Frames(c0, events, j).Failure?
    ensures Frames(c0, events, k) == Frames(c0, events, j)
    decreases k
  {
    if k > j {
      FramesFailureSticks(c0, events, j, k - 1);
    }
  }

  /** A missing key for the transition after the first `done` stops the whole fold with that key. */
  lemma FramesMissingKey(c0: Colouring, events: map<string, FrameEvents>, done: nat, n: nat, c: Colouring)
    requires |c0.l2c| >= 1 && done < n && NatToString(done + 1) !in events
    requires Frames(c0, events, done) == Success(c)
    ensures Frames(c0, events, n) == Failure(MissingFrameEvents(NatToString(done + 1)))
  {
    FramesFailureSticks(c0, events, done + 1, n);
  }

  /** The transition after the first `done`, run on the lists they produced. */
  method Transition(c0: Colouring, events: map<string, FrameEvents>, ghost done: nat, key: string, c: Colouring)
    returns (next: Colouring)
    requires |c0.l2c| >= 1 && key == NatToString(done + 1) && key in events
    requires Frames(c0, events, done) == Success(c)
    ensures Frames(c0, events, done + 1) == Success(next)
  {
    next := FrameStep(c, events[key]);
  }

  /**
   * `for i in time_range`: the events of transition `i` are looked up under
   * `str(i - time_min + 1)`; a missing key stops the loop.
   */
  method FrameLoop(c0: Colouring, events: map<string, FrameEvents>, tmin: int, tmax: int)
    returns (r: Result<Colouring, TrackingError>)
    requires |c0.l2c| >= 1 && tmin < tmax
    ensures r == Frames(c0, events, tmax - tmin)
  {
    var c := c0;
    var i := tmin;
    ghost var done: nat := 0;
    while i < tmax
      invariant tmin <= i <= tmax && done == i - tmin
      invariant Frames(c0, events, done) == Success(c)
    {
      var k: nat := i - tmin + 1;
      assert k == done + 1;
      var key := NatToString(k);
      if key !in events {
        FramesMissingKey(c0, events, done, tmax - tmin, c);
        return Failure(MissingFrameEvents(key));
      }
      c := Transition(c0, events, done, key, c);
      i := i + 1;
      done := done + 1;
    }
    return Success(c);
  }

  /** Once marking fails on a prefix of the labels, it fails with the same error. */
  lemma {:induction false} MarkLabelsFailureSticks(l2c: seq<map<int, int>>, frame: nat, labels: seq<int>, j: nat, k: nat)
    requires frame < |l2c| && j <= k <= |labels|
    requires MarkLabels(l2c, frame, labels[..j]).Failure?
    ensures MarkLabels(l2c, frame, labels[..k]) == MarkLabels(l2c, frame, labels[..j])
    decreases k
  {
    if k > j {
      MarkLabelsFailureSticks(l2c, frame, labels, j, k - 1);
      assert labels[..k][..k - 1] == labels[..k - 1];
    }
  }

  /** Once marking fails on a prefix of the entries, it fails with the same error. */
  lemma {:induction false} MarkFailureSticks(l2c: seq<map<int, int>>, filtered: seq<(int, seq<int>)>, tmin: int,
                                             j: nat, k: nat)
    requires j <= k <= |filtered|
    requires Mark(l2c, filtered[..j], tmin).Failure?
    ensures Mark(l2c, filtered[..k], tmin) == Mark(l2c, filtered[..j], tmin)
    decreases k
  {
    if k > j {
      MarkFailureSticks(l2c, filtered, tmin, j, k - 1);
      assert filtered[..k][..k - 1] == filtered[..k - 1];
    }
  }

  /** `for l in fl_at`: each filtered id must be uncoloured, and gets colour 0. */
  method MarkLabelsLoop(l2c: seq<map<int, int>>, frame: nat, labels: seq<int>)
    returns (r: Result<seq<map<int, int>>, TrackingError>)
    requires frame < |l2c|
    ensures r == MarkLabels(l2c, frame, labels)
  {
    var label2color := l2c;
    var j := 0;
    while j < |labels|
      invariant 0 <= j <= |labels| && |label2color| == |l2c|
      invariant MarkLabels(l2c, frame, labels[..j]) == Success(label2color)
    {
      var l := labels[j];
      assert labels[..j + 1][..j] == labels[..j];
      if l in label2color[frame] {
        MarkLabelsFailureSticks(l2c, frame, labels, j + 1, |labels|);
        assert labels[..|labels|] == labels;
        return Failure(AlreadyColoured(frame, l));
      }
      label2color := label2color[frame := label2color[frame][l := 0]];
      j := j + 1;
    }
    assert labels[..j] == labels;
    return Success(label2color);
  }

  /** `for i in filtered_labels.keys()`: marking the filtered objects of every stored frame. */
  method MarkLoop(l2c: seq<map<int, int>>, filtered: seq<(int, seq<int>)>, tmin: int)
    returns (r: Result<seq<map<int, int>>, TrackingError>)
    ensures r == Mark(l2c, filtered, tmin)
  {
    var label2color := l2c;
    var j := 0;
    while j < |filtered|
      invariant 0 <= j <= |filtered| && |label2color| == |l2c|
      invariant Mark(l2c, filtered[..j], tmin) == Success(label2color)
    {
      var key := filtered[j].0;
      var labels := filtered[j].1;
      assert filtered[..j + 1][..j] == filtered[..j];
      var f := key + tmin;
      if f < |label2color| {
        var frame := PyIndex(|label2color|, f);
        if frame.None? {
          if labels != [] {
            MarkFailureSticks(l2c, filtered, tmin, j + 1, |filtered|);
            assert filtered[..|filtered|] == filtered;
            return Failure(FilteredFrameOutOfRange(key));
          }
        } else {
          var marked := MarkLabelsLoop(label2color, frame.value, labels);
          if marked.Failure? {
            MarkFailureSticks(l2c, filtered, tmin, j + 1, |filtered|);
            assert filtered[..|filtered|] == filtered;
            return Failure(marked.error);
          }
          label2color := marked.value;
        }
      }
      j := j + 1;
    }
    assert filtered[..j] == filtered;
    return Success(label2color);
  }

  /** The body of `_setLabel2Color` once its three inputs are ready. */
  method ComputeLabel2Color(events: map<string, FrameEvents>, params: Params, filtered: seq<(int, seq<int>)>)
    returns (r: Result<Colouring, TrackingError>)
    ensures r == Label2Color(events, params.timeRange, filtered)
  {
    if params.timeRange.None? {
      return Failure(MissingTimeRange);
    }
    var (tmin, tmax) := params.timeRange.value;
    if tmax <= tmin {
      return Failure(EmptyTimeRange);
    }
    var c := InitialLists(tmin);
    var framed := FrameLoop(c, events, tmin, tmax);
    if framed.Failure? {
      return Failure(framed.error);
    }
    c := framed.value;
    var marked := MarkLoop(c.l2c, filtered, tmin);
    if marked.Failure? {
      return Failure(marked.error);
    }
    return Success(c.(l2c := marked.value));
  }

  // -----------------------------------------------------------------------
  // Cache block shape (setupOutputs)

  /** The cache's block shape: the label image's shape with the time extent replaced by 1; an empty shape is an IndexError. */
  function BlockShape(shape: seq<nat>): (r: Option<seq<nat>>)
    ensures r.None? <==> shape == []
    ensures r.Some? ==> |r.value| == |shape| && r.value[0] == 1 && r.value[1..] == shape[1..]
  {
    if shape == [] then None else Some([1] + shape[1..])
  }

  // -----------------------------------------------------------------------
  // Dataset constraints (_checkConstraints)

  /** A tagged shape: axis key -> extent. */
  type TaggedShape = map<char, nat>

  datatype Image = RawImage | LabelImage

  datatype ConstraintError =
    /** KeyError: the image has no time axis. */
    | MissingTimeAxis(image: Image)
    /** DatasetConstraintError: fewer than 2 timesteps. */
    | TooFewTimesteps(image: Image)
    /** DatasetConstraintError: raw and label image differ in more than the channel axis. */
    | ShapeMismatch

  /** The check's copy of a tagged shape with the channel entry set to `None`. */
  function Blanked(m: TaggedShape): map<char, Option<nat>> {
    map k | k in m.Keys + {'c'} :: if k == 'c' then None else Some(m[k])
  }

  /** Blanking the channel makes two shapes equal exactly when they agree on every other axis. */
  lemma BlankedEqual(a: TaggedShape, b: TaggedShape)
    ensures Blanked(a) == Blanked(b) <==> a - {'c'} == b - {'c'}
  {
    if Blanked(a) == Blanked(b) {
      forall k | k in a - {'c'} ensures k in b - {'c'} && a[k] == b[k] {
        assert k in Blanked(a) && Blanked(a)[k] == Some(a[k]);
      }
      forall k | k in b - {'c'} ensures k in a - {'c'} {
        assert k in Blanked(b);
      }
    }
    if a - {'c'} == b - {'c'} {
      forall k | k in Blanked(a) ensures k in Blanked(b) && Blanked(a)[k] == Blanked(b)[k] {
        if k != 'c' {
          assert k in a - {'c'};
        }
      }
      forall k | k in Blanked(b) ensures k in Blanked(a) {
        if k != 'c' {
          assert k in b - {'c'};
        }
      }
    }
  }

  predicate HasTimesteps(m: TaggedShape) { 't' in m && m['t'] >= 2 }

  /** The time-axis check of one image. */
  function TimeCheck(m: TaggedShape, image: Image): (r: Outcome<ConstraintError>)
    ensures r.Pass? <==> HasTimesteps(m)
    ensures 't' !in m ==> r == Fail(MissingTimeAxis(image))
    ensures 't' in m && m['t'] < 2 ==> r == Fail(TooFewTimesteps(image))
  {
    if 't' !in m then Fail(MissingTimeAxis(image))
    else if m['t'] < 2 then Fail(TooFewTimesteps(image))
    else Pass
  }

  /** `_checkConstraints`, given the tagged shapes of the ready images: raw image first, then label image, then both. */
  function CheckConstraints(raw: Option<TaggedShape>, seg: Option<TaggedShape>): (r: Outcome<ConstraintError>)
    ensures r.Pass? <==>
      && (raw.Some? ==> HasTimesteps(raw.value))
      && (seg.Some? ==> HasTimesteps(seg.value))
      && (raw.Some? && seg.Some? ==> raw.value - {'c'} == seg.value - {'c'})
    ensures raw.Some? && !HasTimesteps(raw.value) ==> r == TimeCheck(raw.value, RawImage)
    ensures (raw.Some? ==> HasTimesteps(raw.value)) && seg.Some? && !HasTimesteps(seg.value) ==>
              r == TimeCheck(seg.value, LabelImage)
    ensures r.Fail? && raw.Some? && seg.Some? && HasTimesteps(raw.value) && HasTimesteps(seg.value) ==>
              r.error == ShapeMismatch
  {
    if raw.Some? && TimeCheck(raw.value, RawImage).Fail? then TimeCheck(raw.value, RawImage)
    else if seg.Some? && TimeCheck(seg.value, LabelImage).Fail? then TimeCheck(seg.value, LabelImage)
    else if raw.Some? && seg.Some? then
      BlankedEqual(raw.value, seg.value);
      if Blanked(raw.value) != Blanked(seg.value) then Fail(ShapeMismatch) else Pass
    else Pass
  }

  // -----------------------------------------------------------------------
  // The Output request (execute, slot Output)

  /** One timestep of the label image: per channel, its voxels in order. */
  type Volume = seq<seq<int>>

  /** Timestep `t` is relabelled when it lies in the parameters' time range and has a colour map. */
  predicate Shown(params: Params, colourMaps: nat, t: int) {
    params.timeRange.Some? && params.timeRange.value.0 <= t <= params.timeRange.value.1 && t < colourMaps
  }

  /** A volume of zeros of the same shape. */
  function Zeroed(v: Volume): (r: Volume)
    ensures |r| == |v| && forall c :: 0 <= c < |v| ==> |r[c]| == |v[c]|
    ensures forall c, i :: 0 <= c < |r| && 0 <= i < |r[c]| ==> r[c][i] == 0
  {
    seq(|v|, c requires 0 <= c < |v| => seq(|v[c]|, _ => 0))
  }

  /** What the Output request returns for timestep `t`, read as `v` from the label image. */
  function OutputFrame(v: Volume, t: nat, params: Params, l2c: seq<map<int, int>>,
                       relabel: (seq<int>, map<int, int>) -> seq<int>): Volume
    requires |v| >= 1
  {
    if Shown(params, |l2c|, t) then v[0 := relabel(v[0], l2c[t])] else Zeroed(v)
  }

  /**
   * A shown timestep has its first channel relabelled by its colour map and
   * keeps its other channels; any other timestep is all zeros, with its shape.
   */
  lemma OutputFrameCases(v: Volume, t: nat, params: Params, l2c: seq<map<int, int>>,
                         relabel: (seq<int>, map<int, int>) -> seq<int>)
    requires |v| >= 1
    ensures var r := OutputFrame(v, t, params, l2c, relabel);
      && |r| == |v|
      && (Shown(params, |l2c|, t) ==>
            t < |l2c| && r[0] == relabel(v[0], l2c[t]) && forall c :: 1 <= c < |v| ==> r[c] == v[c])
      && (!Shown(params, |l2c|, t) ==> r == Zeroed(v))
  {
  }

  // -----------------------------------------------------------------------
  // Blocks (execute, slot AllBlocks)

  /** The block of timestep `t`: `[t, t+1)` on the time axis, the full extent on the others. */
  function TimeBlock(shape: seq<nat>, t: nat): (r: Roi)
    requires |shape| == 5
  {
    Roi([t, 0, 0, 0, 0], [t + 1, shape[1], shape[2], shape[3], shape[4]])
  }

  predicate InRoi(p: seq<int>, roi: Roi) {
    |p| == |roi.start| == |roi.stop| && forall i :: 0 <= i < |p| ==> roi.start[i] <= p[i] < roi.stop[i]
  }

  predicate InVolume(p: seq<int>, shape: seq<nat>) {
    |p| == |shape| && forall i :: 0 <= i < |p| ==> 0 <= p[i] < shape[i]
  }

  /** The blocks partition the volume: each point lies in the block of its own timestep and in no other. */
  lemma TimeBlocksPartition(shape: seq<nat>, p: seq<int>, t: nat)
    requires |shape| == 5
    ensures InVolume(p, shape) ==> (InRoi(p, TimeBlock(shape, t)) <==> t == p[0])
    ensures InRoi(p, TimeBlock(shape, t)) && t < shape[0] ==> InVolume(p, shape)
  {
  }

  /** Each block has exactly the cache's block shape. */
  lemma TimeBlockIsCacheBlock(shape: seq<nat>, t: nat)
    requires |shape| == 5
    ensures var b := TimeBlock(shape, t);
      && BlockShape(shape).Some? && |b.start| == |b.stop| == |BlockShape(shape).value|
      && forall i :: 0 <= i < 5 ==> b.stop[i] - b.start[i] == BlockShape(shape).value[i]
  {
  }

  // -----------------------------------------------------------------------
  // The operator

  /** The input slots of the operator. */
  datatype Slot = LabelImageSlot | ObjectFeatures | EventsVector | FilteredLabels | RawImageSlot | Parameters | InputHdf5

  /** A dirty notification the operator sends on its Output. */
  datatype DirtyNote = OutputRegion(roi: Roi) | WholeOutput

  datatype SlotError = InvalidSetInSlot(slot: Slot)

  /** `setInSlot` accepts only the project-file input. */
  function SetInSlot(slot: Slot): (r: Outcome<SlotError>)
    ensures r.Pass? <==> slot == InputHdf5
    ensures r.Fail? ==> r.error == InvalidSetInSlot(slot)
  {
    if slot == InputHdf5 then Pass else Fail(InvalidSetInSlot(slot))
  }

  datatype TraxelError =
    | ParametersNotReady
    /** ValueError: `min` of an empty time range. */
    | NoTimesteps
    | BadFrame(cause: FilterError)

  class OpTrackingBase {
    var label2color: seq<map<int, int>>
    var mergers: seq<map<int, int>>
    /** The EventsVector, Parameters and FilteredLabels slots; `None` is not ready. */
    var events: Option<map<string, FrameEvents>>
    var parameters: Option<Params>
    var filteredLabels: Option<seq<(int, seq<int>)>>
    /** The dirty notifications sent on Output so far. */
    var dirtied: seq<DirtyNote>

    /** The slots start with their default values `{}`; no colours yet. */
    constructor ()
      ensures label2color == [] && mergers == [] && dirtied == []
      ensures events == Some(map[]) && parameters == Some(Params(None)) && filteredLabels == Some([])
    {
      label2color := [];
      mergers := [];
      events := Some(map[]);
      parameters := Some(Params(None));
      filteredLabels := Some([]);
      dirtied := [];
    }

    /** What `_setLabel2Color` would compute now: nothing while an input is not ready. */
    function Pending(): Option<Result<Colouring, TrackingError>>
      reads this
    {
      if events.None? || parameters.None? || filteredLabels.None? then None
      else Some(Label2Color(events.value, parameters.value.timeRange, filteredLabels.value))
    }

    /**
     * `_setLabel2Color`: with an input not ready, nothing happens; an error
     * changes nothing; otherwise both lists are replaced and the whole
     * Output is made dirty.
     */
    method SetLabel2Color() returns (outcome: Outcome<TrackingError>)
      modifies this
      ensures old(Pending()).None? ==> outcome.Pass? && unchanged(this)
      ensures old(Pending()).Some? && old(Pending()).value.Failure? ==>
                outcome == Fail(old(Pending()).value.error) && unchanged(this)
      ensures old(Pending()).Some? && old(Pending()).value.Success? ==>
                && outcome.Pass?
                && label2color == old(Pending()).value.value.l2c
                && mergers == old(Pending()).value.value.mergers
                && dirtied == old(dirtied) + [WholeOutput]
                && events == old(events) && parameters == old(parameters) && filteredLabels == old(filteredLabels)
    {
      if events.None? || parameters.None? || filteredLabels.None? {
        return Pass;
      }
      var r := ComputeLabel2Color(events.value, parameters.value, filteredLabels.value);
      if r.Failure? {
        return Fail(r.error);
      }
      label2color := r.value.l2c;
      mergers := r.value.mergers;
      dirtied := dirtied + [WholeOutput];
      return Pass;
    }

    /** `propagateDirty`: label-image changes dirty the same region of Output; new events recolour. */
    method PropagateDirty(slot: Slot, roi: Roi) returns (outcome: Outcome<TrackingError>)
      modifies this
      ensures slot == LabelImageSlot ==>
                && outcome.Pass? && dirtied == old(dirtied) + [OutputRegion(roi)]
                && label2color == old(label2color) && mergers == old(mergers)
                && events == old(events) && parameters == old(parameters) && filteredLabels == old(filteredLabels)
      ensures slot == EventsVector && old(Pending()).None? ==> outcome.Pass? && unchanged(this)
      ensures slot == EventsVector && old(Pending()).Some? && old(Pending()).value.Failure? ==>
                outcome == Fail(old(Pending()).value.error) && unchanged(this)
      ensures slot == EventsVector && old(Pending()).Some? && old(Pending()).value.Success? ==>
                && outcome.Pass?
                && label2color == old(Pending()).value.value.l2c
                && mergers == old(Pending()).value.value.mergers
                && dirtied == old(dirtied) + [WholeOutput]
                && events == old(events) && parameters == old(parameters) && filteredLabels == old(filteredLabels)
      ensures slot != LabelImageSlot && slot != EventsVector ==> outcome.Pass? && unchanged(this)
    {
      if slot == LabelImageSlot {
        dirtied := dirtied + [OutputRegion(roi)];
        return Pass;
      } else if slot == EventsVector {
        outcome := SetLabel2Color();
      } else {
        return Pass;
      }
    }

    /**
     * The Output request for timesteps `tStart ..` that `data` holds, read
     * from the label image: every timestep becomes its `OutputFrame`.
     */
    method ExecuteOutput(data: array<Volume>, tStart: nat, relabel: (seq<int>, map<int, int>) -> seq<int>)
      returns (outcome: Outcome<TrackingError>)
      requires forall i :: 0 <= i < data.Length ==> |data[i]| >= 1
      modifies data
      ensures parameters.None? ==> outcome == Fail(NotReady("Parameters")) && data[..] == old(data[..])
      ensures parameters.Some? ==>
                && outcome.Pass?
                && forall i :: 0 <= i < data.Length ==>
                     data[i] == OutputFrame(old(data[i]), tStart + i, parameters.value, label2color, relabel)
    {
      if parameters.None? {
        return Fail(NotReady("Parameters"));
      }
      var params := parameters.value;
      var i := 0;
      while i < data.Length
        invariant 0 <= i <= data.Length
        invariant forall j :: 0 <= j < i ==>
                    data[j] == OutputFrame(old(data[j]), tStart + j, params, label2color, relabel)
        invariant forall j :: i <= j < data.Length ==> data[j] == old(data[j])
      {
        var t := tStart + i;
        if Shown(params, |label2color|, t) {
          data[i] := data[i][0 := relabel(data[i][0], label2color[t])];
        } else {
          data[i] := Zeroed(data[i]);
        }
        i := i + 1;
      }
      return Pass;
    }

    /** The AllBlocks request: nothing before colours exist, else one block per timestep. */
    method AllBlocks(shape: seq<nat>) returns (blocks: seq<Roi>)
      requires |shape| == 5
      ensures |label2color| == 0 ==> blocks == []
      ensures |label2color| > 0 ==>
                |blocks| == shape[0] && forall t :: 0 <= t < shape[0] ==> blocks[t] == TimeBlock(shape, t)
    {
      if |label2color| == 0 {
        return [];
      }
      blocks := [];
      var t := 0;
      while t < shape[0]
        invariant 0 <= t <= shape[0] && |blocks| == t
        invariant forall j :: 0 <= j < t ==> blocks[j] == TimeBlock(shape, j)
      {
        blocks := blocks + [TimeBlock(shape, t)];
        t := t + 1;
      }
    }

    /**
     * The filter bookkeeping of `_generate_traxelstore` for the frames the
     * object features deliver (in their order): the parameters' time range
     * becomes `[min, max]` of the requested one before the frame loop, so it
     * stays set when the loop fails; on success the filtered labels are
     * stored and the empty-frame flag returned.
     */
    method GenerateTraxelFilter(frames: seq<FrameFeatures>, timeRange: seq<int>, b: Bounds)
      returns (r: Result<bool, TraxelError>)
      modifies this
      ensures old(parameters).None? ==> r == Failure(ParametersNotReady) && unchanged(this)
      ensures old(parameters).Some? && timeRange == [] ==> r == Failure(NoTimesteps) && unchanged(this)
      ensures old(parameters).Some? && timeRange != [] ==>
                && parameters == Some(old(parameters).value.(timeRange := Some((SeqMin(timeRange), SeqMax(timeRange)))))
                && label2color == old(label2color) && mergers == old(mergers)
                && events == old(events) && dirtied == old(dirtied)
                && var s := FilterAll(frames, timeRange[0], b);
                   && (s.Failure? ==> r == Failure(BadFrame(s.error)) && filteredLabels == old(filteredLabels))
                   && (s.Success? ==> r == Success(s.value.emptyFrame) && filteredLabels == Some(s.value.filtered))
    {
      if parameters.None? {
        return Failure(ParametersNotReady);
      }
      if timeRange == [] {
        return Failure(NoTimesteps);
      }
      parameters := Some(parameters.value.(timeRange := Some((SeqMin(timeRange), SeqMax(timeRange)))));
      var s := FilterFrames(frames, timeRange[0], b);
      if s.Failure? {
        return Failure(BadFrame(s.error));
      }
      filteredLabels := Some(s.value.filtered);
      return Success(s.value.emptyFrame);
    }
  }
}
