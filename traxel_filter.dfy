/**
 * The range filter of the tracking operator's traxel-store generation: every
 * object of every frame is kept or filtered by half-open ranges on its
 * centre and size; filtered labels are collected per frame, and a frame in
 * which no object passes marks the result as having an empty frame.
 */
module TraxelFilter {
  import opened Wrappers

  /** A half-open range `[lo, hi)`. */
  datatype Interval = Interval(lo: real, hi: real)

  predicate InInterval(v: real, r: Interval) { r.lo <= v < r.hi }

  /** The x, y, z and size ranges of the tracking parameters. */
  datatype Bounds = Bounds(x: Interval, y: Interval, z: Interval, size: Interval)

  /**
   * The features of one frame: region centres and counts, each with the
   * background object as row 0 unless the array is empty.
   */
  datatype FrameFeatures = FrameFeatures(t: int, centers: seq<seq<real>>, counts: seq<real>)

  datatype FilterError =
    /** A region centre that has neither 2 nor 3 coordinates. */
    | BadCenterDimension(t: int, idx: nat)
    /** An object without a count (IndexError). */
    | MissingCount(t: int, idx: nat)

  /** `a.size` of a rectangular array given by its rows. */
  predicate NonEmptyArray<T>(rows: seq<seq<T>>) { |rows| > 0 && |rows[0]| > 0 }

  /** The objects of a frame: the background row is dropped from non-empty arrays. */
  function Objects(f: FrameFeatures): (r: seq<seq<real>>)
    ensures NonEmptyArray(f.centers) ==> r == f.centers[1..]
    ensures !NonEmptyArray(f.centers) ==> r == f.centers
  {
    if NonEmptyArray(f.centers) then f.centers[1..] else f.centers
  }

  function Counts(f: FrameFeatures): (r: seq<real>)
    ensures |f.counts| > 0 ==> r == f.counts[1..]
    ensures |f.counts| == 0 ==> r == []
  {
    if |f.counts| > 0 then f.counts[1..] else f.counts
  }

  /** A 2-d centre gets z = 0; any other dimensionality is refused. */
  function Center3(row: seq<real>): (r: Option<(real, real, real)>)
    ensures r.Some? <==> |row| == 2 || |row| == 3
    ensures r.Some? ==> r.value.0 == row[0] && r.value.1 == row[1]
    ensures r.Some? ==> r.value.2 == (if |row| == 3 then row[2] else 0.0)
  {
    if |row| == 2 then Some((row[0], row[1], 0.0))
    else if |row| == 3 then Some((row[0], row[1], row[2]))
    else None
  }

  /** An object is filtered when any of x, y, z and size lies outside its range. */
  predicate Rejected(p: (real, real, real), size: real, b: Bounds) {
    !InInterval(p.0, b.x) || !InInterval(p.1, b.y) || !InInterval(p.2, b.z) || !InInterval(size, b.size)
  }

  /** Object `idx` (0-based, label idx + 1) has a usable centre and a count. */
  predicate Usable(objs: seq<seq<real>>, cts: seq<real>, idx: nat)
    requires idx < |objs|
  {
    Center3(objs[idx]).Some? && idx < |cts|
  }

  /** The object loop over the first `n` objects: (filtered labels, number passed). */
  function ScanObjects(objs: seq<seq<real>>, cts: seq<real>, t: int, b: Bounds, n: nat)
    : Result<(seq<int>, nat), FilterError>
    requires n <= |objs|
    decreases n
  {
    if n == 0 then Success(([], 0))
    else
      match ScanObjects(objs, cts, t, b, n - 1)
      case Failure(e) => Failure(e)
      case Success(acc) =>
        var idx := n - 1;
        match Center3(objs[idx])
        case None => Failure(BadCenterDimension(t, idx))
        case Some(p) =>
          if idx >= |cts| then Failure(MissingCount(t, idx))
          else if Rejected(p, cts[idx], b) then Success((acc.0 + [idx + 1], acc.1))
          else Success((acc.0, acc.1 + 1))
  }

  function ScanFrame(f: FrameFeatures, b: Bounds): Result<(seq<int>, nat), FilterError> {
    ScanObjects(Objects(f), Counts(f), f.t, b, |Objects(f)|)
  }

  /**
   * The scan succeeds exactly when every object is usable. Then a label is
   * filtered exactly when its object is out of range, the labels come in
   * increasing order, and filtered plus passed objects are all objects.
   */
  lemma {:induction false} ScanObjectsCorrect(objs: seq<seq<real>>, cts: seq<real>, t: int, b: Bounds, n: nat)
    requires n <= |objs|
    ensures ScanObjects(objs, cts, t, b, n).Success? <==> forall idx :: 0 <= idx < n ==> Usable(objs, cts, idx)
    ensures ScanObjects(objs, cts, t, b, n).Success? ==>
      var (ls, count) := ScanObjects(objs, cts, t, b, n).value;
      && count + |ls| == n
      && (forall i, j :: 0 <= i < j < |ls| ==> ls[i] < ls[j])
      && (forall i :: 0 <= i < |ls| ==> 1 <= ls[i] <= n)
      && (forall idx :: 0 <= idx < n && Usable(objs, cts, idx) ==>
            (idx + 1 in ls <==> Rejected(Center3(objs[idx]).value, cts[idx], b)))
    decreases n
  {
    if n > 0 {
      ScanObjectsCorrect(objs, cts, t, b, n - 1);
      if ScanObjects(objs, cts, t, b, n - 1).Success? && Usable(objs, cts, n - 1) {
        assert forall idx :: 0 <= idx < n ==> Usable(objs, cts, idx) by {
          forall idx | 0 <= idx < n ensures Usable(objs, cts, idx) {
            if idx < n - 1 {
              assert Usable(objs, cts, idx);
            }
          }
        }
      }
    }
  }

  /** What the traxel loop leaves behind besides the traxel store. */
  datatype Summary = Summary(filtered: seq<(int, seq<int>)>, emptyFrame: bool, total: nat)

  /** The object scan of every frame, in frame order. */
  function Scans(frames: seq<FrameFeatures>, b: Bounds): (r: seq<Result<(seq<int>, nat), FilterError>>)
    ensures |r| == |frames| && forall i :: 0 <= i < |frames| ==> r[i] == ScanFrame(frames[i], b)
  {
    seq(|frames|, i requires 0 <= i < |frames| => ScanFrame(frames[i], b))
  }

  /**
   * The frame loop over the first `m` frames, given each frame's scan. A
   * frame's filtered labels are stored under `t - tFirst` (as `str`, which
   * reading back with `int` undoes), and only when there are some.
   */
  function Gather(frames: seq<FrameFeatures>, scans: seq<Result<(seq<int>, nat), FilterError>>, tFirst: int, m: nat)
    : Result<Summary, FilterError>
    requires m <= |frames| && m <= |scans|
    decreases m
  {
    if m == 0 then Success(Summary([], false, 0))
    else
      match Gather(frames, scans, tFirst, m - 1)
      case Failure(e) => Failure(e)
      case Success(s) =>
        match scans[m - 1]
        case Failure(e) => Failure(e)
        case Success(scan) =>
          Success(Summary(s.filtered + (if |scan.0| > 0 then [(frames[m - 1].t - tFirst, scan.0)] else []),
                          s.emptyFrame || scan.1 == 0,
                          s.total + scan.1))
  }


  /** The filter bookkeeping of the whole frame loop. */
  function FilterAll(frames: seq<FrameFeatures>, tFirst: int, b: Bounds): Result<Summary, FilterError> {
    Gather(frames, Scans(frames, b), tFirst, |frames|)
  }

  ghost predicate AllScanned(scans: seq<Result<(seq<int>, nat), FilterError>>, m: nat)
    requires m <= |scans|
  {
    forall i :: 0 <= i < m ==> scans[i].Success?
  }

  /** The loop gets through exactly when every frame scans; otherwise it reports the first frame's error. */
  lemma {:induction false} GatherSucceeds(frames: seq<FrameFeatures>, scans: seq<Result<(seq<int>, nat), FilterError>>,
                                          tFirst: int, m: nat)
    requires m <= |frames| == |scans|
    ensures Gather(frames, scans, tFirst, m).Success? <==> AllScanned(scans, m)
    ensures Gather(frames, scans, tFirst, m).Failure? ==>
      exists i :: 0 <= i < m && AllScanned(scans, i) && scans[i].Failure?
                  && Gather(frames, scans, tFirst, m).error == scans[i].error
    decreases m
  {
    if m > 0 {
      GatherSucceeds(frames, scans, tFirst, m - 1);
      if Gather(frames, scans, tFirst, m - 1).Failure? {
        var i :| 0 <= i < m - 1 && AllScanned(scans, i) && scans[i].Failure?
                 && Gather(frames, scans, tFirst, m - 1).error == scans[i].error;
        assert Gather(frames, scans, tFirst, m).error == scans[i].error;
      } else if scans[m - 1].Failure? {
        assert Gather(frames, scans, tFirst, m).error == scans[m - 1].error;
      }
    }
  }

  /**
   * After the frame loop, every frame with filtered labels has an entry
   * under its own key, every entry is such a frame's, and entries have
   * non-empty label lists.
   */
  lemma {:induction false} GatherEntries(frames: seq<FrameFeatures>, scans: seq<Result<(seq<int>, nat), FilterError>>,
                                         tFirst: int, m: nat)
    requires m <= |frames| == |scans|
    requires AllScanned(scans, m)
    ensures Gather(frames, scans, tFirst, m).Success?
    ensures var s := Gather(frames, scans, tFirst, m).value;
      && (forall i :: 0 <= i < m && |scans[i].value.0| > 0 ==> (frames[i].t - tFirst, scans[i].value.0) in s.filtered)
      && (forall e :: e in s.filtered ==>
            |e.1| > 0 && exists i :: 0 <= i < m && e == (frames[i].t - tFirst, scans[i].value.0))
    decreases m
  {
    GatherSucceeds(frames, scans, tFirst, m);
    if m > 0 {
      GatherEntries(frames, scans, tFirst, m - 1);
      var scan := scans[m - 1].value;
      var s := Gather(frames, scans, tFirst, m).value;
      var s0 := Gather(frames, scans, tFirst, m - 1).value;
      var entry := (frames[m - 1].t - tFirst, scan.0);
      assert s.filtered == s0.filtered + (if |scan.0| > 0 then [entry] else []);
      forall e | e in s.filtered
        ensures |e.1| > 0 && exists i :: 0 <= i < m && e == (frames[i].t - tFirst, scans[i].value.0)
      {
        if e !in s0.filtered {
          assert e == entry;
        }
      }
    }
  }

  /** The empty-frame flag is set exactly when some frame passed no object. */
  lemma {:induction false} GatherEmptyFrame(frames: seq<FrameFeatures>, scans: seq<Result<(seq<int>, nat), FilterError>>,
                                            tFirst: int, m: nat)
    requires m <= |frames| == |scans|
    requires AllScanned(scans, m)
    ensures Gather(frames, scans, tFirst, m).Success?
    ensures Gather(frames, scans, tFirst, m).value.emptyFrame <==> exists i :: 0 <= i < m && scans[i].value.1 == 0
    decreases m
  {
    GatherSucceeds(frames, scans, tFirst, m);
    if m > 0 {
      GatherEmptyFrame(frames, scans, tFirst, m - 1);
    }
  }

  /** The number of objects (without background) in the first `m` frames. */
  function TotalObjects(frames: seq<FrameFeatures>, m: nat): nat
    requires m <= |frames|
  {
    if m == 0 then 0 else TotalObjects(frames, m - 1) + |Objects(frames[m - 1])|
  }

  /** The number of labels stored in the filtered entries. */
  function FilteredCount(filtered: seq<(int, seq<int>)>): nat {
    if filtered == [] then 0 else FilteredCount(filtered[..|filtered| - 1]) + |filtered[|filtered| - 1].1|
  }

  /** The frame loop's accounting, for scans in which every object is either filtered or passed. */
  lemma {:induction false} GatherTotal(frames: seq<FrameFeatures>, scans: seq<Result<(seq<int>, nat), FilterError>>,
                                       tFirst: int, m: nat)
    requires m <= |frames| == |scans|
    requires AllScanned(scans, m)
    requires forall i :: 0 <= i < m ==> scans[i].value.1 + |scans[i].value.0| == |Objects(frames[i])|
    ensures Gather(frames, scans, tFirst, m).Success?
    ensures var s := Gather(frames, scans, tFirst, m).value;
      s.total + FilteredCount(s.filtered) == TotalObjects(frames, m)
    decreases m
  {
    GatherSucceeds(frames, scans, tFirst, m);
    if m > 0 {
      GatherTotal(frames, scans, tFirst, m - 1);
      var s0 := Gather(frames, scans, tFirst, m - 1).value;
      var scan := scans[m - 1].value;
      var added := if |scan.0| > 0 then [(frames[m - 1].t - tFirst, scan.0)] else [];
      var s := Gather(frames, scans, tFirst, m).value;
      assert s.filtered == s0.filtered + added && s.total == s0.total + scan.1;
      assert FilteredCount(s0.filtered + added) == FilteredCount(s0.filtered) + |scan.0| by {
        if |scan.0| > 0 {
          assert (s0.filtered + added)[..|s0.filtered|] == s0.filtered;
        } else {
          assert s0.filtered + added == s0.filtered;
        }
      }
    }
  }

  /**
   * Every object either passes or is filtered: the passed total plus the
   * filtered labels of all frames is the number of objects (so the total is
   * at most that number).
   */
  lemma FilterAllTotal(frames: seq<FrameFeatures>, tFirst: int, b: Bounds, m: nat)
    requires m <= |frames|
    requires Gather(frames, Scans(frames, b), tFirst, m).Success?
    ensures var s := Gather(frames, Scans(frames, b), tFirst, m).value;
      s.total + FilteredCount(s.filtered) == TotalObjects(frames, m)
  {
    var scans := Scans(frames, b);
    GatherSucceeds(frames, scans, tFirst, m);
    forall i | 0 <= i < m
      ensures scans[i].value.1 + |scans[i].value.0| == |Objects(frames[i])|
    {
      var f := frames[i];
      ScanObjectsCorrect(Objects(f), Counts(f), f.t, b, |Objects(f)|);
    }
    GatherTotal(frames, scans, tFirst, m);
  }

  /** Frames whose times are distinct (keys of a dictionary) give entries with distinct keys. */
  lemma {:induction false} GatherKeysDistinct(frames: seq<FrameFeatures>, scans: seq<Result<(seq<int>, nat), FilterError>>,
                                              tFirst: int, m: nat)
    requires m <= |frames| == |scans|
    requires forall i, j :: 0 <= i < j < |frames| ==> frames[i].t != frames[j].t
    requires AllScanned(scans, m)
    ensures Gather(frames, scans, tFirst, m).Success?
    ensures var s := Gather(frames, scans, tFirst, m).value;
      forall i, j :: 0 <= i < j < |s.filtered| ==> s.filtered[i].0 != s.filtered[j].0
    ensures var s := Gather(frames, scans, tFirst, m).value;
      forall i :: 0 <= i < |s.filtered| ==> exists k :: 0 <= k < m && s.filtered[i].0 == frames[k].t - tFirst
    decreases m
  {
    GatherSucceeds(frames, scans, tFirst, m);
    if m > 0 {
      GatherKeysDistinct(frames, scans, tFirst, m - 1);
      var s0 := Gather(frames, scans, tFirst, m - 1).value;
      var s := Gather(frames, scans, tFirst, m).value;
      var scan := scans[m - 1].value;
      var key := frames[m - 1].t - tFirst;
      if |scan.0| > 0 {
        assert s.filtered == s0.filtered + [(key, scan.0)];
        forall i | 0 <= i < |s0.filtered| ensures s.filtered[i].0 != key {
          var k :| 0 <= k < m - 1 && s0.filtered[i].0 == frames[k].t - tFirst;
        }
      } else {
        assert s.filtered == s0.filtered;
      }
    }
  }

  /** The object loop of one frame. */
  method ScanFrameLoop(f: FrameFeatures, b: Bounds) returns (r: Result<(seq<int>, nat), FilterError>)
    ensures r == ScanFrame(f, b)
  {
    var objs := Objects(f);
    var cts := Counts(f);
    var t := f.t;
    var count: nat := 0;
    var filteredAt: seq<int> := [];
    var idx := 0;
    while idx < |objs|
      invariant 0 <= idx <= |objs|
      invariant ScanObjects(objs, cts, t, b, idx) == Success((filteredAt, count))
    {
      var center := Center3(objs[idx]);
      if center.None? {
        ScanFails(objs, cts, t, b, idx + 1, |objs|);
        return Failure(BadCenterDimension(t, idx));
      }
      if idx >= |cts| {
        ScanFails(objs, cts, t, b, idx + 1, |objs|);
        return Failure(MissingCount(t, idx));
      }
      var size := cts[idx];
      if Rejected(center.value, size, b) {
        filteredAt := filteredAt + [idx + 1];
      } else {
        count := count + 1;
      }
      idx := idx + 1;
    }
    return Success((filteredAt, count));
  }

  /** The object scans of the frame loop, frame by frame. */
  method ScanAll(frames: seq<FrameFeatures>, b: Bounds) returns (scans: seq<Result<(seq<int>, nat), FilterError>>)
    ensures scans == Scans(frames, b)
  {
    scans := [];
    var m := 0;
    while m < |frames|
      invariant 0 <= m <= |frames| && |scans| == m
      invariant forall i :: 0 <= i < m ==> scans[i] == ScanFrame(frames[i], b)
    {
      var scan := ScanFrameLoop(frames[m], b);
      scans := scans + [scan];
      m := m + 1;
    }
  }

  /** The bookkeeping of the frame loop over given scans; the first failing scan stops it. */
  method GatherLoop(frames: seq<FrameFeatures>, scans: seq<Result<(seq<int>, nat), FilterError>>, tFirst: int)
    returns (r: Result<Summary, FilterError>)
    requires |scans| == |frames|
    ensures r == Gather(frames, scans, tFirst, |frames|)
  {
    var filtered: seq<(int, seq<int>)> := [];
    var emptyFrame := false;
    var total: nat := 0;
    var m := 0;
    while m < |frames|
      invariant 0 <= m <= |frames|
      invariant Gather(frames, scans, tFirst, m) == Success(Summary(filtered, emptyFrame, total))
    {
      var scan := scans[m];
      if scan.Failure? {
        GatherNextFails(frames, scans, tFirst, m);
        GatherFails(frames, scans, tFirst, m + 1, |frames|);
        return Failure(scan.error);
      }
      var filteredAt := scan.value.0;
      var count := scan.value.1;
      ghost var before := Summary(filtered, emptyFrame, total);
      assert scans[m] == Success((filteredAt, count));
      if |filteredAt| > 0 {
        filtered := filtered + [(frames[m].t - tFirst, filteredAt)];
      }
      if count == 0 {
        emptyFrame := true;
      }
      total := total + count;
      assert Gather(frames, scans, tFirst, m + 1) ==
        Success(Summary(before.filtered + (if |filteredAt| > 0 then [(frames[m].t - tFirst, filteredAt)] else []),
                        before.emptyFrame || count == 0, before.total + count));
      assert filtered == before.filtered + (if |filteredAt| > 0 then [(frames[m].t - tFirst, filteredAt)] else []);
      assert emptyFrame == (before.emptyFrame || count == 0);
      assert total == before.total + count;
      m := m + 1;
    }
    return Success(Summary(filtered, emptyFrame, total));
  }

  /**
   * The frame loop of `_generate_traxelstore`, restricted to its filter
   * bookkeeping: the scans are side-effect free, so scanning every frame
   * first and then folding gives the fused loop's result, including the
   * error of the first frame that fails.
   */
  method FilterFrames(frames: seq<FrameFeatures>, tFirst: int, b: Bounds) returns (r: Result<Summary, FilterError>)
    ensures r == FilterAll(frames, tFirst, b)
  {
    var scans := ScanAll(frames, b);
    r := GatherLoop(frames, scans, tFirst);
  }

  lemma GatherNextFails(frames: seq<FrameFeatures>, scans: seq<Result<(seq<int>, nat), FilterError>>, tFirst: int, m: nat)
    requires m < |frames| && m < |scans| && scans[m].Failure? && Gather(frames, scans, tFirst, m).Success?
    ensures Gather(frames, scans, tFirst, m + 1) == Failure(scans[m].error)
  {
  }

  /** Once the object loop fails, so does the rest of it, with the same error. */
  lemma {:induction false} ScanFails(objs: seq<seq<real>>, cts: seq<real>, t: int, b: Bounds, k: nat, n: nat)
    requires k <= n <= |objs|
    requires ScanObjects(objs, cts, t, b, k).Failure?
    ensures ScanObjects(objs, cts, t, b, n) == ScanObjects(objs, cts, t, b, k)
    decreases n
  {
    if n > k {
      ScanFails(objs, cts, t, b, k, n - 1);
    }
  }

  lemma {:induction false} GatherFails(frames: seq<FrameFeatures>, scans: seq<Result<(seq<int>, nat), FilterError>>,
                                       tFirst: int, k: nat, n: nat)
    requires k <= n <= |frames| == |scans|
    requires Gather(frames, scans, tFirst, k).Failure?
    ensures Gather(frames, scans, tFirst, n) == Gather(frames, scans, tFirst, k)
    decreases n
  {
    if n > k {
      GatherFails(frames, scans, tFirst, k, n - 1);
    }
  }
}
